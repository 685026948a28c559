/**
 * The backend configuration: the shared detector-threshold table and the
 * loader that lays a user's YAML mapping over the module's `defaults`.
 * Dicts are ordered association lists, as Python dicts keep insertion
 * order. The loader starts from a shallow copy of `defaults`, so merging
 * into a nested default dict (such as `logging`) changes `defaults` too.
 */
module Config {
  import opened Wrappers

  /** A YAML value after parsing (floats and other scalar kinds are not modelled). */
  datatype Value =
    | Null
    | Bool(b: bool)
    | Int(i: int)
    | Str(s: string)
    | List(items: seq<Value>)
    | Dict(entries: seq<(string, Value)>)

  type Entries = seq<(string, Value)>

  /** Python truthiness, the test `x or {}` applies. */
  predicate Truthy(v: Value)
  {
    match v
    case Null => false
    case Bool(b) => b
    case Int(i) => i != 0
    case Str(s) => s != ""
    case List(xs) => xs != []
    case Dict(es) => es != []
  }

  function Keys(d: Entries): set<string>
  {
    set i | 0 <= i < |d| :: d[i].0
  }

  /** `d.get(k)`: the value bound to `k`, if any. */
  function Get(d: Entries, k: string): (r: Option<Value>)
    ensures r.Some? <==> k in Keys(d)
  {
    if d == [] then None
    else if d[0].0 == k then Some(d[0].1)
    else
      assert Keys(d) == {d[0].0} + Keys(d[1..]) by {
        forall x | x in Keys(d) ensures x in {d[0].0} + Keys(d[1..]) {
          var i :| 0 <= i < |d| && d[i].0 == x;
          if i > 0 {
            assert d[1..][i - 1].0 == x;
          }
        }
      }
      Get(d[1..], k)
  }

  /** `d[k] = v`: an existing key keeps its position, a new key goes last. */
  function Put(d: Entries, k: string, v: Value): Entries
  {
    if d == [] then [(k, v)]
    else if d[0].0 == k then [(k, v)] + d[1..]
    else [d[0]] + Put(d[1..], k, v)
  }

  /** After `d[k] = v`, `k` is bound to `v`, every other key keeps its binding, and the keys gain `k`. */
  lemma {:induction false} PutSpec(d: Entries, k: string, v: Value)
    ensures Get(Put(d, k, v), k) == Some(v)
    ensures forall j :: j != k ==> Get(Put(d, k, v), j) == Get(d, j)
    ensures Keys(Put(d, k, v)) == Keys(d) + {k}
  {
    if d != [] && d[0].0 != k {
      PutSpec(d[1..], k, v);
      var p := Put(d, k, v);
      assert p == [d[0]] + Put(d[1..], k, v);
      forall j | j != k ensures Get(p, j) == Get(d, j) {
        if d[0].0 != j {
          assert p[1..] == Put(d[1..], k, v);
        }
      }
      KeysCons(d);
      KeysCons(p);
    } else if d != [] {
      KeysCons(d);
      KeysCons(Put(d, k, v));
      assert Put(d, k, v)[1..] == d[1..];
    }
  }

  lemma KeysCons(d: Entries)
    requires d != []
    ensures Keys(d) == {d[0].0} + Keys(d[1..])
  {
    forall x | x in Keys(d) ensures x in {d[0].0} + Keys(d[1..]) {
      var i :| 0 <= i < |d| && d[i].0 == x;
      if i > 0 {
        assert d[1..][i - 1].0 == x;
      }
    }
    forall x | x in Keys(d[1..]) ensures x in Keys(d) {
      var i :| 0 <= i < |d[1..]| && d[1..][i].0 == x;
      assert d[i + 1].0 == x;
    }
  }

  /** The binding the last occurrence of `k` in `e` gives, as `dict.update(e)` applies them in order. */
  function LastGet(e: Entries, k: string): Option<Value>
  {
    if e == [] then None
    else if e[|e| - 1].0 == k then Some(e[|e| - 1].1)
    else LastGet(e[..|e| - 1], k)
  }

  /** `d.update(e)`: the entries of `e` are assigned into `d` in order. */
  function UpdateWith(d: Entries, e: Entries): Entries
  {
    if e == [] then d
    else Put(UpdateWith(d, e[..|e| - 1]), e[|e| - 1].0, e[|e| - 1].1)
  }

  /** After `d.update(e)` a key takes its value from `e` if `e` binds it, and otherwise keeps its value in `d`. */
  lemma {:induction false} UpdateWithSpec(d: Entries, e: Entries, k: string)
    ensures Get(UpdateWith(d, e), k) == if LastGet(e, k).Some? then LastGet(e, k) else Get(d, k)
  {
    if e != [] {
      UpdateWithSpec(d, e[..|e| - 1], k);
      PutSpec(UpdateWith(d, e[..|e| - 1]), e[|e| - 1].0, e[|e| - 1].1);
    }
  }

  /** The module-level `thresholds` table the API edits and the shared ARP detector reads. */
  class ThresholdTable {
    var table: map<string, int>

    constructor ()
      ensures table == map["ssh" := 10, "icmp" := 20, "arp" := 5]
    {
      table := map["ssh" := 10, "icmp" := 20, "arp" := 5];
    }
  }

  const DefaultLogging: Entries := [("alerts_log", Str("alerts.log")), ("level", Str("INFO"))]

  const Defaults: Entries := [
    ("interface", Null),
    ("window_seconds", Int(10)),
    ("icmp_threshold_per_window", Int(100)),
    ("arp_mac_change_threshold", Int(3)),
    ("logging", Dict(DefaultLogging))
  ]

  /** Why a load raised: the document is not a mapping, or a dict was merged into a default that has no `update`. */
  datatype LoadError = NotAMapping | NoUpdateMethod(key: string)

  /**
   * The loader's state part-way through the user's items: the config being
   * built, the module's `defaults`, and the keys whose value in the config
   * is still the very object `defaults` holds (so an in-place `update` on
   * it shows in both).
   */
  datatype LoadState = LoadState(app: Entries, defaults: Entries, shared: set<string>)

  /** A load either finishes or raises, leaving `defaults` as changed so far. */
  datatype Outcome = Loaded(st: LoadState) | Failed(err: LoadError, defaults: Entries)

  /** One user item: merge a dict into an existing key's dict, or assign the value. */
  function Step(st: LoadState, k: string, v: Value): Outcome
  {
    if v.Dict? && k in Keys(st.app) then
      match Get(st.app, k)
      case Some(Dict(cur)) =>
        var merged := Dict(UpdateWith(cur, v.entries));
        Loaded(LoadState(Put(st.app, k, merged), if k in st.shared then Put(st.defaults, k, merged) else st.defaults, st.shared))
      case _ => Failed(NoUpdateMethod(k), st.defaults)
    else
      Loaded(LoadState(Put(st.app, k, v), st.defaults, st.shared - {k}))
  }

  /** The user's items in order; the first raise ends the load. */
  function Fold(st: LoadState, items: Entries): Outcome
  {
    if items == [] then Loaded(st)
    else
      match Fold(st, items[..|items| - 1])
      case Failed(e, d) => Failed(e, d)
      case Loaded(s) => Step(s, items[|items| - 1].0, items[|items| - 1].1)
  }

  /** Once an item raises, the items after it are never looked at. */
  lemma {:induction false} FailedLoadStops(st: LoadState, xs: Entries, ys: Entries)
    requires Fold(st, xs).Failed?
    ensures Fold(st, xs + ys) == Fold(st, xs)
    decreases |ys|
  {
    if ys == [] {
      assert xs + ys == xs;
    } else {
      assert (xs + ys)[..|xs + ys| - 1] == xs + ys[..|ys| - 1];
      FailedLoadStops(st, xs, ys[..|ys| - 1]);
    }
  }

  /** The copy `load_config_file` starts from: every key's value is the defaults' own object. */
  function Start(defaults: Entries): LoadState
  {
    LoadState(defaults, defaults, Keys(defaults))
  }

  /**
   * `load_config_file` over the current `defaults`: `user` is the parsed
   * file, `None` when there is no file; an empty or falsy document counts
   * as `{}`.
   */
  function Load(defaults: Entries, user: Option<Value>): Outcome
  {
    match user
    case None => Loaded(Start(defaults))
    case Some(doc) =>
      if !Truthy(doc) then Loaded(Start(defaults))
      else if doc.Dict? then Fold(Start(defaults), doc.entries)
      else Failed(NotAMapping, defaults)
  }

  /** The module that owns `defaults`; a load may change it. */
  class ConfigModule {
    var defaults: Entries

    constructor ()
      ensures defaults == Defaults
    {
      defaults := Defaults;
    }

    /** `load_config_file`: the result and the new `defaults` are those `Load` gives. */
    method LoadConfigFile(user: Option<Value>) returns (r: Result<Entries, LoadError>)
      modifies this
      ensures match Load(old(defaults), user)
        case Loaded(st) => r == Ok(st.app) && defaults == st.defaults
        case Failed(e, d) => r == Err(e) && defaults == d
    {
      var app := defaults;
      var shared := Keys(defaults);
      if user.None? || !Truthy(user.value) {
        return Ok(app);
      }
      var doc := user.value;
      if !doc.Dict? {
        return Err(NotAMapping);
      }
      var items := doc.entries;
      var i := 0;
      while i < |items|
        invariant 0 <= i <= |items|
        invariant Fold(Start(old(defaults)), items[..i]) == Loaded(LoadState(app, defaults, shared))
      {
        var (k, v) := items[i];
        assert items[..i + 1][..i] == items[..i];
        if v.Dict? && k in Keys(app) {
          var cur := Get(app, k);
          if !(cur.Some? && cur.value.Dict?) {
            assert items == items[..i + 1] + items[i + 1..];
            FailedLoadStops(Start(old(defaults)), items[..i + 1], items[i + 1..]);
            return Err(NoUpdateMethod(k));
          }
          var merged := Dict(UpdateWith(cur.value.entries, v.entries));
          app := Put(app, k, merged);
          if k in shared {
            defaults := Put(defaults, k, merged);
          }
        } else {
          app := Put(app, k, v);
          shared := shared - {k};
        }
        i := i + 1;
      }
      assert items[..i] == items;
      return Ok(app);
    }
  }

  /** Without a file, or with an empty one, the config is exactly the defaults and nothing changes. */
  lemma NoFileGivesDefaults(defaults: Entries, user: Option<Value>)
    requires user.None? || !Truthy(user.value)
    ensures Load(defaults, user) == Loaded(LoadState(defaults, defaults, Keys(defaults)))
  {
  }

  /** A step keeps every other key's value, and a key it assigns (not a dict merged into an existing key) gets the user's value. */
  lemma StepSpec(st: LoadState, k: string, v: Value)
    ensures Step(st, k, v).Loaded? ==>
      && (forall j :: j != k ==> Get(Step(st, k, v).st.app, j) == Get(st.app, j))
      && Keys(Step(st, k, v).st.app) == Keys(st.app) + {k}
    ensures !(v.Dict? && k in Keys(st.app)) ==> Step(st, k, v).Loaded? && Get(Step(st, k, v).st.app, k) == Some(v)
    ensures v.Dict? && k in Keys(st.app) ==>
      (Step(st, k, v).Loaded? <==> Get(st.app, k).value.Dict?)
  {
    if v.Dict? && k in Keys(st.app) {
      match Get(st.app, k)
      case Some(Dict(cur)) =>
        PutSpec(st.app, k, Dict(UpdateWith(cur, v.entries)));
      case _ =>
    } else {
      PutSpec(st.app, k, v);
    }
  }

  /** A dict merged into a default dict keeps the default sub-keys the user does not mention and takes the user's for the others. */
  lemma MergeKeepsUnmentionedSubkeys(st: LoadState, k: string, v: Value, cur: Entries, sub: string)
    requires v.Dict? && Get(st.app, k) == Some(Dict(cur))
    ensures Step(st, k, v).Loaded?
    ensures Get(Step(st, k, v).st.app, k) == Some(Dict(UpdateWith(cur, v.entries)))
    ensures var merged := UpdateWith(cur, v.entries);
      Get(merged, sub) == if LastGet(v.entries, sub).Some? then LastGet(v.entries, sub) else Get(cur, sub)
  {
    PutSpec(st.app, k, Dict(UpdateWith(cur, v.entries)));
    UpdateWithSpec(cur, v.entries, sub);
  }

  /** A default key the user's items never mention keeps its default value. */
  lemma {:induction false} UnmentionedKeyKeepsDefault(st: LoadState, items: Entries, k: string)
    requires k !in Keys(items)
    ensures Fold(st, items).Loaded? ==> Get(Fold(st, items).st.app, k) == Get(st.app, k)
  {
    if items != [] {
      var init := items[..|items| - 1];
      assert Keys(init) <= Keys(items) by {
        forall x | x in Keys(init) ensures x in Keys(items) {
          var i :| 0 <= i < |init| && init[i].0 == x;
          assert items[i].0 == x;
        }
      }
      UnmentionedKeyKeepsDefault(st, init, k);
      if Fold(st, init).Loaded? {
        assert items[|items| - 1].0 in Keys(items);
        StepSpec(Fold(st, init).st, items[|items| - 1].0, items[|items| - 1].1);
      }
    }
  }

  /** The user document `logging: {level: DEBUG}`. */
  const DebugLogging: Value := Dict([("logging", Dict([("level", Str("DEBUG"))]))])

  /**
   * Because the copy is shallow, loading `logging: {level: DEBUG}` also
   * rewrites the module's own default `logging` dict: a later load without
   * any file then reports level DEBUG.
   */
  lemma SharedLoggingDict()
    ensures Load(Defaults, Some(DebugLogging)).Loaded?
    ensures var d := Load(Defaults, Some(DebugLogging)).st.defaults;
      && Get(d, "logging") == Some(Dict([("alerts_log", Str("alerts.log")), ("level", Str("DEBUG"))]))
      && Load(d, None).st.app == d
  {
    var items := DebugLogging.entries;
    assert items[..0] == [];
    assert "logging" in Keys(Defaults) by {
      assert Defaults[4].0 == "logging";
    }
    assert Get(Defaults, "logging") == Some(Dict(DefaultLogging)) by {
      var d := Defaults;
      assert |d[0].0| != |"logging"| && |d[1].0| != |"logging"| && |d[2].0| != |"logging"| && |d[3].0| != |"logging"|;
      assert Get(d, "logging") == Get(d[1..], "logging");
      assert Get(d[1..], "logging") == Get(d[2..], "logging") by { assert d[1..][1..] == d[2..]; }
      assert Get(d[2..], "logging") == Get(d[3..], "logging") by { assert d[2..][1..] == d[3..]; }
      assert Get(d[3..], "logging") == Get(d[4..], "logging") by { assert d[3..][1..] == d[4..]; }
    }
    assert Fold(Start(Defaults), items) == Step(Start(Defaults), "logging", Dict([("level", Str("DEBUG"))]));
    var logging := [("alerts_log", Str("alerts.log")), ("level", Str("DEBUG"))];
    assert UpdateWith(DefaultLogging, [("level", Str("DEBUG"))]) == logging by {
      var e := [("level", Str("DEBUG"))];
      assert e[..0] == [];
    }
    PutSpec(Defaults, "logging", Dict(logging));
  }
}
