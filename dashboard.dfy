/**
 * The dashboard component's state and the handlers that change it: the
 * alert ledger, four sample windows and four baseline series, the status
 * badge and the "last update" time. React's state setters become field
 * assignments; values a handler closed over at render time become
 * parameters (`render`, `renderAlerts`), because they can lag behind the
 * fields.
 */
module Dashboard {
  import opened Wrappers
  import opened Seqs
  import opened Telemetry
  import opened MetricWindows
  import opened AlertLedger

  /** The status badge: `'ACTIVE'` until an alert arrives, then `'ALERT'`. */
  datatype Status = Active | Alerting

  /** One value per charted metric. */
  datatype PerMetric<T> = PerMetric(icmp: T, ssh: T, arp: T, portscan: T) {
    function Get(m: Metric): T
    {
      match m
      case Icmp => icmp
      case Ssh => ssh
      case Arp => arp
      case Portscan => portscan
    }

    function Set(m: Metric, v: T): (r: PerMetric<T>)
      ensures r.Get(m) == v
      ensures forall k :: k != m ==> r.Get(k) == Get(k)
    {
      match m
      case Icmp => this.(icmp := v)
      case Ssh => this.(ssh := v)
      case Arp => this.(arp := v)
      case Portscan => this.(portscan := v)
    }
  }

  /** A push-channel message; a missing `payload`, `alerts` or `stats` field is `None`. */
  datatype Message =
    | AlertMessage(payload: Option<Alert>)
    | StatMessage(stat: Option<Stat>)
    | InitMessage(alerts: Option<seq<Alert>>)
    | InitStatsMessage(stats: Option<seq<Stat>>)
    | OtherMessage(kind: string)

  /** The parsed body of a pull response: a `stats` array, no such field, or a body `json()` rejects. */
  datatype Body = StatsBody(stats: seq<Stat>) | NoStatsField | Malformed

  /** What `fetch` yields for one metric's endpoint. */
  datatype Response = Response(ok: bool, body: Body) | NetworkError

  /** One metric's share of a refresh tick: it throws, contributes nothing, or hands over a non-empty batch. */
  datatype Pull = Throws | Skipped | Batch(stats: seq<Stat>)

  function ReadBody(b: Body): (p: Pull)
    ensures p.Batch? ==> p.stats != []
  {
    match b
    case Malformed => Throws
    case NoStatsField => Skipped
    case StatsBody(xs) => if |xs| > 0 then Batch(xs) else Skipped
  }

  /** The ICMP pull parses the body without looking at the status. */
  function PullUnchecked(r: Response): (p: Pull)
    ensures p.Batch? ==> p.stats != []
  {
    match r
    case NetworkError => Throws
    case Response(_, body) => ReadBody(body)
  }

  /** The SSH, ARP and port-scan pulls skip a response whose status is not ok. */
  function PullChecked(r: Response): (p: Pull)
    ensures p.Batch? ==> p.stats != []
  {
    match r
    case NetworkError => Throws
    case Response(ok, body) => if ok then ReadBody(body) else Skipped
  }

  function Got(p: Pull): seq<Stat>
  {
    if p.Batch? then p.stats else []
  }

  /** The stats a tick pushes, in order, and whether its `try` block was left by an exception. */
  datatype Tick = Tick(pushed: seq<Stat>, threw: bool)

  /** The refresh tick's `try` block over the four pulls in order: the first exception ends it. */
  function Chain(p1: Pull, p2: Pull, p3: Pull, p4: Pull): Tick
  {
    if p1.Throws? then Tick([], true)
    else if p2.Throws? then Tick(Got(p1), true)
    else if p3.Throws? then Tick(Got(p1) + Got(p2), true)
    else if p4.Throws? then Tick(Got(p1) + Got(p2) + Got(p3), true)
    else Tick(Got(p1) + Got(p2) + Got(p3) + Got(p4), false)
  }

  /** The refresh tick for the four endpoint responses: ICMP, SSH, ARP, port scan in turn. */
  function RunTick(icmp: Response, ssh: Response, arp: Response, portscan: Response): Tick
  {
    Chain(PullUnchecked(icmp), PullChecked(ssh), PullChecked(arp), PullChecked(portscan))
  }

  /** A tick pushed something exactly when one of the pulls before its first exception handed over a batch. */
  lemma ChainPushedSomething(p1: Pull, p2: Pull, p3: Pull, p4: Pull)
    requires p1.Batch? ==> p1.stats != []
    requires p2.Batch? ==> p2.stats != []
    requires p3.Batch? ==> p3.stats != []
    requires p4.Batch? ==> p4.stats != []
    ensures var t := Chain(p1, p2, p3, p4);
      |t.pushed| > 0 <==>
        || p1.Batch?
        || (!p1.Throws? && p2.Batch?)
        || (!p1.Throws? && !p2.Throws? && p3.Batch?)
        || (!p1.Throws? && !p2.Throws? && !p3.Throws? && p4.Batch?)
  {
  }

  /** A non-ok SSH response costs only the SSH batch; the other metrics are still pushed. */
  lemma NotOkResponseIsIsolated(icmp: seq<Stat>, ssh: Body, arp: seq<Stat>, portscan: seq<Stat>)
    ensures RunTick(Response(true, StatsBody(icmp)), Response(false, ssh), Response(true, StatsBody(arp)), Response(true, StatsBody(portscan)))
      == Tick(icmp + arp + portscan, false)
  {
    assert Got(ReadBody(StatsBody(icmp))) == icmp;
    assert Got(ReadBody(StatsBody(arp))) == arp;
    assert Got(ReadBody(StatsBody(portscan))) == portscan;
  }

  /** An exception in the first pull aborts the whole tick: nothing is pushed. */
  lemma FirstPullThrowingAbortsTick(ssh: Response, arp: Response, portscan: Response)
    ensures RunTick(NetworkError, ssh, arp, portscan) == Tick([], true)
    ensures RunTick(Response(false, Malformed), ssh, arp, portscan) == Tick([], true)
  {
  }

  /** The ICMP pull never looks at the status: an error response is read exactly like an ok one, whatever its body. */
  lemma IcmpStatusIsNotChecked(body: Body, ssh: Response, arp: Response, portscan: Response)
    ensures RunTick(Response(false, body), ssh, arp, portscan) == RunTick(Response(true, body), ssh, arp, portscan)
  {
  }

  /** The windows after a batch of stats: each metric's window admits that metric's stats in order. */
  function AdmitBatch(w: PerMetric<seq<Stat>>, batch: seq<Stat>, now: real): PerMetric<seq<Stat>>
  {
    PerMetric(
      AdmitAll(w.icmp, OfMetric(batch, IcmpMetric), now),
      AdmitAll(w.ssh, OfMetric(batch, SshMetric), now),
      AdmitAll(w.arp, OfMetric(batch, ArpMetric), now),
      AdmitAll(w.portscan, OfMetric(batch, PortscanMetric), now))
  }

  /** The baselines after a batch whose handler captured the windows `render`. */
  function ExtendBaselines(b: PerMetric<seq<Point>>, batch: seq<Stat>, render: PerMetric<seq<Stat>>): PerMetric<seq<Point>>
  {
    PerMetric(
      ExtendBaseline(b.icmp, OfMetric(batch, IcmpMetric), render.icmp),
      ExtendBaseline(b.ssh, OfMetric(batch, SshMetric), render.ssh),
      ExtendBaseline(b.arp, OfMetric(batch, ArpMetric), render.arp),
      ExtendBaseline(b.portscan, OfMetric(batch, PortscanMetric), render.portscan))
  }

  lemma OfMetricSnoc(xs: seq<Stat>, x: Stat, name: string)
    ensures OfMetric(xs + [x], name) == OfMetric(xs, name) + (if x.metric == name then [x] else [])
  {
    assert (xs + [x])[..|xs + [x]| - 1] == xs;
  }

  /** One more stat reaches the window of the metric it names, and no other. */
  lemma WindowSnoc(w: seq<Stat>, xs: seq<Stat>, x: Stat, name: string, now: real)
    ensures AdmitAll(w, OfMetric(xs + [x], name), now)
      == if x.metric == name then Admit(AdmitAll(w, OfMetric(xs, name), now), x, now) else AdmitAll(w, OfMetric(xs, name), now)
  {
    var ys := OfMetric(xs, name);
    OfMetricSnoc(xs, x, name);
    if x.metric == name {
      var zs := ys + [x];
      assert zs[..|zs| - 1] == ys && zs[|zs| - 1] == x;
      AdmitAllSnoc(w, ys, x, now);
    } else {
      assert OfMetric(xs + [x], name) == ys;
    }
  }

  /** One more stat extends the baseline of the metric it names, and no other. */
  lemma BaselineSnoc(b: seq<Point>, xs: seq<Stat>, x: Stat, name: string, render: seq<Stat>)
    ensures ExtendBaseline(b, OfMetric(xs + [x], name), render)
      == if x.metric == name then NextBaseline(ExtendBaseline(b, OfMetric(xs, name), render), x, render) else ExtendBaseline(b, OfMetric(xs, name), render)
  {
    var ys := OfMetric(xs, name);
    OfMetricSnoc(xs, x, name);
    if x.metric == name {
      var zs := ys + [x];
      assert zs[..|zs| - 1] == ys && zs[|zs| - 1] == x;
      ExtendBaselineSnoc(b, ys, x, render);
    } else {
      assert OfMetric(xs + [x], name) == ys;
    }
  }

  /** Admitting one more stat changes only the window of its own metric, if it has one. */
  lemma WindowsSnoc(w: PerMetric<seq<Stat>>, xs: seq<Stat>, x: Stat, now: real)
    ensures var w' := AdmitBatch(w, xs, now);
      match MetricOf(x.metric)
      case Some(m) => AdmitBatch(w, xs + [x], now) == w'.Set(m, Admit(w'.Get(m), x, now))
      case None => AdmitBatch(w, xs + [x], now) == w'
  {
    NamesDistinct();
    var w', w'' := AdmitBatch(w, xs, now), AdmitBatch(w, xs + [x], now);
    WindowSnoc(w.icmp, xs, x, IcmpMetric, now);
    WindowSnoc(w.ssh, xs, x, SshMetric, now);
    WindowSnoc(w.arp, xs, x, ArpMetric, now);
    WindowSnoc(w.portscan, xs, x, PortscanMetric, now);
    var next := Admit(w'.Get(MetricOf(x.metric).GetOr(Icmp)), x, now);
    match MetricOf(x.metric) {
      case Some(Icmp) => assert w'' == w'.(icmp := next);
      case Some(Ssh) => assert w'' == w'.(ssh := next);
      case Some(Arp) => assert w'' == w'.(arp := next);
      case Some(Portscan) => assert w'' == w'.(portscan := next);
      case None => assert w'' == w';
    }
  }

  /** Admitting one more stat extends only the baseline of its own metric, if it has one. */
  lemma BaselinesSnoc(b: PerMetric<seq<Point>>, xs: seq<Stat>, x: Stat, render: PerMetric<seq<Stat>>)
    ensures var b' := ExtendBaselines(b, xs, render);
      match MetricOf(x.metric)
      case Some(m) => ExtendBaselines(b, xs + [x], render) == b'.Set(m, NextBaseline(b'.Get(m), x, render.Get(m)))
      case None => ExtendBaselines(b, xs + [x], render) == b'
  {
    NamesDistinct();
    var b', b'' := ExtendBaselines(b, xs, render), ExtendBaselines(b, xs + [x], render);
    BaselineSnoc(b.icmp, xs, x, IcmpMetric, render.icmp);
    BaselineSnoc(b.ssh, xs, x, SshMetric, render.ssh);
    BaselineSnoc(b.arp, xs, x, ArpMetric, render.arp);
    BaselineSnoc(b.portscan, xs, x, PortscanMetric, render.portscan);
    var m := MetricOf(x.metric).GetOr(Icmp);
    var next := NextBaseline(b'.Get(m), x, render.Get(m));
    match MetricOf(x.metric) {
      case Some(Icmp) => assert b'' == b'.(icmp := next);
      case Some(Ssh) => assert b'' == b'.(ssh := next);
      case Some(Arp) => assert b'' == b'.(arp := next);
      case Some(Portscan) => assert b'' == b'.(portscan := next);
      case None => assert b'' == b';
    }
  }

  /** An empty batch changes nothing. */
  lemma BatchEmpty(w: PerMetric<seq<Stat>>, b: PerMetric<seq<Point>>, render: PerMetric<seq<Stat>>, now: real)
    ensures AdmitBatch(w, [], now) == w && ExtendBaselines(b, [], render) == b
  {
  }

  /** The state `push_stat` leaves behind, one stat further into a batch, is the batch function one stat further. */
  lemma PushStep(w0: PerMetric<seq<Stat>>, b0: PerMetric<seq<Point>>, xs: seq<Stat>, x: Stat, render: PerMetric<seq<Stat>>, now: real,
                 w1: PerMetric<seq<Stat>>, b1: PerMetric<seq<Point>>, w2: PerMetric<seq<Stat>>, b2: PerMetric<seq<Point>>)
    requires w1 == AdmitBatch(w0, xs, now) && b1 == ExtendBaselines(b0, xs, render)
    requires MetricOf(x.metric).Some? ==>
      var m := MetricOf(x.metric).value;
      w2 == w1.Set(m, Admit(w1.Get(m), x, now)) && b2 == b1.Set(m, NextBaseline(b1.Get(m), x, render.Get(m)))
    requires MetricOf(x.metric).None? ==> w2 == w1 && b2 == b1
    ensures w2 == AdmitBatch(w0, xs + [x], now) && b2 == ExtendBaselines(b0, xs + [x], render)
  {
    WindowsSnoc(w0, xs, x, now);
    BaselinesSnoc(b0, xs, x, render);
  }

  lemma SeriesAppend(w: seq<Stat>, b: seq<Point>, xs: seq<Stat>, ys: seq<Stat>, name: string, render: seq<Stat>, now: real)
    ensures AdmitAll(AdmitAll(w, OfMetric(xs, name), now), OfMetric(ys, name), now) == AdmitAll(w, OfMetric(xs + ys, name), now)
    ensures ExtendBaseline(ExtendBaseline(b, OfMetric(xs, name), render), OfMetric(ys, name), render) == ExtendBaseline(b, OfMetric(xs + ys, name), render)
  {
    FilterAppend(xs, ys, (s: Stat) => s.metric == name);
    AdmitAllAppend(w, OfMetric(xs, name), OfMetric(ys, name), now);
    ExtendBaselineAppend(b, OfMetric(xs, name), OfMetric(ys, name), render);
  }

  /** Two batches in a row act as their concatenation. */
  lemma BatchAppend(w: PerMetric<seq<Stat>>, b: PerMetric<seq<Point>>, xs: seq<Stat>, ys: seq<Stat>, render: PerMetric<seq<Stat>>, now: real)
    ensures AdmitBatch(AdmitBatch(w, xs, now), ys, now) == AdmitBatch(w, xs + ys, now)
    ensures ExtendBaselines(ExtendBaselines(b, xs, render), ys, render) == ExtendBaselines(b, xs + ys, render)
  {
    SeriesAppend(w.icmp, b.icmp, xs, ys, IcmpMetric, render.icmp, now);
    SeriesAppend(w.ssh, b.ssh, xs, ys, SshMetric, render.ssh, now);
    SeriesAppend(w.arp, b.arp, xs, ys, ArpMetric, render.arp, now);
    SeriesAppend(w.portscan, b.portscan, xs, ys, PortscanMetric, render.portscan, now);
  }

  class App {
    var alerts: seq<Alert>
    var icmpStats: seq<Stat>
    var icmpBaseline: seq<Point>
    var sshStats: seq<Stat>
    var sshBaseline: seq<Point>
    var arpStats: seq<Stat>
    var arpBaseline: seq<Point>
    var portscanStats: seq<Stat>
    var portscanBaseline: seq<Point>
    var status: Status
    var lastChecked: Option<real>

    /** The baseline series never hold more than 600 points. */
    ghost predicate Valid()
      reads this
    {
      && |icmpBaseline| <= MaxSamples && |sshBaseline| <= MaxSamples
      && |arpBaseline| <= MaxSamples && |portscanBaseline| <= MaxSamples
    }

    function Windows(): PerMetric<seq<Stat>>
      reads this
    {
      PerMetric(icmpStats, sshStats, arpStats, portscanStats)
    }

    function Baselines(): PerMetric<seq<Point>>
      reads this
    {
      PerMetric(icmpBaseline, sshBaseline, arpBaseline, portscanBaseline)
    }

    constructor ()
      ensures Valid()
      ensures alerts == [] && status == Active && lastChecked == None
      ensures forall m :: Windows().Get(m) == [] && Baselines().Get(m) == []
    {
      alerts := [];
      icmpStats, sshStats, arpStats, portscanStats := [], [], [], [];
      icmpBaseline, sshBaseline, arpBaseline, portscanBaseline := [], [], [], [];
      status := Active;
      lastChecked := None;
    }

    method SetWindow(m: Metric, w: seq<Stat>)
      modifies this
      ensures Windows() == old(Windows()).Set(m, w)
      ensures Baselines() == old(Baselines())
      ensures alerts == old(alerts) && status == old(status) && lastChecked == old(lastChecked)
    {
      match m
      case Icmp => icmpStats := w;
      case Ssh => sshStats := w;
      case Arp => arpStats := w;
      case Portscan => portscanStats := w;
    }

    method SetBaseline(m: Metric, b: seq<Point>)
      modifies this
      ensures Baselines() == old(Baselines()).Set(m, b)
      ensures Windows() == old(Windows())
      ensures alerts == old(alerts) && status == old(status) && lastChecked == old(lastChecked)
    {
      match m
      case Icmp => icmpBaseline := b;
      case Ssh => sshBaseline := b;
      case Arp => arpBaseline := b;
      case Portscan => portscanBaseline := b;
    }

    /** `push_alert`: head-only duplicate suppression, prepend, keep 200. */
    method PushAlert(a: Alert)
      requires Valid()
      modifies this
      ensures Valid()
      ensures alerts == Push(old(alerts), a)
      ensures Windows() == old(Windows()) && Baselines() == old(Baselines())
      ensures status == old(status) && lastChecked == old(lastChecked)
    {
      alerts := Push(alerts, a);
    }

    /**
     * `push_stat` at wall-clock time `now`, its closures having captured the
     * windows `render`: the stat's own window admits it, its baseline gains
     * one point, and the last-update time is set even for an unknown metric.
     */
    method PushStat(s: Stat, render: PerMetric<seq<Stat>>, now: real)
      requires Valid()
      modifies this
      ensures Valid()
      ensures MetricOf(s.metric).Some? ==>
        var m := MetricOf(s.metric).value;
        && Windows() == old(Windows()).Set(m, Admit(old(Windows()).Get(m), s, now))
        && Baselines() == old(Baselines()).Set(m, NextBaseline(old(Baselines()).Get(m), s, render.Get(m)))
      ensures MetricOf(s.metric).None? ==> Windows() == old(Windows()) && Baselines() == old(Baselines())
      ensures lastChecked == Some(now)
      ensures alerts == old(alerts) && status == old(status)
    {
      match MetricOf(s.metric) {
        case Some(m) =>
          NextBaselineSpec(Baselines().Get(m), s, render.Get(m));
          SetWindow(m, Admit(Windows().Get(m), s, now));
          SetBaseline(m, NextBaseline(Baselines().Get(m), s, render.Get(m)));
        case None =>
      }
      lastChecked := Some(now);
    }

    /** `stats.forEach(stat => push_stat(stat))`: every call sees the same captured windows. */
    method PushBatch(batch: seq<Stat>, render: PerMetric<seq<Stat>>, now: real)
      requires Valid()
      modifies this
      ensures Valid()
      ensures Windows() == AdmitBatch(old(Windows()), batch, now)
      ensures Baselines() == ExtendBaselines(old(Baselines()), batch, render)
      ensures lastChecked == if batch == [] then old(lastChecked) else Some(now)
      ensures alerts == old(alerts) && status == old(status)
    {
      ghost var w0, b0 := Windows(), Baselines();
      ghost var done: seq<Stat> := [];
      BatchEmpty(w0, b0, render, now);
      var i := 0;
      while i < |batch|
        invariant 0 <= i <= |batch| && done == batch[..i]
        invariant Valid()
        invariant Windows() == AdmitBatch(w0, done, now)
        invariant Baselines() == ExtendBaselines(b0, done, render)
        invariant lastChecked == if i == 0 then old(lastChecked) else Some(now)
        invariant alerts == old(alerts) && status == old(status)
      {
        ghost var w1, b1 := Windows(), Baselines();
        PushStat(batch[i], render, now);
        PushStep(w0, b0, done, batch[i], render, now, w1, b1, Windows(), Baselines());
        assert batch[..i + 1] == done + [batch[i]];
        done := done + [batch[i]];
        i := i + 1;
      }
      assert done == batch;
    }

    /**
     * The websocket callback. `renderAlerts` and `render` are the ledger and
     * windows the callback closed over; messages of another type, or
     * without their field, change nothing.
     */
    method HandleMessage(msg: Message, renderAlerts: seq<Alert>, render: PerMetric<seq<Stat>>, now: real)
      requires Valid()
      modifies this
      ensures Valid()
      ensures old(status) == Alerting ==> status == Alerting
      ensures msg.AlertMessage? && msg.payload.Some? ==>
        && alerts == Push(old(alerts), msg.payload.value) && status == Alerting
        && Windows() == old(Windows()) && Baselines() == old(Baselines()) && lastChecked == old(lastChecked)
      ensures msg.StatMessage? && msg.stat.Some? ==>
        && Windows() == AdmitBatch(old(Windows()), [msg.stat.value], now)
        && Baselines() == ExtendBaselines(old(Baselines()), [msg.stat.value], render)
        && lastChecked == Some(now) && alerts == old(alerts) && status == old(status)
      ensures msg.InitMessage? && msg.alerts.Some? ==>
        && alerts == MergeInit(msg.alerts.value, renderAlerts)
        && status == (if |msg.alerts.value| > 0 then Alerting else old(status))
        && Windows() == old(Windows()) && Baselines() == old(Baselines()) && lastChecked == old(lastChecked)
      ensures msg.InitStatsMessage? && msg.stats.Some? ==>
        && (forall m :: Windows().Get(m) == OfMetric(msg.stats.value, Name(m)))
        && Baselines() == old(Baselines())
        && alerts == old(alerts) && status == old(status) && lastChecked == old(lastChecked)
      ensures (|| msg.OtherMessage? || (msg.AlertMessage? && msg.payload.None?) || (msg.StatMessage? && msg.stat.None?)
               || (msg.InitMessage? && msg.alerts.None?) || (msg.InitStatsMessage? && msg.stats.None?)) ==>
        && alerts == old(alerts) && Windows() == old(Windows()) && Baselines() == old(Baselines())
        && status == old(status) && lastChecked == old(lastChecked)
    {
      match msg {
        case AlertMessage(Some(a)) =>
          PushAlert(a);
          status := Alerting;
        case StatMessage(Some(s)) =>
          PushBatch([s], render, now);
        case InitMessage(Some(batch)) =>
          alerts := MergeInit(batch, renderAlerts);
          if |batch| > 0 {
            status := Alerting;
          }
        case InitStatsMessage(Some(stats)) =>
          icmpStats := OfMetric(stats, IcmpMetric);
          sshStats := OfMetric(stats, SshMetric);
          arpStats := OfMetric(stats, ArpMetric);
          portscanStats := OfMetric(stats, PortscanMetric);
        case _ =>
      }
    }

    method ApplyPull(p: Pull, render: PerMetric<seq<Stat>>, now: real)
      requires Valid() && !p.Throws?
      modifies this
      ensures Valid()
      ensures Windows() == AdmitBatch(old(Windows()), Got(p), now)
      ensures Baselines() == ExtendBaselines(old(Baselines()), Got(p), render)
      ensures lastChecked == if Got(p) == [] then old(lastChecked) else Some(now)
      ensures alerts == old(alerts) && status == old(status)
    {
      if p.Batch? {
        PushBatch(p.stats, render, now);
      } else {
        assert Got(p) == [];
        ghost var w, b := Windows(), Baselines();
        assert AdmitBatch(w, [], now) == w;
        assert ExtendBaselines(b, [], render) == b;
      }
    }

    /** One pull of a tick, on top of the stats the tick has already pushed since it began from `w0`, `b0`. */
    method Accumulate(p: Pull, ghost w0: PerMetric<seq<Stat>>, ghost b0: PerMetric<seq<Point>>, ghost pushed: seq<Stat>,
                      render: PerMetric<seq<Stat>>, now: real)
      requires Valid() && !p.Throws? && (p.Batch? ==> p.stats != [])
      requires Windows() == AdmitBatch(w0, pushed, now) && Baselines() == ExtendBaselines(b0, pushed, render)
      modifies this
      ensures Valid()
      ensures Windows() == AdmitBatch(w0, pushed + Got(p), now) && Baselines() == ExtendBaselines(b0, pushed + Got(p), render)
      ensures lastChecked == if p.Batch? then Some(now) else old(lastChecked)
      ensures alerts == old(alerts) && status == old(status)
    {
      ApplyPull(p, render, now);
      BatchAppend(w0, b0, pushed, Got(p), render, now);
    }

    /** The body of the refresh tick once the four pulls are known; reports whether it threw and whether a batch arrived. */
    method PushPulls(p1: Pull, p2: Pull, p3: Pull, p4: Pull, render: PerMetric<seq<Stat>>, now: real) returns (threw: bool, hasNewData: bool)
      requires Valid()
      requires p1.Batch? ==> p1.stats != []
      requires p2.Batch? ==> p2.stats != []
      requires p3.Batch? ==> p3.stats != []
      requires p4.Batch? ==> p4.stats != []
      modifies this
      ensures Valid()
      ensures Windows() == AdmitBatch(old(Windows()), Chain(p1, p2, p3, p4).pushed, now)
      ensures Baselines() == ExtendBaselines(old(Baselines()), Chain(p1, p2, p3, p4).pushed, render)
      ensures threw == Chain(p1, p2, p3, p4).threw
      ensures hasNewData == (|| p1.Batch?
                             || (!p1.Throws? && p2.Batch?)
                             || (!p1.Throws? && !p2.Throws? && p3.Batch?)
                             || (!p1.Throws? && !p2.Throws? && !p3.Throws? && p4.Batch?))
      ensures lastChecked == if hasNewData then Some(now) else old(lastChecked)
      ensures alerts == old(alerts) && status == old(status)
    {
      ghost var w0, b0 := Windows(), Baselines();
      BatchEmpty(w0, b0, render, now);
      threw, hasNewData := true, false;
      if p1.Throws? {
        return;
      }
      Accumulate(p1, w0, b0, [], render, now);
      assert [] + Got(p1) == Got(p1);
      hasNewData := p1.Batch?;
      if p2.Throws? {
        return;
      }
      Accumulate(p2, w0, b0, Got(p1), render, now);
      hasNewData := hasNewData || p2.Batch?;
      if p3.Throws? {
        return;
      }
      Accumulate(p3, w0, b0, Got(p1) + Got(p2), render, now);
      hasNewData := hasNewData || p3.Batch?;
      if p4.Throws? {
        return;
      }
      Accumulate(p4, w0, b0, Got(p1) + Got(p2) + Got(p3), render, now);
      hasNewData := hasNewData || p4.Batch?;
      threw := false;
    }

    /**
     * The 5-second refresh tick `fetchStats`, run at time `now` with the four
     * endpoint responses as inputs. The pushed stats are those `RunTick`
     * lists; the last-update time is set when a batch arrived or when the
     * value captured at render time was still empty, unless the tick threw.
     */
    method FetchStats(icmp: Response, ssh: Response, arp: Response, portscan: Response, render: PerMetric<seq<Stat>>, now: real)
      requires Valid()
      modifies this
      ensures Valid()
      ensures Windows() == AdmitBatch(old(Windows()), RunTick(icmp, ssh, arp, portscan).pushed, now)
      ensures Baselines() == ExtendBaselines(old(Baselines()), RunTick(icmp, ssh, arp, portscan).pushed, render)
      ensures var t := RunTick(icmp, ssh, arp, portscan);
        lastChecked == (if |t.pushed| > 0 || (!t.threw && old(lastChecked).None?) then Some(now) else old(lastChecked))
      ensures alerts == old(alerts) && status == old(status)
    {
      var renderChecked := lastChecked;
      var p1, p2, p3, p4 := PullUnchecked(icmp), PullChecked(ssh), PullChecked(arp), PullChecked(portscan);
      ChainPushedSomething(p1, p2, p3, p4);
      var threw, hasNewData := PushPulls(p1, p2, p3, p4, render, now);
      if !threw && (hasNewData || renderChecked.None?) {
        lastChecked := Some(now);
      }
    }

    /**
     * The mount-time load: the ledger becomes the fetched alerts and the ICMP
     * window the fetched stats; a failed fetch or a missing field yields `[]`.
     */
    method InitialLoad(fetchedAlerts: Option<seq<Alert>>, fetchedIcmp: Option<seq<Stat>>)
      requires Valid()
      modifies this
      ensures Valid()
      ensures alerts == fetchedAlerts.GetOr([])
      ensures Windows() == old(Windows()).Set(Icmp, fetchedIcmp.GetOr([]))
      ensures Baselines() == old(Baselines())
      ensures status == old(status) && lastChecked == old(lastChecked)
    {
      alerts := fetchedAlerts.GetOr([]);
      icmpStats := fetchedIcmp.GetOr([]);
    }
  }
}
