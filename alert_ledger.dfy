/**
 * The dashboard's alert list: newest first, at most 200 entries, with
 * duplicate suppression that looks only at the head, the `init` merge that
 * puts the server's batch in front, and the "high priority" count shown in
 * the status bar.
 */
module AlertLedger {
  import opened Wrappers
  import opened Seqs

  /** An alert as the dashboard receives it; `id` and `message` may be absent. */
  datatype Alert = Alert(
    id: Option<string>,
    detector: string,
    timestamp: real,
    message: Option<string>,
    src: Option<string>,
    count: Option<int>)

  const MaxAlerts: nat := 200

  /**
   * `push_alert`'s updater: keep the ledger when its head has the same id
   * (two absent ids compare equal), otherwise prepend and keep the first 200.
   */
  function Push(ledger: seq<Alert>, a: Alert): (r: seq<Alert>)
    ensures |ledger| > 0 && ledger[0].id == a.id ==> r == ledger
    ensures !(|ledger| > 0 && ledger[0].id == a.id) ==>
      && |r| == (if |ledger| < MaxAlerts then |ledger| + 1 else MaxAlerts)
      && r[0] == a
      && r[1..] == ledger[..|r| - 1]
  {
    if |ledger| > 0 && ledger[0].id == a.id then ledger
    else FirstN([a] + ledger, MaxAlerts)
  }

  /** The ledger never grows past 200 through `push_alert` once it is within 200. */
  lemma PushStaysBounded(ledger: seq<Alert>, a: Alert)
    requires |ledger| <= MaxAlerts
    ensures |Push(ledger, a)| <= MaxAlerts
  {
  }

  /** Delivering the same alert twice in a row leaves the ledger as the first delivery did. */
  lemma PushTwiceIsPushOnce(ledger: seq<Alert>, a: Alert)
    ensures Push(Push(ledger, a), a) == Push(ledger, a)
  {
  }

  /** Suppression looks at the head only: an alert already present further down is added again. */
  lemma DuplicateBelowHeadIsReadmitted(a: Alert, b: Alert)
    requires a.id.Some? && b.id != a.id
    ensures Push([b, a], a) == [a, b, a]
  {
  }

  /**
   * With no `id` on either alert, the second push compares absent with absent
   * and is dropped: id-less alerts after the first are never shown while it
   * is the head.
   */
  lemma IdlessAlertSuppressed(ledger: seq<Alert>, a: Alert, b: Alert)
    requires a.id.None? && b.id.None?
    ensures Push(Push(ledger, a), b) == Push(ledger, a)
  {
  }

  /** The `init` branch: the server's batch first, then the captured ledger, cut to 200; no deduplication. */
  function MergeInit(batch: seq<Alert>, current: seq<Alert>): (r: seq<Alert>)
    ensures |r| == if |batch| + |current| < MaxAlerts then |batch| + |current| else MaxAlerts
    ensures |batch| <= MaxAlerts ==> r[..|batch|] == batch
    ensures |batch| <= MaxAlerts ==> r[|batch|..] == current[..|r| - |batch|]
    ensures |batch| > MaxAlerts ==> r == batch[..MaxAlerts]
  {
    var r := FirstN(batch + current, MaxAlerts);
    assert |batch| <= MaxAlerts ==> r[..|batch|] == batch && r[|batch|..] == current[..|r| - |batch|];
    assert |batch| > MaxAlerts ==> r == batch[..MaxAlerts];
    r
  }

  /** An `init` after a push puts the same alert in the ledger twice. */
  lemma InitAfterPushDuplicates(a: Alert)
    ensures MergeInit([a], Push([], a)) == [a, a]
  {
  }

  /** A push after an `init` carrying the same alert is suppressed at the head. */
  lemma PushAfterInitIsSuppressed(a: Alert)
    ensures Push(MergeInit([a], []), a) == [a]
  {
  }

  predicate IsDigit(c: char)
  {
    '0' <= c <= '9'
  }

  /** Index of the first decimal digit in `s`, the start of `/(\d+)/`'s match. */
  function FirstDigitIndex(s: string): (r: Option<nat>)
    ensures r.None? <==> forall i :: 0 <= i < |s| ==> !IsDigit(s[i])
    ensures r.Some? ==> r.value < |s| && IsDigit(s[r.value]) && forall i :: 0 <= i < r.value ==> !IsDigit(s[i])
  {
    if s == [] then None
    else if IsDigit(s[0]) then Some(0)
    else match FirstDigitIndex(s[1..])
      case None => None
      case Some(k) => Some(k + 1)
  }

  /** The longest prefix of `s` made of digits (the greedy `\d+`). */
  function DigitPrefix(s: string): (r: string)
    ensures |r| <= |s| && r == s[..|r|]
    ensures forall i :: 0 <= i < |r| ==> IsDigit(r[i])
    ensures |r| == |s| || !IsDigit(s[|r|])
  {
    if s != [] && IsDigit(s[0]) then [s[0]] + DigitPrefix(s[1..]) else []
  }

  /** The first maximal run of digits in a message, or `None` when it has none. */
  function FirstDigitRun(s: string): Option<string>
  {
    match FirstDigitIndex(s)
    case None => None
    case Some(k) => Some(DigitPrefix(s[k..]))
  }

  /**
   * A message that splits into a digit-free prefix, a run of digits and a
   * rest that does not start with a digit has that run as its first number.
   */
  lemma {:induction false} FirstDigitRunOfSplit(pre: string, digits: string, rest: string)
    requires forall i :: 0 <= i < |pre| ==> !IsDigit(pre[i])
    requires digits != [] && forall i :: 0 <= i < |digits| ==> IsDigit(digits[i])
    requires rest == [] || !IsDigit(rest[0])
    ensures FirstDigitRun(pre + digits + rest) == Some(digits)
  {
    var s := pre + digits + rest;
    FirstDigitIndexAfter(s, |pre|);
    assert s[|pre|..] == digits + rest;
    DigitPrefixOfRun(digits, rest);
  }

  lemma {:induction false} FirstDigitIndexAfter(s: string, k: nat)
    requires k < |s| && IsDigit(s[k])
    requires forall i :: 0 <= i < k ==> !IsDigit(s[i])
    ensures FirstDigitIndex(s) == Some(k)
  {
    if k > 0 {
      FirstDigitIndexAfter(s[1..], k - 1);
    }
  }

  lemma {:induction false} DigitPrefixOfRun(digits: string, rest: string)
    requires forall i :: 0 <= i < |digits| ==> IsDigit(digits[i])
    requires rest == [] || !IsDigit(rest[0])
    ensures DigitPrefix(digits + rest) == digits
  {
    if digits != [] {
      assert (digits + rest)[1..] == digits[1..] + rest;
      DigitPrefixOfRun(digits[1..], rest);
    } else {
      assert digits + rest == rest;
    }
  }

  /** `parseInt` of a run of decimal digits. */
  function DecimalValue(digits: string): nat
  {
    if digits == [] then 0
    else 10 * DecimalValue(digits[..|digits| - 1]) + DigitValue(digits[|digits| - 1])
  }

  function DigitValue(c: char): nat
  {
    if IsDigit(c) then (c as int - '0' as int) else 0
  }

  /** An alert counts as high priority when the first number in its message exceeds 50. */
  predicate IsHighPriority(a: Alert)
  {
    && a.message.Some?
    && FirstDigitRun(a.message.value).Some?
    && DecimalValue(FirstDigitRun(a.message.value).value) > 50
  }

  /** `highPriorityCount`: how many alerts of the ledger are high priority. */
  function HighPriorityCount(alerts: seq<Alert>): (r: nat)
    ensures r <= |alerts|
  {
    |Filter(alerts, IsHighPriority)|
  }

  /** An alert counts exactly when it is high priority and present: the count is that of the filtered ledger. */
  lemma HighPriorityMembers(alerts: seq<Alert>, a: Alert)
    ensures a in Filter(alerts, IsHighPriority) <==> a in alerts && IsHighPriority(a)
  {
    FilterMembership(alerts, IsHighPriority, a);
  }

  /**
   * The first number of a detector message is the first octet of the source
   * address, not the packet count: a flood of 500 packets from 10.0.0.1 is
   * not high priority, three packets from 192.168.1.5 are.
   */
  lemma HighPriorityReadsAddressOctet(a: Alert, b: Alert)
    requires a.message == Some("ICMP flood detected from " + "10" + ".0.0.1: 500 packets in 10sec")
    requires b.message == Some("ICMP flood detected from " + "192" + ".168.1.5: 3 packets in 10sec")
    ensures !IsHighPriority(a) && IsHighPriority(b)
  {
    var pre := "ICMP flood detected from ";
    assert forall i :: 0 <= i < |pre| ==> !IsDigit(pre[i]);
    FirstDigitRunOfSplit(pre, "10", ".0.0.1: 500 packets in 10sec");
    FirstDigitRunOfSplit(pre, "192", ".168.1.5: 3 packets in 10sec");
    assert DecimalValue("10") == 10 by { assert "10"[..1] == "1"; assert "1"[..0] == ""; }
    assert DecimalValue("192") == 192 by { assert "192"[..2] == "19"; assert "19"[..1] == "1"; assert "1"[..0] == ""; }
  }
}
