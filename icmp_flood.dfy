/**
 * The ICMP flood detector: per source address, a deque of the times its
 * ICMP packets arrived. Each packet is appended, the deque loses its stale
 * front, and once it holds `threshold` packets an alert is raised and the
 * deque is emptied.
 */
module IcmpFlood {
  import opened Wrappers
  import opened Packets
  import opened SlidingWindow

  /** The payload handed to the shared alert hook: source, packets in the window, window length. */
  datatype FloodAlert = FloodAlert(src: string, count: nat, windowSeconds: real)

  /** `events[src]` of a `defaultdict(deque)`: a source never seen has an empty deque. */
  function DequeOf(events: map<string, seq<real>>, src: string): seq<real>
  {
    if src in events then events[src] else []
  }

  class IcmpCounterDetector {
    const window: real
    const threshold: int
    var events: map<string, seq<real>>
    /** The payloads passed to the alert hook, oldest first. */
    var raised: seq<FloodAlert>

    /** A deque that reached the threshold was emptied, so none is left at or above it. */
    ghost predicate Valid()
      reads this
    {
      threshold >= 1 ==> forall src :: src in events ==> |events[src]| < threshold
    }

    constructor (windowSeconds: real, thresholdPerWindow: int)
      ensures Valid()
      ensures window == windowSeconds && threshold == thresholdPerWindow
      ensures events == map[] && raised == []
    {
      window, threshold := windowSeconds, thresholdPerWindow;
      events, raised := map[], [];
    }

    /**
     * `analyze_packet` with the clock reading `now`. Packets without an IP
     * or an ICMP layer change nothing; otherwise only the source's deque
     * changes, and an alert carrying the pruned count is raised exactly
     * when that count reaches the threshold.
     */
    method AnalyzePacket(p: Packet, now: real)
      requires Valid()
      modifies this
      ensures Valid()
      ensures p.ip.None? || p.icmp.None? ==> events == old(events) && raised == old(raised)
      ensures p.ip.Some? && p.icmp.Some? ==>
        var src := p.ip.value.src;
        var kept := DropStale(DequeOf(old(events), src) + [now], window, now);
        if |kept| >= threshold then
          events == old(events)[src := []] && raised == old(raised) + [FloodAlert(src, |kept|, window)]
        else
          events == old(events)[src := kept] && raised == old(raised)
    {
      if p.ip.None? || p.icmp.None? {
        return;
      }
      var src := p.ip.value.src;
      var dq := DequeOf(events, src) + [now];
      ghost var appended := dq;
      while dq != [] && now - dq[0] > window
        invariant DropStale(dq, window, now) == DropStale(appended, window, now)
        invariant events == old(events) && raised == old(raised)
        decreases |dq|
      {
        DropStaleStep(dq, window, now);
        dq := dq[1..];
      }
      DropStaleStep(dq, window, now);
      var count := |dq|;
      if count >= threshold {
        raised := raised + [FloodAlert(src, count, window)];
        dq := [];
      }
      events := events[src := dq];
    }
  }

  /**
   * For a deque of past arrival times in order, the pruned deque holds the
   * new packet and only packets at most `window` seconds old, in order; so
   * the count an alert carries is the source's packet count in the window.
   */
  lemma PrunedDequeIsRecent(d: seq<real>, now: real, window: real)
    requires Sorted(d) && forall i :: 0 <= i < |d| ==> d[i] <= now
    requires window >= 0.0
    ensures var kept := DropStale(d + [now], window, now);
      && |kept| >= 1 && kept[|kept| - 1] == now
      && Sorted(kept) && AllRecent(kept, window, now)
      && forall i :: 0 <= i < |d + [now]| - |kept| ==> Stale((d + [now])[i], window, now)
  {
    AppendNowKeepsSorted(d, now);
    DropStaleOfSorted(d + [now], window, now);
    DropStaleSpec(d + [now], window, now);
    var kept := DropStale(d + [now], window, now);
    assert (d + [now])[|d|] == now;
  }
}
