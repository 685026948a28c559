/**
 * The timestamp deques the detectors keep per source address, and the two
 * ways they forget old entries: popping the stale prefix from the left,
 * and rebuilding the list from its recent entries.
 */
module SlidingWindow {
  import opened Seqs

  /** A timestamp older than `window` seconds at time `now`. */
  predicate Stale(t: real, window: real, now: real)
  {
    now - t > window
  }

  /** `while dq and now - dq[0] > window: dq.popleft()`: drop stale entries from the front until a recent one is met. */
  function DropStale(dq: seq<real>, window: real, now: real): seq<real>
  {
    if dq != [] && Stale(dq[0], window, now) then DropStale(dq[1..], window, now) else dq
  }

  /** The popping loop keeps a suffix of the deque whose front is recent, and every entry it dropped was stale. */
  lemma {:induction false} DropStaleSpec(dq: seq<real>, window: real, now: real)
    ensures var r := DropStale(dq, window, now);
      && |r| <= |dq| && r == dq[|dq| - |r|..]
      && (r == [] || !Stale(r[0], window, now))
      && forall i :: 0 <= i < |dq| - |r| ==> Stale(dq[i], window, now)
  {
    if dq != [] && Stale(dq[0], window, now) {
      DropStaleSpec(dq[1..], window, now);
      var r := DropStale(dq, window, now);
      forall i | 0 <= i < |dq| - |r| ensures Stale(dq[i], window, now) {
        if i > 0 {
          assert dq[i] == dq[1..][i - 1];
        }
      }
    }
  }

  /** One pass of the popping loop: a stale front goes, and the loop stops at a recent front. */
  lemma DropStaleStep(dq: seq<real>, window: real, now: real)
    ensures dq != [] && Stale(dq[0], window, now) ==> DropStale(dq, window, now) == DropStale(dq[1..], window, now)
    ensures dq == [] || !Stale(dq[0], window, now) ==> DropStale(dq, window, now) == dq
  {
  }

  /** The test a rebuilt list applies to each entry: `(now - t) <= window`. */
  function RecentAt(window: real, now: real): real -> bool
  {
    (t: real) => now - t <= window
  }

  predicate Sorted(s: seq<real>)
  {
    forall i, j :: 0 <= i < j < |s| ==> s[i] <= s[j]
  }

  /** Every entry is at most `window` seconds old. */
  predicate AllRecent(s: seq<real>, window: real, now: real)
  {
    forall i :: 0 <= i < |s| ==> now - s[i] <= window
  }

  /** In a deque whose timestamps arrived in order, dropping the stale front leaves only recent entries, still in order. */
  lemma DropStaleOfSorted(dq: seq<real>, window: real, now: real)
    requires Sorted(dq)
    ensures Sorted(DropStale(dq, window, now))
    ensures AllRecent(DropStale(dq, window, now), window, now)
  {
    var r := DropStale(dq, window, now);
    DropStaleSpec(dq, window, now);
    forall i | 0 <= i < |r| ensures now - r[i] <= window {
      assert r[0] <= r[i];
    }
  }

  /** On an unordered deque the front-popping loop can keep a stale entry behind a recent one. */
  lemma DropStaleNeedsOrder()
    ensures DropStale([5.0, 0.0], 10.0, 12.0) == [5.0, 0.0]
    ensures !AllRecent(DropStale([5.0, 0.0], 10.0, 12.0), 10.0, 12.0)
  {
    assert !Stale(5.0, 10.0, 12.0);
    var r := DropStale([5.0, 0.0], 10.0, 12.0);
    assert r[1] == 0.0 && 12.0 - r[1] > 10.0;
  }

  /** Appending the current time to an ordered deque of earlier timestamps keeps it ordered. */
  lemma AppendNowKeepsSorted(dq: seq<real>, now: real)
    requires Sorted(dq)
    requires forall i :: 0 <= i < |dq| ==> dq[i] <= now
    ensures Sorted(dq + [now])
  {
  }

  /** Rebuilding from recent entries keeps exactly the recent ones, in their order, whether or not the list was ordered. */
  lemma {:induction false} RecentFilter(s: seq<real>, window: real, now: real)
    ensures AllRecent(Filter(s, RecentAt(window, now)), window, now)
    ensures IsSubsequence(Filter(s, RecentAt(window, now)), s)
    ensures forall t :: t in s && now - t <= window ==> t in Filter(s, RecentAt(window, now))
  {
    FilterAllKept(s, RecentAt(window, now));
    FilterIsSubsequence(s, RecentAt(window, now));
    forall t | t in s && now - t <= window ensures t in Filter(s, RecentAt(window, now)) {
      FilterMembership(s, RecentAt(window, now), t);
    }
  }
}
