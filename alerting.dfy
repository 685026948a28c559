/**
 * The backend's in-memory alert and stat history and its set of open
 * websocket connections. Each history is a deque with a `maxlen`: an
 * append to a full deque drops the oldest entry. Alerts are kept as
 * opaque values of type `A`; connections are values of type `W`.
 */
module Alerting {
  import opened Seqs
  import opened Telemetry

  const DefaultMaxAlerts: nat := 1000
  const DefaultMaxStats: nat := 600

  /**
   * `list(recent)[-limit:]`. A positive limit yields the newest `limit`
   * entries (all of them if there are fewer), oldest first; `[-0:]` is the
   * whole list; a negative limit `-k` becomes `[k:]`, everything but the
   * oldest `k` entries.
   */
  function LastEntries<A>(recent: seq<A>, limit: int): (r: seq<A>)
    ensures limit > 0 ==> r == LastN(recent, limit)
    ensures limit == 0 ==> r == recent
    ensures limit < 0 ==> r == if -limit < |recent| then recent[-limit..] else []
  {
    PySliceFrom(recent, -limit)
  }

  /** The stat filter of `get_stats`: that metric, timestamp at or after the cutoff. */
  function StatWanted(metric: string, cutoff: real): Stat -> bool
  {
    (s: Stat) => s.metric == metric && s.timestamp >= cutoff
  }

  /** `get_stats(metric, since)` at wall-clock time `now`. */
  function StatsSince(recent: seq<Stat>, metric: string, since: real, now: real): seq<Stat>
  {
    Filter(recent, StatWanted(metric, now - since))
  }

  /** `get_stats` returns exactly the stored stats of that metric at or after `now - since`, in stored order. */
  lemma StatsSinceExact(recent: seq<Stat>, metric: string, since: real, now: real)
    ensures forall s :: s in StatsSince(recent, metric, since, now) <==>
      s in recent && s.metric == metric && s.timestamp >= now - since
    ensures IsSubsequence(StatsSince(recent, metric, since, now), recent)
  {
    forall s ensures s in StatsSince(recent, metric, since, now) <==> s in recent && s.metric == metric && s.timestamp >= now - since {
      FilterMembership(recent, StatWanted(metric, now - since), s);
    }
    FilterIsSubsequence(recent, StatWanted(metric, now - since));
  }

  /** Appending to a full deque drops its oldest entry; below capacity nothing is dropped. */
  lemma BoundedAppend<T>(q: seq<T>, x: T, maxlen: nat)
    requires |q| <= maxlen
    ensures |q| < maxlen ==> LastN(q + [x], maxlen) == q + [x]
    ensures |q| == maxlen > 0 ==> LastN(q + [x], maxlen) == q[1..] + [x]
  {
    if |q| == maxlen > 0 {
      assert (q + [x])[1..] == q[1..] + [x];
    }
  }

  class AlertBroadcaster<A, W(==)> {
    const maxAlerts: nat
    const maxStats: nat
    var recentAlerts: seq<A>
    var recentStats: seq<Stat>
    var connections: set<W>

    /** Neither history is longer than its `maxlen`. */
    ghost predicate Valid()
      reads this
    {
      |recentAlerts| <= maxAlerts && |recentStats| <= maxStats
    }

    /** Without arguments the histories hold 1000 alerts and 600 stats, as the module's `broadcaster` instance does. */
    constructor (maxAlertsStore: nat := DefaultMaxAlerts, maxStatsStored: nat := DefaultMaxStats)
      ensures Valid()
      ensures maxAlerts == maxAlertsStore && maxStats == maxStatsStored
      ensures recentAlerts == [] && recentStats == [] && connections == {}
    {
      maxAlerts, maxStats := maxAlertsStore, maxStatsStored;
      recentAlerts, recentStats, connections := [], [], {};
    }

    method Register(ws: W)
      modifies this
      ensures connections == old(connections) + {ws}
      ensures recentAlerts == old(recentAlerts) && recentStats == old(recentStats)
    {
      connections := connections + {ws};
    }

    /** `discard`: removing a socket that is not registered is no error. */
    method Unregister(ws: W)
      modifies this
      ensures connections == old(connections) - {ws}
      ensures recentAlerts == old(recentAlerts) && recentStats == old(recentStats)
    {
      connections := connections - {ws};
    }

    /** The alert joins the history whether or not a broadcast can be scheduled. */
    method PushAlert(alert: A)
      requires Valid()
      modifies this
      ensures Valid()
      ensures recentAlerts == LastN(old(recentAlerts) + [alert], maxAlerts)
      ensures recentStats == old(recentStats) && connections == old(connections)
    {
      recentAlerts := LastN(recentAlerts + [alert], maxAlerts);
    }

    method PushStat(stat: Stat)
      requires Valid()
      modifies this
      ensures Valid()
      ensures recentStats == LastN(old(recentStats) + [stat], maxStats)
      ensures recentAlerts == old(recentAlerts) && connections == old(connections)
    {
      recentStats := LastN(recentStats + [stat], maxStats);
    }

    /** `get_alerts(limit)`, 100 by default: for a positive limit the newest `limit` alerts, oldest first. */
    function GetAlerts(limit: int := 100): (r: seq<A>)
      reads this
      ensures limit > 0 ==> |r| == (if limit < |recentAlerts| then limit else |recentAlerts|)
      ensures limit > 0 ==> r == recentAlerts[|recentAlerts| - |r|..]
    {
      LastEntries(recentAlerts, limit)
    }

    /** `get_stats` with the clock reading `now`: the stored stats of `metric` at or after `now - since`, in stored order. */
    function GetStats(metric: string, since: real, now: real): (r: seq<Stat>)
      reads this
      ensures forall s :: s in r <==> s in recentStats && s.metric == metric && s.timestamp >= now - since
      ensures IsSubsequence(r, recentStats)
    {
      StatsSinceExact(recentStats, metric, since, now);
      StatsSince(recentStats, metric, since, now)
    }
  }

  /** The module-level `broadcaster`: built with no arguments, so with the default capacities. */
  method ModuleBroadcaster<A, W(==)>() returns (b: AlertBroadcaster<A, W>)
    ensures fresh(b) && b.Valid()
    ensures b.maxAlerts == 1000 && b.maxStats == 600
    ensures b.recentAlerts == [] && b.recentStats == [] && b.connections == {}
  {
    b := new AlertBroadcaster();
  }

  /** Registering twice is registering once; unregistering an unknown socket leaves the set as it was. */
  lemma ConnectionsAreASet<W>(conns: set<W>, ws: W)
    ensures conns + {ws} + {ws} == conns + {ws}
    ensures ws !in conns ==> conns - {ws} == conns
  {
  }
}
