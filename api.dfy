/**
 * The HTTP and websocket handlers that touch detector state: the threshold
 * update endpoint, which writes into the shared threshold table, and the
 * greeting a dashboard receives when its websocket opens.
 */
module Api {
  import opened Wrappers
  import opened Seqs
  import opened Telemetry
  import opened Alerting
  import Config

  const UnknownDetector: string := "Unknown detector"

  /** How many recent alerts the `init` message carries. */
  const InitAlertCount: int := 20

  /** How far back, in seconds, the `init_stats` message reaches. */
  const InitStatsSeconds: real := 60.0

  /** The metrics `init_stats` is built from, in order; the port scan metric is not among them. */
  const InitMetrics: seq<string> := [IcmpMetric, SshMetric, ArpMetric]

  /**
   * `set_threshold`: an unknown detector name is an error and changes
   * nothing; a known one gets the new value and the whole table is returned.
   */
  method SetThreshold(t: Config.ThresholdTable, detectorName: string, newValue: int) returns (r: Result<map<string, int>, string>)
    modifies t
    ensures detectorName !in old(t.table) ==> r == Err(UnknownDetector) && t.table == old(t.table)
    ensures detectorName in old(t.table) ==> t.table == old(t.table)[detectorName := newValue] && r == Ok(t.table)
    ensures t.table.Keys == old(t.table).Keys
  {
    if detectorName !in t.table {
      return Err(UnknownDetector);
    }
    t.table := t.table[detectorName := newValue];
    r := Ok(t.table);
  }

  /** The stats of each named metric from the last `since` seconds, metric after metric. */
  function StatsOfMetrics(recent: seq<Stat>, metrics: seq<string>, since: real, now: real): seq<Stat>
  {
    if metrics == [] then []
    else StatsOfMetrics(recent, metrics[..|metrics| - 1], since, now) + StatsSince(recent, metrics[|metrics| - 1], since, now)
  }

  /**
   * A stat is in the combined list exactly when it is stored, its metric is
   * one of those named, and it is at most `since` seconds old.
   */
  lemma {:induction false} StatsOfMetricsMembership(recent: seq<Stat>, metrics: seq<string>, since: real, now: real)
    ensures forall s :: s in StatsOfMetrics(recent, metrics, since, now) <==>
      s in recent && s.metric in metrics && s.timestamp >= now - since
    decreases |metrics|
  {
    if metrics != [] {
      var init, last := metrics[..|metrics| - 1], metrics[|metrics| - 1];
      StatsOfMetricsMembership(recent, init, since, now);
      StatsSinceExact(recent, last, since, now);
      assert metrics == init + [last];
      forall m: string ensures m in metrics <==> m in init || m == last {
      }
    }
  }

  /** `init_stats` is the ICMP stats, then the SSH stats, then the ARP stats, of the last 60 seconds. */
  lemma InitStatsOrder(recent: seq<Stat>, now: real)
    ensures StatsOfMetrics(recent, InitMetrics, InitStatsSeconds, now) ==
      StatsSince(recent, IcmpMetric, 60.0, now) + StatsSince(recent, SshMetric, 60.0, now) + StatsSince(recent, ArpMetric, 60.0, now)
  {
    var two, one := InitMetrics[..2], InitMetrics[..1];
    assert two[..1] == one && one[..0] == [];
    assert StatsOfMetrics(recent, one, 60.0, now) == StatsSince(recent, IcmpMetric, 60.0, now);
    assert StatsOfMetrics(recent, two, 60.0, now) == StatsOfMetrics(recent, one, 60.0, now) + StatsSince(recent, SshMetric, 60.0, now);
    assert StatsOfMetrics(recent, InitMetrics, 60.0, now) == StatsOfMetrics(recent, two, 60.0, now) + StatsSince(recent, ArpMetric, 60.0, now);
  }

  /**
   * `init_stats` holds exactly the stored ICMP, SSH and ARP stats of the
   * last 60 seconds, and never a port scan stat.
   */
  lemma InitStatsContents(recent: seq<Stat>, now: real)
    ensures forall s :: s in StatsOfMetrics(recent, InitMetrics, InitStatsSeconds, now) <==>
      s in recent && s.metric in {IcmpMetric, SshMetric, ArpMetric} && s.timestamp >= now - 60.0
    ensures forall s :: s in StatsOfMetrics(recent, InitMetrics, InitStatsSeconds, now) ==> s.metric != PortscanMetric
  {
    StatsOfMetricsMembership(recent, InitMetrics, InitStatsSeconds, now);
    assert forall m :: m in InitMetrics <==> m in {IcmpMetric, SshMetric, ArpMetric};
  }

  /**
   * `websocket_endpoint` up to its receive loop, at wall-clock time `now`:
   * the socket is registered, then `init` carries the newest 20 alerts and
   * `init_stats` the recent stats of the three metrics. The histories are
   * not changed.
   */
  method OpenWebsocket<A, W(==)>(b: AlertBroadcaster<A, W>, ws: W, now: real) returns (init: seq<A>, initStats: seq<Stat>)
    modifies b
    ensures b.connections == old(b.connections) + {ws}
    ensures b.recentAlerts == old(b.recentAlerts) && b.recentStats == old(b.recentStats)
    ensures init == LastN(b.recentAlerts, 20)
    ensures initStats == StatsOfMetrics(b.recentStats, InitMetrics, InitStatsSeconds, now)
  {
    b.Register(ws);
    init := b.GetAlerts(InitAlertCount);
    var allStats := [];
    for i := 0 to |InitMetrics|
      invariant allStats == StatsOfMetrics(b.recentStats, InitMetrics[..i], InitStatsSeconds, now)
    {
      assert InitMetrics[..i + 1][..i] == InitMetrics[..i];
      allStats := allStats + b.GetStats(InitMetrics[i], InitStatsSeconds, now);
    }
    assert InitMetrics[..|InitMetrics|] == InitMetrics;
    initStats := allStats;
  }

  /** `WebSocketDisconnect`: the socket is unregistered. */
  method CloseWebsocket<A, W(==)>(b: AlertBroadcaster<A, W>, ws: W)
    modifies b
    ensures b.connections == old(b.connections) - {ws}
    ensures b.recentAlerts == old(b.recentAlerts) && b.recentStats == old(b.recentStats)
  {
    b.Unregister(ws);
  }
}
