/**
 * The port scan detector. Per source address it keeps fast-window deques of
 * event times, fast "uniqueness" sets of probed (host, port) pairs and
 * hosts, and slow counters that decay by a constant factor on every packet
 * from that source. Five heuristic rules read metrics derived from these;
 * an alert is raised when at least one holds.
 *
 * The per-destination port sets of the source (`dst -> {port}`) are kept
 * flattened as a set of `(dst, port)` pairs: the source's "unique ports"
 * metric, the sum of the per-destination set sizes, is then the number of
 * pairs.
 */
module PortScan {
  import opened Wrappers
  import opened Packets
  import opened SlidingWindow

  /** The detector's settings, as read from the loaded config. */
  datatype ScanConfig = ScanConfig(
    fastWindow: real,
    slowWindow: real,
    decay: real,
    minPortsFast: int,
    minPortsSlow: int,
    minHostsFast: int,
    minSynsFast: int,
    maxSynAckRatio: real,
    enableUdp: bool,
    minUdpProbes: int,
    minIcmpRatio: real)

  /** The fast-window timestamp deques of one address. */
  datatype EventLog = EventLog(syn: seq<real>, synack: seq<real>, rst: seq<real>, udp: seq<real>, icmpUnreach: seq<real>)

  const NoEvents: EventLog := EventLog([], [], [], [], [])

  /** The slow-window record of one address: lifetime uniqueness sets and four decayed counters. */
  datatype SlowCounts = SlowCounts(
    uniquePorts: set<(string, int)>,
    uniqueHosts: set<string>,
    syn: real,
    synack: real,
    udp: real,
    icmpUnreach: real)

  const NoCounts: SlowCounts := SlowCounts({}, {}, 0.0, 0.0, 0.0, 0.0)

  /** Everything the detector stores, keyed by address. */
  datatype ScanState = ScanState(
    events: map<string, EventLog>,
    portsFast: map<string, set<(string, int)>>,
    hostsFast: map<string, set<string>>,
    slow: map<string, SlowCounts>)

  // Reads of the `defaultdict`s: an address never seen has empty records.

  function EventsOf(events: map<string, EventLog>, ip: string): EventLog
  {
    if ip in events then events[ip] else NoEvents
  }

  function PortsOf(ports: map<string, set<(string, int)>>, ip: string): set<(string, int)>
  {
    if ip in ports then ports[ip] else {}
  }

  function HostsOf(hosts: map<string, set<string>>, ip: string): set<string>
  {
    if ip in hosts then hosts[ip] else {}
  }

  function SlowOf(slow: map<string, SlowCounts>, ip: string): SlowCounts
  {
    if ip in slow then slow[ip] else NoCounts
  }

  // ---------------------------------------------------------------- flags

  const SynAckFlags: bv16 := 0x12

  /** An outbound connection attempt: SYN set, ACK clear. */
  predicate IsPureSyn(flags: bv16)
  {
    HasFlag(flags, SynFlag) && !HasFlag(flags, AckFlag)
  }

  /** Any of SYN, RST, FIN or ACK set: the packet counts as a probe of its port. */
  predicate IsProbe(flags: bv16)
  {
    HasFlag(flags, SynFlag) || HasFlag(flags, RstFlag) || HasFlag(flags, FinFlag) || HasFlag(flags, AckFlag)
  }

  /** Both SYN and ACK set: the reply to an attempt. */
  predicate IsSynAck(flags: bv16)
  {
    flags & SynAckFlags == SynAckFlags
  }

  /** ICMP destination unreachable, port unreachable (type 3, code 3). */
  predicate IsPortUnreachable(icmp: IcmpLayer)
  {
    icmp.icmpType == 3 && icmp.code == 3
  }

  /** A SYN-ACK is never counted as an attempt, and attempts and SYN-ACKs are both probes. */
  lemma FlagClasses(flags: bv16)
    ensures IsSynAck(flags) ==> !IsPureSyn(flags) && IsProbe(flags)
    ensures IsPureSyn(flags) ==> IsProbe(flags)
    ensures IsSynAck(flags) <==> HasFlag(flags, SynFlag) && HasFlag(flags, AckFlag)
  {
    assert SynAckFlags == SynFlag | AckFlag;
    assert IsSynAck(flags) <==> HasFlag(flags, SynFlag) && HasFlag(flags, AckFlag) by {
      assert flags & SynAckFlags == (flags & SynFlag) | (flags & AckFlag);
      assert (flags & SynFlag) & AckFlag == 0;
    }
  }

  // ------------------------------------------------------ recording steps

  /** `_apply_slow_decay`: the four counters scaled by `f`; the uniqueness sets untouched. */
  function Decayed(sc: SlowCounts, f: real): SlowCounts
  {
    sc.(syn := sc.syn * f, synack := sc.synack * f, udp := sc.udp * f, icmpUnreach := sc.icmpUnreach * f)
  }

  function Decay(st: ScanState, src: string, f: real): ScanState
  {
    st.(slow := st.slow[src := Decayed(SlowOf(st.slow, src), f)])
  }

  /** A probe of `port` on `dst` joins the source's fast and slow uniqueness sets. */
  function Probe(st: ScanState, src: string, dst: string, port: int): ScanState
  {
    var sc := SlowOf(st.slow, src);
    st.(portsFast := st.portsFast[src := PortsOf(st.portsFast, src) + {(dst, port)}],
        hostsFast := st.hostsFast[src := HostsOf(st.hostsFast, src) + {dst}],
        slow := st.slow[src := sc.(uniquePorts := sc.uniquePorts + {(dst, port)}, uniqueHosts := sc.uniqueHosts + {dst})])
  }

  function AddSyn(st: ScanState, src: string, now: real): ScanState
  {
    var ev, sc := EventsOf(st.events, src), SlowOf(st.slow, src);
    st.(events := st.events[src := ev.(syn := ev.syn + [now])], slow := st.slow[src := sc.(syn := sc.syn + 1.0)])
  }

  function AddSynAck(st: ScanState, initiator: string, now: real): ScanState
  {
    var ev, sc := EventsOf(st.events, initiator), SlowOf(st.slow, initiator);
    st.(events := st.events[initiator := ev.(synack := ev.synack + [now])], slow := st.slow[initiator := sc.(synack := sc.synack + 1.0)])
  }

  function AddRst(st: ScanState, src: string, now: real): ScanState
  {
    var ev := EventsOf(st.events, src);
    st.(events := st.events[src := ev.(rst := ev.rst + [now])])
  }

  function AddUdp(st: ScanState, src: string, now: real): ScanState
  {
    var ev, sc := EventsOf(st.events, src), SlowOf(st.slow, src);
    st.(events := st.events[src := ev.(udp := ev.udp + [now])], slow := st.slow[src := sc.(udp := sc.udp + 1.0)])
  }

  function AddUnreachable(st: ScanState, initiator: string, now: real): ScanState
  {
    var ev, sc := EventsOf(st.events, initiator), SlowOf(st.slow, initiator);
    st.(events := st.events[initiator := ev.(icmpUnreach := ev.icmpUnreach + [now])],
        slow := st.slow[initiator := sc.(icmpUnreach := sc.icmpUnreach + 1.0)])
  }

  /**
   * The TCP rules, in order: an attempt is recorded for the source; any
   * flagged packet probes its port; a SYN-ACK is credited to the packet's
   * destination, the initiator of the handshake; a RST is logged.
   */
  function RecordTcp(st: ScanState, src: string, dst: string, tcp: TcpLayer, now: real): ScanState
  {
    var s1 := if IsPureSyn(tcp.flags) then Probe(AddSyn(st, src, now), src, dst, tcp.dport) else st;
    var s2 := if IsProbe(tcp.flags) then Probe(s1, src, dst, tcp.dport) else s1;
    var s3 := if IsSynAck(tcp.flags) then AddSynAck(s2, dst, now) else s2;
    if HasFlag(tcp.flags, RstFlag) then AddRst(s3, src, now) else s3
  }

  /** The recording phase of `analyze_packet`: decay first, then TCP, UDP and ICMP, the last two only with UDP detection on. */
  function Recorded(cfg: ScanConfig, st: ScanState, src: string, dst: string, p: Packet, now: real): ScanState
  {
    var s0 := Decay(st, src, cfg.decay);
    var s1 := if p.tcp.Some? then RecordTcp(s0, src, dst, p.tcp.value, now) else s0;
    var s2 := if cfg.enableUdp && p.udp.Some? then Probe(AddUdp(s1, src, now), src, dst, p.udp.value.dport) else s1;
    if cfg.enableUdp && p.icmp.Some? && IsPortUnreachable(p.icmp.value) then AddUnreachable(s2, dst, now) else s2
  }

  /** The source's deques after pruning: the UDP and ICMP ones only with UDP detection on. */
  function PruneLog(log: EventLog, cfg: ScanConfig, now: real): EventLog
  {
    EventLog(
      DropStale(log.syn, cfg.fastWindow, now),
      DropStale(log.synack, cfg.fastWindow, now),
      DropStale(log.rst, cfg.fastWindow, now),
      if cfg.enableUdp then DropStale(log.udp, cfg.fastWindow, now) else log.udp,
      if cfg.enableUdp then DropStale(log.icmpUnreach, cfg.fastWindow, now) else log.icmpUnreach)
  }

  /** The state after a packet from `src` to `dst` that is analysed. */
  function Analyzed(cfg: ScanConfig, st: ScanState, src: string, dst: string, p: Packet, now: real): ScanState
  {
    var r := Recorded(cfg, st, src, dst, p, now);
    r.(events := r.events[src := PruneLog(EventsOf(r.events, src), cfg, now)])
  }

  // ----------------------------------------------------- metrics and rules

  function Max(a: real, b: real): real
  {
    if a >= b then a else b
  }

  /** `num / max(1, den)` when `num > 0`, else 0. */
  function Ratio(num: real, den: real): (r: real)
    ensures num <= 0.0 ==> r == 0.0
    ensures num > 0.0 && den <= 1.0 ==> r == num
    ensures num > 0.0 && den >= 1.0 ==> r * den == num
    ensures num >= 0.0 ==> r >= 0.0
    ensures num >= 0.0 ==> r <= num
  {
    if num > 0.0 then num / Max(1.0, den) else 0.0
  }

  /**
   * The UDP-to-ICMP ratio: `icmp / max(1, udp)` when `udp > 0`, else 0.
   * Unlike `Ratio`, it is guarded by its denominator, so unreachables
   * without any UDP probes give 0.
   */
  function UnreachableRatio(icmp: real, udp: real): (r: real)
    ensures udp <= 0.0 ==> r == 0.0
    ensures 0.0 < udp <= 1.0 ==> r == icmp
    ensures udp >= 1.0 ==> r * udp == icmp
    ensures icmp >= 0.0 ==> 0.0 <= r <= icmp
  {
    if udp > 0.0 then icmp / Max(1.0, udp) else 0.0
  }

  datatype Metrics = Metrics(
    synFast: nat,
    synackFast: nat,
    udpFast: nat,
    uniquePortsFast: nat,
    uniqueHostsFast: nat,
    synToSynack: real,
    uniquePortsSlow: nat,
    uniqueHostsSlow: nat,
    synSlow: real,
    synackSlow: real,
    udpSlow: real,
    icmpSlow: real,
    synRatioSlow: real,
    udpIcmpRatio: real)

  /** The fast and slow metrics of `src`, read from the state after pruning. */
  function MetricsOf(cfg: ScanConfig, st: ScanState, src: string): Metrics
  {
    var ev, sc := EventsOf(st.events, src), SlowOf(st.slow, src);
    Metrics(
      |ev.syn|, |ev.synack|, if cfg.enableUdp then |ev.udp| else 0,
      |PortsOf(st.portsFast, src)|, |HostsOf(st.hostsFast, src)|,
      Ratio(|ev.syn| as real, |ev.synack| as real),
      |sc.uniquePorts|, |sc.uniqueHosts|,
      sc.syn, sc.synack, sc.udp, sc.icmpUnreach,
      Ratio(sc.syn, sc.synack), UnreachableRatio(sc.icmpUnreach, sc.udp))
  }

  datatype Rule = FastTcp | FastTcpProbing | FastHostSweep | SlowTcp | UdpScan

  /** Each rule's condition, on its own. */
  predicate Holds(cfg: ScanConfig, m: Metrics, rule: Rule)
  {
    match rule
    case FastTcp => m.uniquePortsFast >= cfg.minPortsFast && m.synToSynack >= cfg.maxSynAckRatio
    case FastTcpProbing => m.uniquePortsFast >= cfg.minPortsFast && m.synFast >= cfg.minSynsFast
    case FastHostSweep =>
      m.uniqueHostsFast >= cfg.minHostsFast && m.synFast >= cfg.minSynsFast && m.synToSynack >= cfg.maxSynAckRatio
    case SlowTcp => m.uniquePortsSlow >= cfg.minPortsSlow && m.synRatioSlow >= cfg.maxSynAckRatio
    case UdpScan => cfg.enableUdp && m.udpFast >= cfg.minUdpProbes && m.udpIcmpRatio >= cfg.minIcmpRatio
  }

  const AllRules: seq<Rule> := [FastTcp, FastTcpProbing, FastHostSweep, SlowTcp, UdpScan]

  /** The alert payload; `udpIcmpRatio` is reported only with UDP detection on. */
  datatype ScanAlert = ScanAlert(timestamp: real, src: string, metrics: Metrics, reasons: seq<Rule>, udpIcmpRatio: Option<real>)

  function AlertOf(cfg: ScanConfig, now: real, src: string, m: Metrics, reasons: seq<Rule>): ScanAlert
  {
    ScanAlert(now, src, m, reasons, if cfg.enableUdp then Some(m.udpIcmpRatio) else None)
  }

  // ------------------------------------------------------------ the class

  predicate CountsNonNegative(sc: SlowCounts)
  {
    sc.syn >= 0.0 && sc.synack >= 0.0 && sc.udp >= 0.0 && sc.icmpUnreach >= 0.0
  }

  /** No slow counter is negative. */
  ghost predicate NonNegativeCounts(slow: map<string, SlowCounts>)
  {
    forall ip :: ip in slow ==> CountsNonNegative(slow[ip])
  }

  class PortScanDetector {
    const cfg: ScanConfig
    /** `is_whitelisted`: membership in the configured CIDR networks, left abstract. */
    const isWhitelisted: string -> bool
    var events: map<string, EventLog>
    var portsFast: map<string, set<(string, int)>>
    var hostsFast: map<string, set<string>>
    var slow: map<string, SlowCounts>
    var raised: seq<ScanAlert>

    function State(): ScanState
      reads this
    {
      ScanState(events, portsFast, hostsFast, slow)
    }

    /** With a non-negative decay factor the slow counters never go negative. */
    ghost predicate Valid()
      reads this
    {
      cfg.decay >= 0.0 ==> NonNegativeCounts(slow)
    }

    constructor (config: ScanConfig, whitelisted: string -> bool)
      ensures Valid()
      ensures cfg == config && isWhitelisted == whitelisted
      ensures State() == ScanState(map[], map[], map[], map[]) && raised == []
    {
      cfg, isWhitelisted := config, whitelisted;
      events, portsFast, hostsFast, slow, raised := map[], map[], map[], map[], [];
    }

    /** `_prune_times`: pop timestamps more than `windowS` old from the front. */
    static method PruneTimes(dq: seq<real>, windowS: real, now: real) returns (r: seq<real>)
      ensures r == DropStale(dq, windowS, now)
    {
      r := dq;
      while r != [] && now - r[0] > windowS
        invariant DropStale(r, windowS, now) == DropStale(dq, windowS, now)
        decreases |r|
      {
        DropStaleStep(r, windowS, now);
        r := r[1..];
      }
      DropStaleStep(r, windowS, now);
    }

    /** `_apply_slow_decay`. */
    method ApplySlowDecay(src: string)
      modifies this
      ensures State() == Decay(old(State()), src, cfg.decay)
      ensures raised == old(raised)
    {
      var sc := SlowOf(slow, src);
      sc := sc.(syn := sc.syn * cfg.decay);
      sc := sc.(synack := sc.synack * cfg.decay);
      sc := sc.(udp := sc.udp * cfg.decay);
      sc := sc.(icmpUnreach := sc.icmpUnreach * cfg.decay);
      assert sc == Decayed(SlowOf(old(slow), src), cfg.decay);
      slow := slow[src := sc];
    }

    /** Adds a probe of `port` on `dst` to the source's fast and slow uniqueness sets. */
    method AddProbe(src: string, dst: string, port: int)
      modifies this
      ensures State() == Probe(old(State()), src, dst, port)
      ensures raised == old(raised)
    {
      portsFast := portsFast[src := PortsOf(portsFast, src) + {(dst, port)}];
      hostsFast := hostsFast[src := HostsOf(hostsFast, src) + {dst}];
      var sc := SlowOf(slow, src);
      slow := slow[src := sc.(uniquePorts := sc.uniquePorts + {(dst, port)}, uniqueHosts := sc.uniqueHosts + {dst})];
    }

    /** An attempt: logged, counted, and its (host, port) pair added to the uniqueness sets. */
    method RecordAttempt(src: string, dst: string, port: int, now: real)
      modifies this
      ensures State() == Probe(AddSyn(old(State()), src, now), src, dst, port)
      ensures raised == old(raised)
    {
      var ev, sc := EventsOf(events, src), SlowOf(slow, src);
      events := events[src := ev.(syn := ev.syn + [now])];
      slow := slow[src := sc.(syn := sc.syn + 1.0)];
      AddProbe(src, dst, port);
    }

    /** A SYN-ACK is logged and counted for its destination, the initiator. */
    method RecordSynAck(dst: string, now: real)
      modifies this
      ensures State() == AddSynAck(old(State()), dst, now)
      ensures raised == old(raised)
    {
      var initiator := dst;
      var ev, sc := EventsOf(events, initiator), SlowOf(slow, initiator);
      events := events[initiator := ev.(synack := ev.synack + [now])];
      slow := slow[initiator := sc.(synack := sc.synack + 1.0)];
    }

    method RecordRst(src: string, now: real)
      modifies this
      ensures State() == AddRst(old(State()), src, now)
      ensures raised == old(raised)
    {
      var ev := EventsOf(events, src);
      events := events[src := ev.(rst := ev.rst + [now])];
    }

    /** The TCP branch of `analyze_packet`. */
    method RecordTcpPacket(src: string, dst: string, tcp: TcpLayer, now: real)
      modifies this
      ensures State() == RecordTcp(old(State()), src, dst, tcp, now)
      ensures raised == old(raised)
    {
      var flags := tcp.flags;
      if flags & SynFlag != 0 && flags & AckFlag == 0 {
        RecordAttempt(src, dst, tcp.dport, now);
      }
      if flags & SynFlag != 0 || flags & RstFlag != 0 || flags & FinFlag != 0 || flags & AckFlag != 0 {
        AddProbe(src, dst, tcp.dport);
      }
      if flags & SynAckFlags == SynAckFlags {
        RecordSynAck(dst, now);
      }
      if flags & RstFlag != 0 {
        RecordRst(src, now);
      }
    }

    /** The UDP branch: the probe is logged, counted and added to the uniqueness sets. */
    method RecordUdpProbe(src: string, dst: string, udp: UdpLayer, now: real)
      modifies this
      ensures State() == Probe(AddUdp(old(State()), src, now), src, dst, udp.dport)
      ensures raised == old(raised)
    {
      var ev := EventsOf(events, src);
      events := events[src := ev.(udp := ev.udp + [now])];
      var sc := SlowOf(slow, src);
      slow := slow[src := sc.(udp := sc.udp + 1.0)];
      AddProbe(src, dst, udp.dport);
    }

    /** The ICMP branch: a port-unreachable is credited to the packet's destination. */
    method RecordUnreachable(dst: string, now: real)
      modifies this
      ensures State() == AddUnreachable(old(State()), dst, now)
      ensures raised == old(raised)
    {
      var initiator := dst;
      var ev, sc := EventsOf(events, initiator), SlowOf(slow, initiator);
      events := events[initiator := ev.(icmpUnreach := ev.icmpUnreach + [now])];
      slow := slow[initiator := sc.(icmpUnreach := sc.icmpUnreach + 1.0)];
    }

    /** The prune block: the source's deques lose their stale fronts. */
    method PruneSource(src: string, now: real)
      modifies this
      ensures events == old(events)[src := PruneLog(EventsOf(old(events), src), cfg, now)]
      ensures portsFast == old(portsFast) && hostsFast == old(hostsFast) && slow == old(slow)
      ensures raised == old(raised)
    {
      var ev := EventsOf(events, src);
      var syn := PruneTimes(ev.syn, cfg.fastWindow, now);
      var synack := PruneTimes(ev.synack, cfg.fastWindow, now);
      var rst := PruneTimes(ev.rst, cfg.fastWindow, now);
      var udp, icmpUnreach := ev.udp, ev.icmpUnreach;
      if cfg.enableUdp {
        udp := PruneTimes(ev.udp, cfg.fastWindow, now);
        icmpUnreach := PruneTimes(ev.icmpUnreach, cfg.fastWindow, now);
      }
      events := events[src := EventLog(syn, synack, rst, udp, icmpUnreach)];
    }

    /** The rule block: the reasons that hold, in rule order; nothing is changed. */
    method Evaluate(m: Metrics) returns (reasons: seq<Rule>)
      ensures forall rule :: rule in reasons <==> Holds(cfg, m, rule)
      ensures forall i, j :: 0 <= i < j < |reasons| ==> RuleIndex(reasons[i]) < RuleIndex(reasons[j])
      ensures !cfg.enableUdp ==> UdpScan !in reasons
    {
      reasons := [];
      if m.uniquePortsFast >= cfg.minPortsFast && m.synToSynack >= cfg.maxSynAckRatio {
        reasons := reasons + [FastTcp];
      }
      if m.uniquePortsFast >= cfg.minPortsFast && m.synFast >= cfg.minSynsFast {
        reasons := reasons + [FastTcpProbing];
      }
      if m.uniqueHostsFast >= cfg.minHostsFast && m.synFast >= cfg.minSynsFast && m.synToSynack >= cfg.maxSynAckRatio {
        reasons := reasons + [FastHostSweep];
      }
      if m.uniquePortsSlow >= cfg.minPortsSlow && m.synRatioSlow >= cfg.maxSynAckRatio {
        reasons := reasons + [SlowTcp];
      }
      if cfg.enableUdp && m.udpFast >= cfg.minUdpProbes && m.udpIcmpRatio >= cfg.minIcmpRatio {
        reasons := reasons + [UdpScan];
      }
    }

    /** The recording phase of `analyze_packet`: decay, then the TCP, UDP and ICMP branches. */
    method RecordPacket(src: string, dst: string, p: Packet, now: real)
      modifies this
      ensures State() == Recorded(cfg, old(State()), src, dst, p, now)
      ensures raised == old(raised)
    {
      ApplySlowDecay(src);
      if p.tcp.Some? {
        RecordTcpPacket(src, dst, p.tcp.value, now);
      }
      if cfg.enableUdp && p.udp.Some? {
        RecordUdpProbe(src, dst, p.udp.value, now);
      }
      if cfg.enableUdp && p.icmp.Some? {
        if p.icmp.value.icmpType == 3 && p.icmp.value.code == 3 {
          RecordUnreachable(dst, now);
        }
      }
    }

    /**
     * `analyze_packet` with the clock reading `now`. A packet without an IP
     * layer, or from a whitelisted source, changes nothing. Otherwise the
     * state becomes `Analyzed(...)`, and an alert carrying the source's
     * metrics and the rules that hold is raised exactly when some rule holds.
     */
    method AnalyzePacket(p: Packet, now: real)
      requires Valid()
      modifies this
      ensures Valid()
      ensures p.ip.None? || isWhitelisted(p.ip.value.src) ==> State() == old(State()) && raised == old(raised)
      ensures p.ip.Some? && !isWhitelisted(p.ip.value.src) ==>
        var src := p.ip.value.src;
        && State() == Analyzed(cfg, old(State()), src, p.ip.value.dst, p, now)
        && var m := MetricsOf(cfg, State(), src);
           if exists rule :: Holds(cfg, m, rule) then
             && |raised| == |old(raised)| + 1 && raised[..|old(raised)|] == old(raised)
             && var a := raised[|old(raised)|];
                a.timestamp == now && a.src == src && a.metrics == m
                && (forall rule :: rule in a.reasons <==> Holds(cfg, m, rule))
                && a.udpIcmpRatio == (if cfg.enableUdp then Some(m.udpIcmpRatio) else None)
           else raised == old(raised)
    {
      if p.ip.None? {
        return;
      }
      var src, dst := p.ip.value.src, p.ip.value.dst;
      if isWhitelisted(src) {
        return;
      }
      ghost var st0 := State();
      RecordPacket(src, dst, p, now);
      PruneSource(src, now);
      assert State() == Analyzed(cfg, st0, src, dst, p, now);
      CountsStayNonNegative(cfg, st0, src, dst, p, now);
      var m := MetricsOf(cfg, State(), src);
      var reasons := Evaluate(m);
      if reasons != [] {
        assert Holds(cfg, m, reasons[0]) by {
          assert reasons[0] in reasons;
        }
        raised := raised + [AlertOf(cfg, now, src, m, reasons)];
      } else {
        forall rule ensures !Holds(cfg, m, rule) {
          assert rule !in reasons;
        }
      }
    }
  }

  function RuleIndex(rule: Rule): nat
  {
    match rule
    case FastTcp => 0
    case FastTcpProbing => 1
    case FastHostSweep => 2
    case SlowTcp => 3
    case UdpScan => 4
  }

  // -------------------------------------------------------------- lemmas

  /** Giving one address non-negative counters keeps every counter non-negative. */
  lemma UpdateKeepsNonNegative(slow: map<string, SlowCounts>, ip: string, sc: SlowCounts)
    requires NonNegativeCounts(slow) && CountsNonNegative(sc)
    ensures NonNegativeCounts(slow[ip := sc])
    ensures CountsNonNegative(SlowOf(slow, ip))
  {
  }

  /** Decay, then one increment per event: with a non-negative factor no counter goes negative. */
  lemma CountsStayNonNegative(cfg: ScanConfig, st: ScanState, src: string, dst: string, p: Packet, now: real)
    ensures cfg.decay >= 0.0 && NonNegativeCounts(st.slow) ==> NonNegativeCounts(Analyzed(cfg, st, src, dst, p, now).slow)
  {
    if cfg.decay >= 0.0 && NonNegativeCounts(st.slow) {
      var sc := SlowOf(st.slow, src);
      UpdateKeepsNonNegative(st.slow, src, sc);
      assert sc.syn * cfg.decay >= 0.0 && sc.synack * cfg.decay >= 0.0;
      assert sc.udp * cfg.decay >= 0.0 && sc.icmpUnreach * cfg.decay >= 0.0;
      var s0 := Decay(st, src, cfg.decay);
      UpdateKeepsNonNegative(st.slow, src, Decayed(sc, cfg.decay));
      var s1 := if p.tcp.Some? then RecordTcp(s0, src, dst, p.tcp.value, now) else s0;
      if p.tcp.Some? {
        RecordTcpKeepsNonNegative(s0, src, dst, p.tcp.value, now);
      }
      var s2 := if cfg.enableUdp && p.udp.Some? then Probe(AddUdp(s1, src, now), src, dst, p.udp.value.dport) else s1;
      if cfg.enableUdp && p.udp.Some? {
        AddUdpKeepsNonNegative(s1, src, now);
        ProbeKeepsNonNegative(AddUdp(s1, src, now), src, dst, p.udp.value.dport);
      }
      if cfg.enableUdp && p.icmp.Some? && IsPortUnreachable(p.icmp.value) {
        AddUnreachableKeepsNonNegative(s2, dst, now);
      }
    }
  }

  lemma ProbeKeepsNonNegative(st: ScanState, src: string, dst: string, port: int)
    requires NonNegativeCounts(st.slow)
    ensures NonNegativeCounts(Probe(st, src, dst, port).slow)
  {
    var sc := SlowOf(st.slow, src);
    UpdateKeepsNonNegative(st.slow, src, sc);
    UpdateKeepsNonNegative(st.slow, src, sc.(uniquePorts := sc.uniquePorts + {(dst, port)}, uniqueHosts := sc.uniqueHosts + {dst}));
  }

  lemma AddUdpKeepsNonNegative(st: ScanState, src: string, now: real)
    requires NonNegativeCounts(st.slow)
    ensures NonNegativeCounts(AddUdp(st, src, now).slow)
  {
    var sc := SlowOf(st.slow, src);
    UpdateKeepsNonNegative(st.slow, src, sc);
    UpdateKeepsNonNegative(st.slow, src, sc.(udp := sc.udp + 1.0));
  }

  lemma AddUnreachableKeepsNonNegative(st: ScanState, ip: string, now: real)
    requires NonNegativeCounts(st.slow)
    ensures NonNegativeCounts(AddUnreachable(st, ip, now).slow)
  {
    var sc := SlowOf(st.slow, ip);
    UpdateKeepsNonNegative(st.slow, ip, sc);
    UpdateKeepsNonNegative(st.slow, ip, sc.(icmpUnreach := sc.icmpUnreach + 1.0));
  }

  lemma RecordTcpKeepsNonNegative(st: ScanState, src: string, dst: string, tcp: TcpLayer, now: real)
    requires NonNegativeCounts(st.slow)
    ensures NonNegativeCounts(RecordTcp(st, src, dst, tcp, now).slow)
  {
    var sc := SlowOf(st.slow, src);
    UpdateKeepsNonNegative(st.slow, src, sc);
    UpdateKeepsNonNegative(st.slow, src, sc.(syn := sc.syn + 1.0));
    var s1 := if IsPureSyn(tcp.flags) then Probe(AddSyn(st, src, now), src, dst, tcp.dport) else st;
    if IsPureSyn(tcp.flags) {
      ProbeKeepsNonNegative(AddSyn(st, src, now), src, dst, tcp.dport);
    }
    var s2 := if IsProbe(tcp.flags) then Probe(s1, src, dst, tcp.dport) else s1;
    if IsProbe(tcp.flags) {
      ProbeKeepsNonNegative(s1, src, dst, tcp.dport);
    }
    var sd := SlowOf(s2.slow, dst);
    UpdateKeepsNonNegative(s2.slow, dst, sd);
    UpdateKeepsNonNegative(s2.slow, dst, sd.(synack := sd.synack + 1.0));
  }

  // ------------------------------------------------- the per-address view

  /** Everything the detector stores about one address. */
  datatype AddrState = AddrState(events: EventLog, slow: SlowCounts, ports: set<(string, int)>, hosts: set<string>)

  function At(st: ScanState, ip: string): AddrState
  {
    AddrState(EventsOf(st.events, ip), SlowOf(st.slow, ip), PortsOf(st.portsFast, ip), HostsOf(st.hostsFast, ip))
  }

  function ProbeAt(a: AddrState, dst: string, port: int): AddrState
  {
    a.(ports := a.ports + {(dst, port)}, hosts := a.hosts + {dst},
       slow := a.slow.(uniquePorts := a.slow.uniquePorts + {(dst, port)}, uniqueHosts := a.slow.uniqueHosts + {dst}))
  }

  function SynAt(a: AddrState, now: real): AddrState
  {
    a.(events := a.events.(syn := a.events.syn + [now]), slow := a.slow.(syn := a.slow.syn + 1.0))
  }

  function SynAckAt(a: AddrState, now: real): AddrState
  {
    a.(events := a.events.(synack := a.events.synack + [now]), slow := a.slow.(synack := a.slow.synack + 1.0))
  }

  function UdpAt(a: AddrState, now: real): AddrState
  {
    a.(events := a.events.(udp := a.events.udp + [now]), slow := a.slow.(udp := a.slow.udp + 1.0))
  }

  function UnreachableAt(a: AddrState, now: real): AddrState
  {
    a.(events := a.events.(icmpUnreach := a.events.icmpUnreach + [now]), slow := a.slow.(icmpUnreach := a.slow.icmpUnreach + 1.0))
  }

  /** What one packet from `src` to `dst` does to the records of address `ip`, step by step. */
  function AfterAt(cfg: ScanConfig, a: AddrState, ip: string, src: string, dst: string, p: Packet, now: real): AddrState
  {
    var a0 := if ip == src then a.(slow := Decayed(a.slow, cfg.decay)) else a;
    var a1 := if p.tcp.Some? then TcpAt(a0, ip, src, dst, p.tcp.value, now) else a0;
    var a2 := if cfg.enableUdp && p.udp.Some? && ip == src then ProbeAt(UdpAt(a1, now), dst, p.udp.value.dport) else a1;
    var a3 := if cfg.enableUdp && p.icmp.Some? && IsPortUnreachable(p.icmp.value) && ip == dst then UnreachableAt(a2, now) else a2;
    if ip == src then a3.(events := PruneLog(a3.events, cfg, now)) else a3
  }

  function TcpAt(a: AddrState, ip: string, src: string, dst: string, tcp: TcpLayer, now: real): AddrState
  {
    var a1 := if ip == src && IsPureSyn(tcp.flags) then ProbeAt(SynAt(a, now), dst, tcp.dport) else a;
    var a2 := if ip == src && IsProbe(tcp.flags) then ProbeAt(a1, dst, tcp.dport) else a1;
    var a3 := if ip == dst && IsSynAck(tcp.flags) then SynAckAt(a2, now) else a2;
    if ip == src && HasFlag(tcp.flags, RstFlag) then a3.(events := a3.events.(rst := a3.events.rst + [now])) else a3
  }

  lemma ProbeLocal(st: ScanState, src: string, dst: string, port: int, ip: string)
    ensures At(Probe(st, src, dst, port), ip) == if ip == src then ProbeAt(At(st, ip), dst, port) else At(st, ip)
  {
  }

  lemma SynLocal(st: ScanState, src: string, now: real, ip: string)
    ensures At(AddSyn(st, src, now), ip) == if ip == src then SynAt(At(st, ip), now) else At(st, ip)
  {
  }

  lemma SynAckLocal(st: ScanState, initiator: string, now: real, ip: string)
    ensures At(AddSynAck(st, initiator, now), ip) == if ip == initiator then SynAckAt(At(st, ip), now) else At(st, ip)
  {
  }

  lemma RstLocal(st: ScanState, src: string, now: real, ip: string)
    ensures var a := At(st, ip);
      At(AddRst(st, src, now), ip) == if ip == src then a.(events := a.events.(rst := a.events.rst + [now])) else a
  {
  }

  lemma UdpLocal(st: ScanState, src: string, now: real, ip: string)
    ensures At(AddUdp(st, src, now), ip) == if ip == src then UdpAt(At(st, ip), now) else At(st, ip)
  {
  }

  lemma UnreachableLocal(st: ScanState, initiator: string, now: real, ip: string)
    ensures At(AddUnreachable(st, initiator, now), ip) == if ip == initiator then UnreachableAt(At(st, ip), now) else At(st, ip)
  {
  }

  lemma RecordTcpLocal(st: ScanState, src: string, dst: string, tcp: TcpLayer, now: real, ip: string)
    ensures At(RecordTcp(st, src, dst, tcp, now), ip) == TcpAt(At(st, ip), ip, src, dst, tcp, now)
  {
    var a := At(st, ip);
    var s1 := if IsPureSyn(tcp.flags) then Probe(AddSyn(st, src, now), src, dst, tcp.dport) else st;
    var a1 := if ip == src && IsPureSyn(tcp.flags) then ProbeAt(SynAt(a, now), dst, tcp.dport) else a;
    assert At(s1, ip) == a1 by {
      SynLocal(st, src, now, ip);
      ProbeLocal(AddSyn(st, src, now), src, dst, tcp.dport, ip);
    }
    var s2 := if IsProbe(tcp.flags) then Probe(s1, src, dst, tcp.dport) else s1;
    var a2 := if ip == src && IsProbe(tcp.flags) then ProbeAt(a1, dst, tcp.dport) else a1;
    assert At(s2, ip) == a2 by {
      ProbeLocal(s1, src, dst, tcp.dport, ip);
    }
    var s3 := if IsSynAck(tcp.flags) then AddSynAck(s2, dst, now) else s2;
    var a3 := if ip == dst && IsSynAck(tcp.flags) then SynAckAt(a2, now) else a2;
    assert At(s3, ip) == a3 by {
      SynAckLocal(s2, dst, now, ip);
    }
    RstLocal(s3, src, now, ip);
  }

  /**
   * The update is local: each address's records after the packet depend
   * only on its own records before it, as `AfterAt` says.
   */
  lemma AnalyzedLocal(cfg: ScanConfig, st: ScanState, src: string, dst: string, p: Packet, now: real, ip: string)
    ensures At(Analyzed(cfg, st, src, dst, p, now), ip) == AfterAt(cfg, At(st, ip), ip, src, dst, p, now)
  {
    var s0 := Decay(st, src, cfg.decay);
    assert At(s0, ip) == if ip == src then At(st, ip).(slow := Decayed(At(st, ip).slow, cfg.decay)) else At(st, ip);
    var s1 := if p.tcp.Some? then RecordTcp(s0, src, dst, p.tcp.value, now) else s0;
    if p.tcp.Some? {
      RecordTcpLocal(s0, src, dst, p.tcp.value, now, ip);
    }
    var s2 := if cfg.enableUdp && p.udp.Some? then Probe(AddUdp(s1, src, now), src, dst, p.udp.value.dport) else s1;
    if cfg.enableUdp && p.udp.Some? {
      UdpLocal(s1, src, now, ip);
      ProbeLocal(AddUdp(s1, src, now), src, dst, p.udp.value.dport, ip);
    }
    UnreachableLocal(s2, dst, now, ip);
    var r := Recorded(cfg, st, src, dst, p, now);
    assert r == if cfg.enableUdp && p.icmp.Some? && IsPortUnreachable(p.icmp.value) then AddUnreachable(s2, dst, now) else s2;
  }

  /** The effect of the TCP rules on one address's counters and on its UDP and ICMP deques. */
  lemma TcpAtCounters(a: AddrState, ip: string, src: string, dst: string, tcp: TcpLayer, now: real)
    ensures var b := TcpAt(a, ip, src, dst, tcp, now);
      && b.slow.syn == a.slow.syn + (if ip == src && IsPureSyn(tcp.flags) then 1.0 else 0.0)
      && b.slow.synack == a.slow.synack + (if ip == dst && IsSynAck(tcp.flags) then 1.0 else 0.0)
      && b.slow.udp == a.slow.udp && b.slow.icmpUnreach == a.slow.icmpUnreach
      && b.events.udp == a.events.udp && b.events.icmpUnreach == a.events.icmpUnreach
      && (ip != src ==> b.events.syn == a.events.syn && b.ports == a.ports && b.hosts == a.hosts && b.slow.uniquePorts == a.slow.uniquePorts && b.slow.uniqueHosts == a.slow.uniqueHosts)
      && (ip == dst && IsSynAck(tcp.flags) ==> b.events.synack == a.events.synack + [now])
      && (ip != src && ip != dst ==> b == a)
  {
  }

  /** The effect of the TCP rules on one address's uniqueness sets: they grow, by the packet's pair for a flagged packet. */
  lemma TcpAtUniques(a: AddrState, ip: string, src: string, dst: string, tcp: TcpLayer, now: real)
    ensures var b := TcpAt(a, ip, src, dst, tcp, now);
      && a.ports <= b.ports && a.hosts <= b.hosts
      && a.slow.uniquePorts <= b.slow.uniquePorts && a.slow.uniqueHosts <= b.slow.uniqueHosts
      && (ip == src && IsProbe(tcp.flags) ==>
            (dst, tcp.dport) in b.ports * b.slow.uniquePorts && dst in b.hosts * b.slow.uniqueHosts)
  {
  }

  /**
   * Every analysed packet scales the source's counters by the decay factor
   * once, before adding its own events: one attempt, one UDP probe.
   */
  lemma DecayOnceBeforeIncrement(cfg: ScanConfig, a: AddrState, src: string, dst: string, p: Packet, now: real)
    ensures var after := AfterAt(cfg, a, src, src, dst, p, now).slow;
      && after.syn == a.slow.syn * cfg.decay + (if p.tcp.Some? && IsPureSyn(p.tcp.value.flags) then 1.0 else 0.0)
      && after.udp == a.slow.udp * cfg.decay + (if cfg.enableUdp && p.udp.Some? then 1.0 else 0.0)
      && (src != dst ==> after.synack == a.slow.synack * cfg.decay && after.icmpUnreach == a.slow.icmpUnreach * cfg.decay)
  {
    var a0 := a.(slow := Decayed(a.slow, cfg.decay));
    if p.tcp.Some? {
      TcpAtCounters(a0, src, src, dst, p.tcp.value, now);
    }
  }

  /**
   * A SYN-ACK from `src` to `dst` is credited to `dst`, the initiator of
   * the handshake, whose counter is not decayed; the sender gains no
   * attempt and its counters are only decayed.
   */
  lemma SynAckCreditedToInitiator(cfg: ScanConfig, a: AddrState, d: AddrState, src: string, dst: string, p: Packet, now: real)
    requires src != dst && p.tcp.Some? && IsSynAck(p.tcp.value.flags)
    ensures var atDst := AfterAt(cfg, d, dst, src, dst, p, now);
      && atDst.slow.synack == d.slow.synack + 1.0
      && atDst.events.synack == d.events.synack + [now]
    ensures var atSrc := AfterAt(cfg, a, src, src, dst, p, now);
      && atSrc.events.syn == DropStale(a.events.syn, cfg.fastWindow, now)
      && atSrc.slow.syn == a.slow.syn * cfg.decay
      && atSrc.slow.synack == a.slow.synack * cfg.decay
  {
    FlagClasses(p.tcp.value.flags);
    TcpAtCounters(d, dst, src, dst, p.tcp.value, now);
    var a0 := a.(slow := Decayed(a.slow, cfg.decay));
    TcpAtCounters(a0, src, src, dst, p.tcp.value, now);
  }

  /**
   * The uniqueness sets of every address only grow; those of addresses
   * other than the source do not change; and a flagged TCP packet's
   * (host, port) pair is in the source's sets afterwards.
   */
  lemma UniquesOnlyGrow(cfg: ScanConfig, a: AddrState, ip: string, src: string, dst: string, p: Packet, now: real)
    ensures var b := AfterAt(cfg, a, ip, src, dst, p, now);
      && a.ports <= b.ports && a.hosts <= b.hosts
      && a.slow.uniquePorts <= b.slow.uniquePorts && a.slow.uniqueHosts <= b.slow.uniqueHosts
    ensures var b := AfterAt(cfg, a, ip, src, dst, p, now);
      ip != src ==> b.ports == a.ports && b.hosts == a.hosts && b.slow.uniquePorts == a.slow.uniquePorts && b.slow.uniqueHosts == a.slow.uniqueHosts
    ensures var b := AfterAt(cfg, a, ip, src, dst, p, now);
      ip == src && p.tcp.Some? && IsProbe(p.tcp.value.flags) ==>
        (dst, p.tcp.value.dport) in b.ports * b.slow.uniquePorts && dst in b.hosts * b.slow.uniqueHosts
  {
    var a0 := if ip == src then a.(slow := Decayed(a.slow, cfg.decay)) else a;
    if p.tcp.Some? {
      TcpAtUniques(a0, ip, src, dst, p.tcp.value, now);
      TcpAtCounters(a0, ip, src, dst, p.tcp.value, now);
    }
  }

  /** `after` is `before` without a stale front, and is all recent when `before` is in time order. */
  ghost predicate PrunedFrom(after: seq<real>, before: seq<real>, window: real, now: real)
  {
    && |after| <= |before| && after == before[|before| - |after|..]
    && (after != [] ==> !Stale(after[0], window, now))
    && (Sorted(before) ==> AllRecent(after, window, now))
  }

  lemma DropStalePrunes(dq: seq<real>, window: real, now: real)
    ensures PrunedFrom(DropStale(dq, window, now), dq, window, now)
  {
    DropStaleSpec(dq, window, now);
    if Sorted(dq) {
      DropStaleOfSorted(dq, window, now);
    }
  }

  /**
   * After the call the source's SYN, SYN-ACK and RST deques are pruned to
   * the fast window; its UDP and ICMP deques are pruned only with UDP
   * detection on, and are otherwise left exactly as they were.
   */
  lemma SourceDequesPruned(cfg: ScanConfig, st: ScanState, src: string, dst: string, p: Packet, now: real)
    ensures var rec, ev := EventsOf(Recorded(cfg, st, src, dst, p, now).events, src), EventsOf(Analyzed(cfg, st, src, dst, p, now).events, src);
      && PrunedFrom(ev.syn, rec.syn, cfg.fastWindow, now)
      && PrunedFrom(ev.synack, rec.synack, cfg.fastWindow, now)
      && PrunedFrom(ev.rst, rec.rst, cfg.fastWindow, now)
      && (cfg.enableUdp ==> PrunedFrom(ev.udp, rec.udp, cfg.fastWindow, now) && PrunedFrom(ev.icmpUnreach, rec.icmpUnreach, cfg.fastWindow, now))
  {
    var rec := EventsOf(Recorded(cfg, st, src, dst, p, now).events, src);
    DropStalePrunes(rec.syn, cfg.fastWindow, now);
    DropStalePrunes(rec.synack, cfg.fastWindow, now);
    DropStalePrunes(rec.rst, cfg.fastWindow, now);
    DropStalePrunes(rec.udp, cfg.fastWindow, now);
    DropStalePrunes(rec.icmpUnreach, cfg.fastWindow, now);
  }

  /** With UDP detection off, the source's UDP and ICMP deques are neither recorded into nor pruned. */
  lemma UdpDequesIdleWhenDisabled(cfg: ScanConfig, a: AddrState, ip: string, src: string, dst: string, p: Packet, now: real)
    requires !cfg.enableUdp
    ensures var b := AfterAt(cfg, a, ip, src, dst, p, now);
      b.events.udp == a.events.udp && b.events.icmpUnreach == a.events.icmpUnreach
  {
    var a0 := if ip == src then a.(slow := Decayed(a.slow, cfg.decay)) else a;
    if p.tcp.Some? {
      TcpAtCounters(a0, ip, src, dst, p.tcp.value, now);
    }
  }

  /** Addresses other than the packet's source and destination keep all their records. */
  lemma OtherAddressesUntouched(cfg: ScanConfig, st: ScanState, src: string, dst: string, p: Packet, now: real, ip: string)
    requires ip != src && ip != dst
    ensures At(Analyzed(cfg, st, src, dst, p, now), ip) == At(st, ip)
  {
    AnalyzedLocal(cfg, st, src, dst, p, now, ip);
    if p.tcp.Some? {
      TcpAtCounters(At(st, ip), ip, src, dst, p.tcp.value, now);
    }
  }
}
