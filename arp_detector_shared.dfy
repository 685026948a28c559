/**
 * The ARP spoofing detector that reads its threshold from the shared,
 * API-updatable threshold table on every packet, and reports that threshold
 * in its alert. The change bookkeeping is that of `ArpDetector`; the recent
 * changes are selected by a comprehension rather than a loop.
 */
module ArpDetectorShared {
  import opened Wrappers
  import opened Seqs
  import opened Packets
  import opened SlidingWindow
  import opened ArpDetector
  import Config

  const DefaultArpThreshold: int := 3

  /** `thresholds.get(name, default)`. */
  function ThresholdOr(table: map<string, int>, name: string, default: int): (r: int)
    ensures name in table ==> r == table[name]
    ensures name !in table ==> r == default
  {
    if name in table then table[name] else default
  }

  class SharedArpSpoofDetector {
    const window: real
    const thresholds: Config.ThresholdTable
    var ipMacMap: map<string, set<string>>
    var macChangeTimes: map<string, seq<real>>
    var raised: seq<ArpAlert>

    constructor (windowSeconds: real, table: Config.ThresholdTable)
      ensures window == windowSeconds && thresholds == table
      ensures ipMacMap == map[] && macChangeTimes == map[] && raised == []
    {
      window, thresholds := windowSeconds, table;
      ipMacMap, macChangeTimes, raised := map[], map[], [];
    }

    /**
     * `analyze_packet`: as the config-threshold detector, except that the
     * threshold is the table's current `"arp"` entry (3 when absent) and
     * the alert carries it. The table itself is only read.
     */
    method AnalyzePacket(p: Packet, changeTime: real, now: real)
      modifies this
      ensures p.arp.None? ==>
        ipMacMap == old(ipMacMap) && macChangeTimes == old(macChangeTimes) && raised == old(raised)
      ensures p.arp.Some? ==>
        var ip, mac := p.arp.value.psrc, p.arp.value.hwsrc;
        var known := MacsOf(old(ipMacMap), ip) + {mac};
        var recent := Recent(Recorded(ChangesOf(old(macChangeTimes), ip), MacsOf(old(ipMacMap), ip), mac, changeTime), window, now);
        var threshold := ThresholdOr(thresholds.table, "arp", DefaultArpThreshold);
        && ipMacMap == old(ipMacMap)[ip := known]
        && if |recent| >= threshold then
             macChangeTimes == old(macChangeTimes)[ip := []]
             && raised == old(raised) + [ArpAlert(ip, mac, known, |recent|, window, Some(threshold))]
           else
             macChangeTimes == old(macChangeTimes)[ip := recent] && raised == old(raised)
    {
      if p.arp.None? {
        return;
      }
      var ip, mac := p.arp.value.psrc, p.arp.value.hwsrc;
      var knownMacs := MacsOf(ipMacMap, ip);
      if |knownMacs| > 0 && mac !in knownMacs {
        macChangeTimes := macChangeTimes[ip := ChangesOf(macChangeTimes, ip) + [changeTime]];
      }
      knownMacs := knownMacs + {mac};
      ipMacMap := ipMacMap[ip := knownMacs];
      macChangeTimes := macChangeTimes[ip := Filter(ChangesOf(macChangeTimes, ip), RecentAt(window, now))];
      var count := |macChangeTimes[ip]|;
      var threshold := ThresholdOr(thresholds.table, "arp", DefaultArpThreshold);
      if count >= threshold {
        raised := raised + [ArpAlert(ip, mac, knownMacs, count, window, Some(threshold))];
        macChangeTimes := macChangeTimes[ip := []];
      }
    }
  }
}
