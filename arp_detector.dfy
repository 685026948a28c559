/**
 * The ARP spoofing detector with its threshold from the loaded config.
 * Per sender IP it keeps the set of hardware addresses seen and the times
 * the IP was seen with a new one; the list is rebuilt from its entries at
 * most `window` seconds old, and an alert empties it.
 *
 * The clock is read twice in a call: `changeTime` is the reading taken
 * when a change is recorded, `now` the one the window is measured from.
 */
module ArpDetector {
  import opened Wrappers
  import opened Seqs
  import opened Packets
  import opened SlidingWindow

  /** The payload handed to the shared alert hook; `threshold` is only sent by the detector that reads the shared table. */
  datatype ArpAlert = ArpAlert(ip: string, mac: string, knownMacs: set<string>, macChanges: nat, windowSeconds: real, threshold: Option<int>)

  function MacsOf(ipMacMap: map<string, set<string>>, ip: string): set<string>
  {
    if ip in ipMacMap then ipMacMap[ip] else {}
  }

  function ChangesOf(changeTimes: map<string, seq<real>>, ip: string): seq<real>
  {
    if ip in changeTimes then changeTimes[ip] else []
  }

  /** A change is recorded when the IP was seen before and this hardware address is new for it. */
  predicate IsChange(known: set<string>, mac: string)
  {
    |known| > 0 && mac !in known
  }

  /** The change list after the packet, before the window is applied. */
  function Recorded(times: seq<real>, known: set<string>, mac: string, changeTime: real): seq<real>
  {
    if IsChange(known, mac) then times + [changeTime] else times
  }

  /** The change list rebuilt from its entries at most `window` seconds old. */
  function Recent(times: seq<real>, window: real, now: real): seq<real>
  {
    Filter(times, RecentAt(window, now))
  }

  /** The first address seen for an IP records no change; a known address never does; a new one for a known IP does. */
  lemma ChangeRecording(times: seq<real>, known: set<string>, mac: string, changeTime: real)
    ensures known == {} ==> Recorded(times, known, mac, changeTime) == times
    ensures mac in known ==> Recorded(times, known, mac, changeTime) == times
    ensures known != {} && mac !in known ==> Recorded(times, known, mac, changeTime) == times + [changeTime]
  {
    if known != {} {
      var x :| x in known;
      assert |known| > 0;
    }
  }

  /** Rebuilding keeps exactly the entries at most `window` seconds old, in their order, and never lengthens the list. */
  lemma RecentSpec(times: seq<real>, window: real, now: real)
    ensures |Recent(times, window, now)| <= |times|
    ensures AllRecent(Recent(times, window, now), window, now)
    ensures IsSubsequence(Recent(times, window, now), times)
    ensures forall t :: t in times && now - t <= window ==> t in Recent(times, window, now)
  {
    RecentFilter(times, window, now);
  }

  class ArpSpoofDetector {
    const window: real
    const threshold: int
    var ipMacMap: map<string, set<string>>
    var macChangeTimes: map<string, seq<real>>
    var raised: seq<ArpAlert>

    /** A list that reached the threshold was emptied, so none is left at or above it. */
    ghost predicate Valid()
      reads this
    {
      threshold >= 1 ==> forall ip :: ip in macChangeTimes ==> |macChangeTimes[ip]| < threshold
    }

    /** `window_seconds` and `arp_mac_change_threshold` from the loaded config. */
    constructor (windowSeconds: real, macChangeThreshold: int)
      ensures Valid()
      ensures window == windowSeconds && threshold == macChangeThreshold
      ensures ipMacMap == map[] && macChangeTimes == map[] && raised == []
    {
      window, threshold := windowSeconds, macChangeThreshold;
      ipMacMap, macChangeTimes, raised := map[], map[], [];
    }

    /** The `for` loop that copies the change times at most `window` seconds old. */
    method KeepRecent(changeTimes: seq<real>, now: real) returns (recentChanges: seq<real>)
      ensures recentChanges == Recent(changeTimes, window, now)
    {
      recentChanges := [];
      for i := 0 to |changeTimes|
        invariant recentChanges == Recent(changeTimes[..i], window, now)
      {
        assert changeTimes[..i + 1][..i] == changeTimes[..i];
        if now - changeTimes[i] <= window {
          recentChanges := recentChanges + [changeTimes[i]];
        }
      }
      assert changeTimes[..|changeTimes|] == changeTimes;
    }

    /**
     * `analyze_packet`. Packets without an ARP layer change nothing.
     * Otherwise the sender's address joins the IP's set, a change is
     * recorded as `IsChange` says, the list is rebuilt from its recent
     * entries, and an alert is raised, and the list emptied, exactly when
     * the rebuilt list has reached the threshold.
     */
    method AnalyzePacket(p: Packet, changeTime: real, now: real)
      requires Valid()
      modifies this
      ensures Valid()
      ensures p.arp.None? ==>
        ipMacMap == old(ipMacMap) && macChangeTimes == old(macChangeTimes) && raised == old(raised)
      ensures p.arp.Some? ==>
        var ip, mac := p.arp.value.psrc, p.arp.value.hwsrc;
        var known := MacsOf(old(ipMacMap), ip) + {mac};
        var recent := Recent(Recorded(ChangesOf(old(macChangeTimes), ip), MacsOf(old(ipMacMap), ip), mac, changeTime), window, now);
        && ipMacMap == old(ipMacMap)[ip := known]
        && if |recent| >= threshold then
             macChangeTimes == old(macChangeTimes)[ip := []]
             && raised == old(raised) + [ArpAlert(ip, mac, known, |recent|, window, None)]
           else
             macChangeTimes == old(macChangeTimes)[ip := recent] && raised == old(raised)
    {
      if p.arp.None? {
        return;
      }
      var ip, mac := p.arp.value.psrc, p.arp.value.hwsrc;
      var knownMacs := MacsOf(ipMacMap, ip);
      var changeTimes := ChangesOf(macChangeTimes, ip);
      if |knownMacs| > 0 {
        if mac !in knownMacs {
          changeTimes := changeTimes + [changeTime];
        }
      }
      assert changeTimes == Recorded(ChangesOf(macChangeTimes, ip), MacsOf(ipMacMap, ip), mac, changeTime);
      knownMacs := knownMacs + {mac};
      ipMacMap := ipMacMap[ip := knownMacs];
      var recentChanges := KeepRecent(changeTimes, now);
      var count := |recentChanges|;
      if count >= threshold {
        raised := raised + [ArpAlert(ip, mac, knownMacs, count, window, None)];
        recentChanges := [];
      }
      macChangeTimes := macChangeTimes[ip := recentChanges];
    }

    /** Seeing an IP again with an address already known for it never raises an alert. */
    method RepeatedPairIsQuiet(p: Packet, changeTime: real, now: real)
      requires Valid() && threshold >= 1
      requires p.arp.Some? && p.arp.value.psrc in ipMacMap && p.arp.value.hwsrc in ipMacMap[p.arp.value.psrc]
      modifies this
      ensures Valid()
      ensures raised == old(raised)
      ensures ipMacMap == old(ipMacMap)
    {
      var ip := p.arp.value.psrc;
      ChangeRecording(ChangesOf(macChangeTimes, ip), MacsOf(ipMacMap, ip), p.arp.value.hwsrc, changeTime);
      RecentSpec(ChangesOf(macChangeTimes, ip), window, now);
      assert MacsOf(ipMacMap, ip) + {p.arp.value.hwsrc} == ipMacMap[ip];
      AnalyzePacket(p, changeTime, now);
    }
  }
}
