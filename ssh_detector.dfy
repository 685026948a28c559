/**
 * The SSH brute-force detector: per source address, a deque of the times
 * of its connection attempts (TCP SYNs to port 22), and per source the time
 * of its last alert. Reaching the threshold always empties the deque; it
 * raises an alert only when the source's last alert is at least 300 s old.
 */
module SshDetector {
  import opened Wrappers
  import opened Packets
  import opened SlidingWindow

  const SshPort: int := 22
  const AlertCooldown: real := 300.0
  const DefaultThreshold: int := 10

  /** Loopback and an internal service address are never tracked. */
  const IgnoreIps: set<string> := {"127.0.0.1", "169.233.192.122"}

  /** The payload handed to the shared alert hook. */
  datatype SshAlert = SshAlert(src: string, attempts: nat, windowSeconds: real)

  function AttemptsOf(recent: map<string, seq<real>>, src: string): seq<real>
  {
    if src in recent then recent[src] else []
  }

  /** A TCP SYN to port 22 from an address not on the ignore list. */
  predicate IsAttempt(p: Packet)
  {
    && p.ip.Some? && p.tcp.Some?
    && p.tcp.value.dport == SshPort
    && HasFlag(p.tcp.value.flags, SynFlag)
    && p.ip.value.src !in IgnoreIps
  }

  /** `_alerted_srcs.get(src, 0)`: a source never alerted on counts as alerted at time 0. */
  function LastAlert(alerted: map<string, real>, src: string): real
  {
    if src in alerted then alerted[src] else 0.0
  }

  class SshBruteforceDetector {
    const window: real
    const threshold: int
    var recentAttempts: map<string, seq<real>>
    var alertedSrcs: map<string, real>
    var raised: seq<SshAlert>
    /** Each raised alert's source and time, oldest first. */
    ghost var alertLog: seq<(string, real)>

    /**
     * No deque is left at the threshold; every logged alert is no later
     * than its source's recorded last alert; and two alerts for the same
     * source are at least the cooldown apart.
     */
    ghost predicate Valid()
      reads this
    {
      && (threshold >= 1 ==> forall src :: src in recentAttempts ==> |recentAttempts[src]| < threshold)
      && |alertLog| == |raised|
      && (forall i :: 0 <= i < |alertLog| ==> alertLog[i].0 == raised[i].src)
      && (forall i :: 0 <= i < |alertLog| ==> alertLog[i].0 in alertedSrcs && alertLog[i].1 <= alertedSrcs[alertLog[i].0])
      && (forall i, j :: 0 <= i < j < |alertLog| && alertLog[i].0 == alertLog[j].0 ==> alertLog[j].1 - alertLog[i].1 >= AlertCooldown)
    }

    /** `getattr(app_config, 'ssh_threshold_per_window', 10)`: a missing setting means 10. */
    constructor (windowSeconds: real, configuredThreshold: Option<int>)
      ensures Valid()
      ensures window == windowSeconds && threshold == configuredThreshold.GetOr(DefaultThreshold)
      ensures recentAttempts == map[] && alertedSrcs == map[] && raised == []
    {
      window := windowSeconds;
      threshold := configuredThreshold.GetOr(DefaultThreshold);
      recentAttempts, alertedSrcs, raised := map[], map[], [];
      alertLog := [];
    }

    /** `_prune_deque`: pop attempts older than `now - window` from the front. */
    method PruneDeque(dq: seq<real>, now: real) returns (r: seq<real>)
      ensures r == DropStale(dq, window, now)
    {
      var cutoff := now - window;
      r := dq;
      while r != [] && r[0] < cutoff
        invariant DropStale(r, window, now) == DropStale(dq, window, now)
        decreases |r|
      {
        DropStaleStep(r, window, now);
        r := r[1..];
      }
      DropStaleStep(r, window, now);
    }

    /**
     * `analyze_packet` with the clock reading `now`. Anything but a tracked
     * attempt changes nothing. An attempt is appended to its source's
     * deque, which is pruned; at the threshold the deque is emptied, and an
     * alert is raised, with the source's alert time set to `now`, exactly
     * when the cooldown since its last alert has passed.
     */
    method AnalyzePacket(p: Packet, now: real)
      requires Valid()
      modifies this
      ensures Valid()
      ensures !IsAttempt(p) ==>
        && recentAttempts == old(recentAttempts) && alertedSrcs == old(alertedSrcs) && raised == old(raised)
      ensures IsAttempt(p) ==>
        var src := p.ip.value.src;
        var kept := DropStale(AttemptsOf(old(recentAttempts), src) + [now], window, now);
        if |kept| < threshold then
          && recentAttempts == old(recentAttempts)[src := kept]
          && alertedSrcs == old(alertedSrcs) && raised == old(raised)
        else
          && recentAttempts == old(recentAttempts)[src := []]
          && if now - LastAlert(old(alertedSrcs), src) >= AlertCooldown then
               alertedSrcs == old(alertedSrcs)[src := now] && raised == old(raised) + [SshAlert(src, |kept|, window)]
             else
               alertedSrcs == old(alertedSrcs) && raised == old(raised)
    {
      if p.ip.None? || p.tcp.None? {
        return;
      }
      var ip, tcp := p.ip.value, p.tcp.value;
      if tcp.dport != SshPort {
        return;
      }
      if tcp.flags & SynFlag == 0 {
        return;
      }
      var src := ip.src;
      if src in IgnoreIps {
        return;
      }
      var dq := AttemptsOf(recentAttempts, src) + [now];
      dq := PruneDeque(dq, now);
      if |dq| >= threshold {
        var lastAlert := LastAlert(alertedSrcs, src);
        if now - lastAlert >= AlertCooldown {
          raised := raised + [SshAlert(src, |dq|, window)];
          alertLog := alertLog + [(src, now)];
          alertedSrcs := alertedSrcs[src := now];
        }
        dq := [];
      }
      recentAttempts := recentAttempts[src := dq];
    }
  }

  /** An SSH connection attempt from 192.168.1.55, as the simulation script sends it. */
  function SimAttempt(): Packet
  {
    Packet(Some(IpLayer("192.168.1.55", "10.0.0.1")), Some(TcpLayer(20, SshPort, SynFlag)), None, None, None)
  }

  /**
   * Twelve attempts from one source one second apart, window 10 s and
   * threshold 10: the tenth attempt raises the only alert, and the deque
   * then holds the last two.
   */
  method TwelveAttempts() returns (d: SshBruteforceDetector)
    ensures d.raised == [SshAlert("192.168.1.55", 10, 10.0)]
    ensures d.recentAttempts == map["192.168.1.55" := [1010.0, 1011.0]]
  {
    d := new SshBruteforceDetector(10.0, Some(10));
    var src := "192.168.1.55";
    assert IsAttempt(SimAttempt()) by {
      assert HasFlag(SynFlag, SynFlag);
      assert src !in IgnoreIps;
    }
    var i := 0;
    while i < 12
      invariant 0 <= i <= 12
      invariant d.Valid() && d.window == 10.0 && d.threshold == 10
      invariant i < 10 ==> d.raised == [] && d.alertedSrcs == map[]
      invariant i >= 10 ==> d.raised == [SshAlert(src, 10, 10.0)] && d.alertedSrcs == map[src := 1009.0]
      invariant d.recentAttempts == if i == 0 then map[] else map[src := Times(if i < 10 then 0 else 10, i)]
    {
      var lo := if i < 10 then 0 else 10;
      var now := 1000.0 + i as real;
      TimesSnoc(lo, i);
      assert AttemptsOf(d.recentAttempts, src) + [now] == Times(lo, i + 1) by {
        if i == 0 || i == 10 {
          assert Times(lo, i) == [];
        }
      }
      DropStaleStep(Times(lo, i + 1), 10.0, now);
      d.AnalyzePacket(SimAttempt(), now);
      i := i + 1;
    }
    assert Times(11, 12) == [1011.0];
    assert Times(10, 12) == [1010.0, 1011.0];
  }

  /** The attempt times `1000 + k` for `lo <= k < hi`. */
  function Times(lo: nat, hi: nat): seq<real>
    decreases hi - lo
  {
    if lo >= hi then [] else [1000.0 + lo as real] + Times(lo + 1, hi)
  }

  lemma {:induction false} TimesSnoc(lo: nat, hi: nat)
    requires lo <= hi
    ensures |Times(lo, hi)| == hi - lo
    ensures Times(lo, hi) + [1000.0 + hi as real] == Times(lo, hi + 1)
    ensures Times(lo, hi + 1)[0] == 1000.0 + lo as real
    decreases hi - lo
  {
    if lo < hi {
      TimesSnoc(lo + 1, hi);
    }
  }
}
