/**
 * The parts of a captured packet the detectors look at: an optional layer
 * per protocol (a layer the packet lacks is `None`) and the TCP flag bits.
 */
module Packets {
  import opened Wrappers

  datatype IpLayer = IpLayer(src: string, dst: string)

  /** `flags` is the integer value of the TCP flags field. */
  datatype TcpLayer = TcpLayer(sport: int, dport: int, flags: bv16)

  datatype UdpLayer = UdpLayer(dport: int)

  datatype IcmpLayer = IcmpLayer(icmpType: int, code: int)

  /** An ARP message's sender protocol address (`psrc`) and hardware address (`hwsrc`). */
  datatype ArpLayer = ArpLayer(psrc: string, hwsrc: string)

  datatype Packet = Packet(
    ip: Option<IpLayer>,
    tcp: Option<TcpLayer>,
    udp: Option<UdpLayer>,
    icmp: Option<IcmpLayer>,
    arp: Option<ArpLayer>)

  const FinFlag: bv16 := 0x01
  const SynFlag: bv16 := 0x02
  const RstFlag: bv16 := 0x04
  const AckFlag: bv16 := 0x10

  /** `flags & f` is non-zero. */
  predicate HasFlag(flags: bv16, f: bv16)
  {
    flags & f != 0
  }
}
