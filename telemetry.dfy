/**
 * The stat record that the backend stores and the dashboard charts, and the
 * four metric names the dashboard recognises.
 */
module Telemetry {
  import opened Wrappers

  /** One rate sample `{metric, timestamp, value}`; timestamps are epoch seconds. */
  datatype Stat = Stat(metric: string, timestamp: real, value: real)

  const IcmpMetric: string := "icmp_packets_per_second"
  const SshMetric: string := "ssh_attempts_per_second"
  const ArpMetric: string := "arp_spoofing_attempts_per_second"
  const PortscanMetric: string := "portscan_attempts_per_second"

  /** The four charted metrics, one per detector. */
  datatype Metric = Icmp | Ssh | Arp | Portscan

  function Name(m: Metric): string
  {
    match m
    case Icmp => IcmpMetric
    case Ssh => SshMetric
    case Arp => ArpMetric
    case Portscan => PortscanMetric
  }

  /** The metric a stat's `metric` field selects, if any (the `if / else if` chain on `s.metric`). */
  function MetricOf(name: string): (r: Option<Metric>)
    ensures forall m: Metric :: r == Some(m) <==> Name(m) == name
  {
    if name == IcmpMetric then Some(Icmp)
    else if name == SshMetric then Some(Ssh)
    else if name == ArpMetric then Some(Arp)
    else if name == PortscanMetric then Some(Portscan)
    else None
  }

  /** The four names differ from each other: their first characters already do. */
  lemma NamesDistinct()
    ensures forall m1: Metric, m2: Metric :: Name(m1) == Name(m2) ==> m1 == m2
  {
    assert IcmpMetric[0] == 'i' && SshMetric[0] == 's' && ArpMetric[0] == 'a' && PortscanMetric[0] == 'p';
  }
}
