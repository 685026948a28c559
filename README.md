# SlugShield IDS: a Dafny model of the dashboard state and the backend detectors

SlugShield is a small network intrusion-detection system. A Python backend
sniffs packets and runs per-source sliding-window detectors: ICMP flood, SSH
brute force, ARP spoofing in two variants, and port scan. Alerts and rate
samples ("stats") go to an in-memory store, which a websocket and a few HTTP
endpoints serve. A React dashboard merges two feeds into one bounded,
windowed view per metric with a rolling-mean baseline:

- a push feed (websocket messages `alert`, `stat`, `init`, `init_stats`);
- a pull feed (a 5-second refresh of four stats endpoints).

The model follows the shape of the code:

- Detectors, the alert store, the config module, the threshold table and the
  dashboard component are classes. Their fields hold the source's maps,
  deques, sets and state hooks. Their methods have `modifies` clauses and
  state the whole new state.
- Each such method is tied to a pure specification function: `Admit`,
  `NextBaseline`, `Push`, `MergeInit`, `DropStale`, `Recent`, `Recorded`,
  `Analyzed`, `Load`. The properties the code promises are lemmas about
  those functions.
- Loops in the source are loops in the model, with invariants: the deque
  pruning loops, ARP v1's rebuild loop, the YAML merge loop, the websocket
  stats loop and the per-batch `forEach`.
- Clocks (`time.time()`, `Date.now()`) are `now` parameters. ARP's two clock
  readings are two parameters (`changeTime`, `now`).
- The detectors' `self.alert(...)` hook is a `raised` sequence that grows by
  one payload per alert.
- A `defaultdict` read becomes a lookup with the default value: `DequeOf`,
  `AttemptsOf`, `MacsOf`, `EventsOf`, `SlowOf`.
- Rates and ratios are `real`.

Module layout, one file each:

- `Wrappers`, `Seqs`, `SlidingWindow`, `Packets` and `Telemetry` are shared
  helpers.
- `MetricWindows`, `AlertLedger` and `Dashboard` model `app.jsx`.
- `Alerting`, `IcmpFlood`, `SshDetector`, `ArpDetector` (the config-threshold
  variant), `ArpDetectorShared` (the shared-table variant), `PortScan`,
  `Config` and `Api` model the backend files of the same names.

## Model

| member | source | states |
|---|---|---|
| Seqs.FirstN | ids_frontend/src/app.jsx:59 | `slice(0, n)` is the prefix of length `min(n, len)` |
| Seqs.LastN | ids_frontend/src/app.jsx:70 | `slice(-n)` (and a deque with `maxlen`) is the suffix of length `min(n, len)` |
| Seqs.PyStart | ids_backend/alerting.py:57 | Python's slice-start normalisation: a negative start counts from the end, clamped to `[0, len]` |
| Telemetry.MetricOf | ids_frontend/src/app.jsx:67-107 | the `if / else if` chain on `s.metric` selects metric `m` exactly when the name is `m`'s name |
| Telemetry.NamesDistinct | ids_frontend/src/app.jsx:67-97 | the four metric names are pairwise different, so a stat reaches at most one window |
| AlertLedger.Push | ids_frontend/src/app.jsx:56-61 | a head with the same id (two absent ids count as equal) leaves the ledger as it was; otherwise the alert becomes the head, the old entries follow in order, and the length is `min(old + 1, 200)` |
| AlertLedger.PushStaysBounded | ids_frontend/src/app.jsx:56-61 | a ledger of at most 200 stays within 200 |
| AlertLedger.PushTwiceIsPushOnce | ids_frontend/src/app.jsx:56-61 | delivering the same alert twice in a row has the effect of delivering it once |
| AlertLedger.DuplicateBelowHeadIsReadmitted | ids_frontend/src/app.jsx:58 | suppression looks only at the head: an alert present further down is added again |
| AlertLedger.IdlessAlertSuppressed | ids_frontend/src/app.jsx:56-61 | two alerts without an `id` compare equal, so the second push leaves the ledger as the first left it |
| AlertLedger.MergeInit | ids_frontend/src/app.jsx:132 | `init` puts the server batch first, then the captured ledger, cut to 200, without deduplication; a batch of more than 200 leaves its own first 200 |
| AlertLedger.InitAfterPushDuplicates | ids_frontend/src/app.jsx:127-132 | an `init` after a push of the same alert holds that alert twice |
| AlertLedger.PushAfterInitIsSuppressed | ids_frontend/src/app.jsx:127-132 | a push after an `init` that delivered the same alert is suppressed |
| AlertLedger.FirstDigitIndex | ids_frontend/src/app.jsx:51 | the start of `/(\d+)/`'s match: the first digit's index, `None` iff there is no digit |
| AlertLedger.DigitPrefix | ids_frontend/src/app.jsx:51 | the greedy `\d+`: the maximal run of digits at the front |
| AlertLedger.FirstDigitRunOfSplit | ids_frontend/src/app.jsx:51 | for a digit-free prefix, a digit run and a rest not starting with a digit, the match is exactly that run |
| AlertLedger.HighPriorityCount | ids_frontend/src/app.jsx:50-53 | the high-priority count never exceeds the number of alerts |
| AlertLedger.HighPriorityMembers | ids_frontend/src/app.jsx:50-53 | an alert is counted iff it is in the ledger and its first number exceeds 50 |
| AlertLedger.HighPriorityReadsAddressOctet | ids_frontend/src/app.jsx:50-53 | for detector messages the first number is the first octet of the source address: 500 packets from 10.0.0.1 are not high priority, 3 from 192.168.1.5 are |
| MetricWindows.AdmitSpec | ids_frontend/src/app.jsx:68-71 | after `push_stat` a window holds at most 600 samples, none older than 600 s, each from the old window or the new sample; it is the newest 600 of the age-filtered `prev + [s]` (all of them if there are fewer), and a fresh `s` is its newest entry |
| MetricWindows.AdmitKeepsArrivalOrder | ids_frontend/src/app.jsx:68-71 | the window is a subsequence of `prev + [s]`: arrival order is kept |
| MetricWindows.AdmitAppends | ids_frontend/src/app.jsx:68-71 | with room left and everything fresh, admission is a plain append |
| MetricWindows.StaleSampleIsNotRetained | ids_frontend/src/app.jsx:69 | a sample older than 600 s never enters its window |
| MetricWindows.FreshSamplesAllKept | ids_frontend/src/app.jsx:68-71 | a run of fresh samples admitted below capacity is kept whole, in order |
| MetricWindows.ThreeSampleWindow | ids_frontend/src/app.jsx:68-71 | samples 10, 20, 30 at t = 0, 1, 2 seen at t = 2 are all kept, in order |
| MetricWindows.NextBaselineSpec | ids_frontend/src/app.jsx:72-76 | each sample appends exactly its own baseline point; older points are the newest of the previous series; the series is capped at 600 and never age-filtered |
| MetricWindows.BaselineOfEmptyWindow | ids_frontend/src/app.jsx:73-74 | with an empty captured window the baseline point is the sample's own value |
| MetricWindows.BaselineWithinRange | ids_frontend/src/app.jsx:73-75 | the baseline value lies within any range holding the captured values and the new value |
| MetricWindows.ThreeSampleBaseline | ids_frontend/src/app.jsx:72-76 | with the captured window up to date, samples 10, 20, 30 give baselines 10, 15, 20 |
| MetricWindows.StaleSampleStillExtendsBaseline | ids_frontend/src/app.jsx:68-76 | a stale sample is kept out of the window yet still adds a baseline point, so window and baseline lengths drift apart |
| MetricWindows.InitStatsPartition | ids_frontend/src/app.jsx:134-142 | `init_stats` puts a stat into metric `m`'s window iff it is in the message and names `m` |
| MetricWindows.TotalPacketsNonNegative | ids_frontend/src/app.jsx:42 | `totalPackets` is non-negative when every ICMP value is |
| Dashboard.ReadBody | ids_frontend/src/app.jsx:168-172 | a parsed body yields a batch only when it has a non-empty `stats` array |
| Dashboard.PullUnchecked | ids_frontend/src/app.jsx:157-162 | the ICMP pull reads the body without checking the status; a batch it yields is non-empty |
| Dashboard.PullChecked | ids_frontend/src/app.jsx:166-173 | the SSH, ARP and port-scan pulls skip a non-ok response; a batch they yield is non-empty |
| Dashboard.ChainPushedSomething | ids_frontend/src/app.jsx:151-200 | a tick pushes stats iff some pull before its first exception yielded a batch (the `hasNewData` flag) |
| Dashboard.NotOkResponseIsIsolated | ids_frontend/src/app.jsx:166-184 | a non-ok SSH response drops only the SSH batch; the ICMP, ARP and port-scan batches are still pushed, in order |
| Dashboard.FirstPullThrowingAbortsTick | ids_frontend/src/app.jsx:151-203 | an exception in the ICMP pull aborts the whole tick: nothing is pushed |
| Dashboard.IcmpStatusIsNotChecked | ids_frontend/src/app.jsx:157-162 | for every body, an ICMP response with an error status gives the same tick as an ok one |
| Dashboard.WindowsSnoc | ids_frontend/src/app.jsx:64-107 | one more stat changes only its own metric's window, by one admission; an unknown metric changes none |
| Dashboard.BaselinesSnoc | ids_frontend/src/app.jsx:64-107 | one more stat extends only its own metric's baseline, by one point over that metric's captured window |
| Dashboard.BatchAppend | ids_frontend/src/app.jsx:151-195 | two batches in a row act on windows and baselines as their concatenation |
| Dashboard.App.SetWindow | ids_frontend/src/app.jsx:14-20 | a window setter (`setIcmpStats`, ...) replaces that metric's window and nothing else |
| Dashboard.App.SetBaseline | ids_frontend/src/app.jsx:15-21 | a baseline setter (`setIcmpBaseline`, ...) replaces that metric's baseline and nothing else |
| Dashboard.App.constructor | ids_frontend/src/app.jsx:13-23 | the dashboard starts with no alerts, empty windows and baselines, status `ACTIVE` and no last-update time |
| Dashboard.App.PushAlert | ids_frontend/src/app.jsx:56-61 | `push_alert` sets the ledger to `Push(old, a)` and changes nothing else |
| Dashboard.App.PushStat | ids_frontend/src/app.jsx:64-110 | `push_stat` admits the stat into its own metric's window and adds one baseline point over the captured window; an unknown metric changes no series; the last-update time is set either way |
| Dashboard.App.PushBatch | ids_frontend/src/app.jsx:160 | `forEach(push_stat)` with one captured window equals admitting the batch per metric in order; baselines stay within 600 |
| Dashboard.App.HandleMessage | ids_frontend/src/app.jsx:125-143 | `alert` pushes and sets `ALERT`; `stat` admits; `init` merges and sets `ALERT` iff the batch is non-empty; `init_stats` replaces each window by its metric's stats and leaves baselines alone; any other message changes nothing; `ALERT` never reverts |
| Dashboard.App.ApplyPull | ids_frontend/src/app.jsx:159-162 | a pull that did not throw pushes exactly its batch |
| Dashboard.App.Accumulate | ids_frontend/src/app.jsx:157-184 | one more non-throwing pull in a tick extends the batch pushed so far by exactly its stats |
| Dashboard.App.PushPulls | ids_frontend/src/app.jsx:151-200 | the four pulls in order push exactly `Chain`'s stats, stopping at the first exception, and report `hasNewData` |
| Dashboard.App.FetchStats | ids_frontend/src/app.jsx:150-204 | the refresh tick pushes `RunTick`'s stats; the last-update time is set iff something was pushed, or the tick did not throw and it was still empty |
| Dashboard.App.InitialLoad | ids_frontend/src/app.jsx:113-121 | the mount-time load sets the ledger and the ICMP window to the fetched values and leaves the rest |
| Alerting.LastEntries | ids_backend/alerting.py:56-57 | `get_alerts(limit)` is the newest `limit` entries for a positive limit, all of them for `limit = 0`, and all but the oldest `k` for `limit = -k` |
| Alerting.StatsSinceExact | ids_backend/alerting.py:59-64 | `get_stats` returns exactly the stored stats of that metric at or after `now - since`, as a subsequence of the store |
| Alerting.BoundedAppend | ids_backend/alerting.py:11-12 | an append to a full deque drops its oldest entry; below capacity nothing is dropped |
| Alerting.AlertBroadcaster.constructor | ids_backend/alerting.py:10-13 | empty histories with the given capacities (1000 and 600 when omitted), no connections |
| Alerting.ModuleBroadcaster | ids_backend/alerting.py:66 | the module's `broadcaster` holds 1000 alerts and 600 stats and starts empty |
| Alerting.AlertBroadcaster.GetAlerts | ids_backend/alerting.py:56-57 | for a positive limit (100 by default), the newest `limit` alerts, oldest first |
| Alerting.AlertBroadcaster.GetStats | ids_backend/alerting.py:59-64 | exactly the stored stats of the metric at or after `now - since`, in stored order |
| Alerting.AlertBroadcaster.Register | ids_backend/alerting.py:15-16 | `register` adds the socket and touches no history |
| Alerting.AlertBroadcaster.Unregister | ids_backend/alerting.py:18-19 | `unregister` discards the socket; an unknown socket is no error |
| Alerting.AlertBroadcaster.PushAlert | ids_backend/alerting.py:47-49 | the alert is appended at the tail of a history capped at `maxAlerts`, whether or not a broadcast is scheduled |
| Alerting.AlertBroadcaster.PushStat | ids_backend/alerting.py:52-54 | the stat is appended at the tail of a history capped at `maxStats` |
| Alerting.ConnectionsAreASet | ids_backend/alerting.py:15-19 | registering twice is registering once; unregistering an unknown socket leaves the set unchanged |
| SlidingWindow.DropStaleSpec | ids_backend/detectors/icmp_flood.py:28-29 | the popping loop keeps a suffix whose front is recent, and every entry it dropped was stale |
| SlidingWindow.DropStaleOfSorted | ids_backend/detectors/icmp_flood.py:28-29 | on a time-ordered deque every kept entry is recent and the deque stays ordered |
| SlidingWindow.DropStaleNeedsOrder | ids_backend/detectors/icmp_flood.py:28-29 | on an unordered deque a stale entry can survive behind a recent one |
| SlidingWindow.AppendNowKeepsSorted | ids_backend/detectors/icmp_flood.py:25 | appending the current time keeps a deque of earlier times ordered |
| SlidingWindow.RecentFilter | ids_backend/arp_detector.py:72-81 | rebuilding keeps exactly the entries at most `window` old, in their order |
| IcmpFlood.IcmpCounterDetector.constructor | ids_backend/detectors/icmp_flood.py:7-11 | window and threshold from the config, no deques |
| IcmpFlood.IcmpCounterDetector.AnalyzePacket | ids_backend/detectors/icmp_flood.py:13-41 | no IP or ICMP layer: nothing changes; otherwise only the source's deque changes, to its pruned form; an alert with the pruned count is raised and the deque cleared iff that count reaches the threshold; no deque stays at the threshold |
| IcmpFlood.PrunedDequeIsRecent | ids_backend/detectors/icmp_flood.py:25-30 | for an ordered deque the pruned deque ends with the new packet, is ordered and all recent, and only stale entries were dropped |
| SshDetector.SshBruteforceDetector.constructor | ids_backend/ssh_detector.py:21-42 | a missing threshold setting means 10; no attempts, no alerts |
| SshDetector.SshBruteforceDetector.PruneDeque | ids_backend/ssh_detector.py:44-48 | `_prune_deque` pops attempts older than `now - window` from the front |
| SshDetector.SshBruteforceDetector.AnalyzePacket | ids_backend/ssh_detector.py:59-135 | only a SYN to port 22 from a non-ignored address changes state; at the threshold the deque is always cleared, and an alert is raised and the alert time set iff 300 s have passed since the last one (0 when none); two alerts for one source are at least 300 s apart |
| SshDetector.TwelveAttempts | test_ssh_sim.py:38-47 | twelve attempts with threshold 10 raise one alert, on the tenth; the test sends them back to back, and the model's 1 s spacing is its own choice (any spacing inside the 10 s window gives the same result) |
| ArpDetector.ChangeRecording | ids_backend/arp_detector.py:54-62 | the first address for an IP records no change, a known address records none, a new address for a known IP records one |
| ArpDetector.RecentSpec | ids_backend/arp_detector.py:68-81 | the rebuilt change list keeps exactly the recent entries, in order, and never grows |
| ArpDetector.ArpSpoofDetector.constructor | ids_backend/arp_detector.py:28-38 | window and threshold from the config, empty maps |
| ArpDetector.ArpSpoofDetector.KeepRecent | ids_backend/arp_detector.py:72-81 | the copying loop yields the recent change times, in order |
| ArpDetector.ArpSpoofDetector.AnalyzePacket | ids_backend/arp_detector.py:40-103 | non-ARP: nothing changes; otherwise the address joins the IP's set, a change is recorded as `ChangeRecording` says, the list becomes its recent part, and an alert is raised and the list cleared iff it reached the threshold; no list stays at the threshold |
| ArpDetector.ArpSpoofDetector.RepeatedPairIsQuiet | test_arp_unit.py:44-49 | seeing an IP again with a known address raises no alert and leaves the address map as it was |
| ArpDetectorShared.ThresholdOr | ids_backend/detectors/arp_detector.py:64 | `thresholds.get("arp", 3)`: the table's value when present, else the default |
| ArpDetectorShared.SharedArpSpoofDetector.constructor | ids_backend/detectors/arp_detector.py:22-31 | window from the config, the shared table, empty maps |
| ArpDetectorShared.SharedArpSpoofDetector.AnalyzePacket | ids_backend/detectors/arp_detector.py:33-84 | as the other ARP detector, with the threshold read from the shared table on each packet (3 when absent) and carried in the alert |
| Config.Get | ids_backend/config.py:37 | a lookup succeeds iff the key is present |
| Config.PutSpec | ids_backend/config.py:38-40 | after `d[k] = v`, `k` is bound to `v`, every other key keeps its binding, and the keys gain `k` |
| Config.UpdateWithSpec | ids_backend/config.py:38 | after `d.update(e)` a key takes its last value in `e` if `e` binds it, else keeps its value in `d` |
| Config.ThresholdTable.constructor | ids_backend/config.py:9-13 | the initial thresholds are ssh 10, icmp 20, arp 5 |
| Config.ConfigModule.constructor | ids_backend/config.py:18-24 | the module's defaults table |
| Config.ConfigModule.LoadConfigFile | ids_backend/config.py:29-43 | the result and the module's new `defaults` are those `Load` gives, including the failure cases |
| Config.NoFileGivesDefaults | ids_backend/config.py:30-34 | a missing or empty file gives exactly the defaults and changes nothing |
| Config.StepSpec | ids_backend/config.py:36-40 | a user item keeps every other key; a non-dict value or new key is assigned verbatim; a dict into an existing key succeeds iff that key's value is a dict |
| Config.MergeKeepsUnmentionedSubkeys | ids_backend/config.py:37-38 | a merged dict keeps the default sub-keys the user does not mention and takes the user's for the others |
| Config.UnmentionedKeyKeepsDefault | ids_backend/config.py:30-40 | a default key the user never mentions keeps its default value |
| Config.FailedLoadStops | ids_backend/config.py:36-40 | once an item raises, the items after it are never looked at |
| Config.SharedLoggingDict | ids_backend/config.py:30-38 | loading `logging: {level: DEBUG}` also rewrites the module's default `logging`, so a later load without a file reports DEBUG |
| Api.SetThreshold | ids_backend/api.py:34-40 | an unknown name gives the error and leaves the table; a known one changes only that entry and returns the whole table; the key set never changes |
| Api.StatsOfMetricsMembership | ids_backend/api.py:90-92 | the combined stats are exactly the stored stats of the named metrics within `since` seconds |
| Api.InitStatsOrder | ids_backend/api.py:90-92 | `init_stats` is the ICMP stats, then the SSH stats, then the ARP stats of the last 60 s |
| Api.InitStatsContents | ids_backend/api.py:90-97 | `init_stats` holds exactly the stored ICMP, SSH and ARP stats of the last 60 s, never a port-scan stat |
| Api.OpenWebsocket | ids_backend/api.py:79-97 | the socket is registered; `init` carries the newest 20 alerts and `init_stats` the recent stats; the histories are unchanged |
| Api.CloseWebsocket | ids_backend/api.py:102-103 | a disconnect unregisters the socket |
| PortScan.FlagClasses | ids_backend/detectors/port_scan_detector.py:229-260 | a SYN-ACK is never an attempt; attempts and SYN-ACKs are probes; SYN-ACK means both SYN and ACK are set |
| PortScan.Ratio | ids_backend/detectors/port_scan_detector.py:324 | `num / max(1, den)` if `num > 0`, else 0: zero without SYNs, the SYN count itself below one SYN-ACK, and never above the SYN count |
| PortScan.UnreachableRatio | ids_backend/detectors/port_scan_detector.py:338 | `icmp / max(1, udp)` if `udp > 0`, else 0: zero without UDP probes, between 0 and the unreachable count |
| PortScan.PortScanDetector.constructor | ids_backend/detectors/port_scan_detector.py:66-134 | settings from the config, the whitelist predicate, empty records |
| PortScan.PortScanDetector.PruneTimes | ids_backend/detectors/port_scan_detector.py:159-163 | `_prune_times` pops timestamps more than `window_s` old from the front |
| PortScan.PortScanDetector.ApplySlowDecay | ids_backend/detectors/port_scan_detector.py:179-191 | the source's four counters are scaled by the decay factor; the uniqueness sets are untouched |
| PortScan.PortScanDetector.AddProbe | ids_backend/detectors/port_scan_detector.py:250-257 | a probe's (host, port) pair and host join the source's fast and slow sets |
| PortScan.PortScanDetector.RecordAttempt | ids_backend/detectors/port_scan_detector.py:229-238 | a pure SYN is logged, counted and added to the uniqueness sets |
| PortScan.PortScanDetector.RecordSynAck | ids_backend/detectors/port_scan_detector.py:259-264 | a SYN-ACK is logged and counted for the packet's destination |
| PortScan.PortScanDetector.RecordRst | ids_backend/detectors/port_scan_detector.py:272-274 | a RST is logged for the source |
| PortScan.PortScanDetector.RecordTcpPacket | ids_backend/detectors/port_scan_detector.py:216-274 | the TCP branch is `RecordTcp` |
| PortScan.PortScanDetector.RecordUdpProbe | ids_backend/detectors/port_scan_detector.py:276-286 | a UDP probe is logged, counted and added to the uniqueness sets |
| PortScan.PortScanDetector.RecordUnreachable | ids_backend/detectors/port_scan_detector.py:288-298 | a port-unreachable is logged and counted for the packet's destination |
| PortScan.PortScanDetector.RecordPacket | ids_backend/detectors/port_scan_detector.py:213-298 | the recording phase is `Recorded`: decay, then the TCP, UDP and ICMP branches |
| PortScan.PortScanDetector.PruneSource | ids_backend/detectors/port_scan_detector.py:300-309 | only the source's deques change, to their pruned form |
| PortScan.PortScanDetector.Evaluate | ids_backend/detectors/port_scan_detector.py:354-397 | a rule is among the reasons iff it holds; reasons come in rule order; no UDP_SCAN with UDP detection off |
| PortScan.PortScanDetector.AnalyzePacket | ids_backend/detectors/port_scan_detector.py:199-442 | no IP layer or a whitelisted source: nothing changes; otherwise the state becomes `Analyzed`, and an alert with the source's metrics (`MetricsOf`, the block at lines 317-338) and the rules that hold is raised iff some rule holds; counters stay non-negative |
| PortScan.CountsStayNonNegative | ids_backend/detectors/port_scan_detector.py:179-298 | with a non-negative decay factor no slow counter ever goes negative |
| PortScan.AnalyzedLocal | ids_backend/detectors/port_scan_detector.py:199-309 | each address's records after a packet depend only on its own records before it |
| PortScan.TcpAtCounters | ids_backend/detectors/port_scan_detector.py:229-274 | the TCP rules add one attempt to the source for a pure SYN, one SYN-ACK to the destination for a SYN-ACK, and touch no UDP or ICMP record |
| PortScan.TcpAtUniques | ids_backend/detectors/port_scan_detector.py:229-257 | the TCP rules only grow the uniqueness sets, by the packet's pair for a flagged packet |
| PortScan.DecayOnceBeforeIncrement | ids_backend/detectors/port_scan_detector.py:179-286 | every analysed packet scales the source's counters by the decay factor once, before adding its own events |
| PortScan.SynAckCreditedToInitiator | ids_backend/detectors/port_scan_detector.py:259-264 | a SYN-ACK is counted for its destination, the initiator; the sender gains no attempt and is only decayed |
| PortScan.UniquesOnlyGrow | ids_backend/detectors/port_scan_detector.py:165-257 | uniqueness sets never shrink, other addresses' sets do not change, and a flagged packet's pair is recorded |
| PortScan.DropStalePrunes | ids_backend/detectors/port_scan_detector.py:159-163 | a pruned deque is its original without a stale front, and all recent when the original was ordered |
| PortScan.SourceDequesPruned | ids_backend/detectors/port_scan_detector.py:300-309 | the source's SYN, SYN-ACK and RST deques are pruned to the fast window; its UDP and ICMP deques only with UDP detection on |
| PortScan.UdpDequesIdleWhenDisabled | ids_backend/detectors/port_scan_detector.py:276-309 | with UDP detection off, the UDP and ICMP deques are neither recorded into nor pruned |
| PortScan.OtherAddressesUntouched | ids_backend/detectors/port_scan_detector.py:199-309 | addresses other than the packet's source and destination keep all their records |

## Where the code departs from its intended behaviour

Each entry first says what the system is meant to do, then what the code
does. The model follows the code in each case.

- **Baseline mean.** The intended baseline point is the mean of the values
  the window holds once the new sample is in. The code takes the mean over
  the window captured when the handler was created, plus the new value
  (`app.jsx:73`). That window is neither filtered by age nor updated within
  a pull batch. `render` carries it in the model.
- **Baseline length.** Each baseline series is meant to be as long as its
  window. In the code they diverge:
  - a stale sample is dropped from the window but still adds a point
    (`StaleSampleStillExtendsBaseline`);
  - the baseline is never age-filtered;
  - `init_stats` replaces windows and leaves baselines alone.
- **Pull-failure isolation.** The refresh tick is meant to skip a metric
  whose pull fails and still refresh the others. The code wraps all four
  pulls in one `try` (`app.jsx:151-200`):
  - a network error or a body that `json()` rejects aborts the rest of the
    tick; in the first pull it aborts the whole tick
    (`FirstPullThrowingAbortsTick`);
  - the ICMP pull never checks `ok`, so an error response is read like an
    ok one, for every body (`IcmpStatusIsNotChecked`);
  - only a non-ok SSH, ARP or port-scan response is skipped in isolation
    (`NotOkResponseIsIsolated`).
- **Duplicate key.** The ledger is meant to drop only a repeated delivery
  of the same alert. The code compares `id` with the head's `id`
  (`app.jsx:58`), and two absent ids compare equal. None of the backend
  detectors puts an `id` in its alert (`icmp_flood.py`, `ssh_detector.py`,
  `arp_detector.py`, `detectors/arp_detector.py`,
  `port_scan_detector.py:401-432`). So while the ledger's head has no `id`,
  every further pushed alert is dropped (`IdlessAlertSuppressed`).
- **UDP ratio guard.** The UDP-to-ICMP ratio is guarded by its denominator
  (`udp_slow > 0`, `port_scan_detector.py:338`). The SYN ratios are guarded
  by their numerator. `UnreachableRatio` models the former: unreachables
  with no UDP probes give 0.

## Left out

- I/O: packet capture, sockets, HTTP, `json`, websocket sends, `broadcast`
  and `_schedule_broadcast` scheduling. Responses and messages are inputs;
  the alert hook is the `raised` field.
- The dashboard's theme and localStorage code, `setInterval`, the
  `packetsDisplay` formatting, locale time strings and all rendering.
  `lastChecked` holds the tick's `now` in place of a formatted time.
- Dashboard.App.FetchStats: the tick runs at one instant. The four fetches'
  suspension points and interleaving with push messages are not modelled,
  and the `last_checked` the closure captured is taken to be the current
  field.
- The HTTP stats and alerts endpoints (`api.py:46-73`) are thin wrappers of
  `GetAlerts`/`GetStats`. The e-mail and test endpoints only build literals
  and send e-mail.
- SshDetector.SshBruteforceDetector.AnalyzePacket: the surrounding
  `try/except` is not modelled, because no modelled step raises. The
  commented-out stat push is absent too.
- PortScan.PortScanDetector.AnalyzePacket: `is_whitelisted` (CIDR parsing
  with `ipaddress`) is an abstract predicate given to the constructor. The
  alert omits the message strings, the `severity` literal and the `round()`
  applied to reported ratios. Debug prints are dropped.
- The port scan's per-destination port sets are one set of `(dst, port)`
  pairs. The source's "unique ports" metric is the pair count, equal to the
  sum of the per-destination set sizes.
- `defaultdict` reads that create empty entries are lookups with defaults,
  so the model's maps do not gain empty entries that the code's do.
  Observable behaviour is the same.
- YAML parsing: the user document is a parsed `Value` (or `None` for a
  missing file). Floats and other scalar kinds are not modelled.
- Floating point: rates, ratios, means and decays are exact `real`s.
- `centralized_detector` (the base class wiring `self.alert`) is not part of
  this model.
- The `icmp` and `ssh` entries of the threshold table are read by no
  modelled detector. The ICMP and SSH detectors take their thresholds from
  the loaded config.
