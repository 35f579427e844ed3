/** The translation rules shared by the two virtualization collectors
    (collector/libvirt_info.go, the full variant, and collector/vm_libvirt_info.go,
    the reduced one): what the libvirt library reports about a domain, the
    descriptors, and, as functions, what one pass sends, which library calls it
    makes and which error it returns. The collectors' methods are proved to
    behave as these functions say; the lemmas state the properties of the rules. */
module Libvirt {
  import opened Metrics

  // ---------------------------------------------------------------------------
  // What the library reports. Each query that can fail is a Result; queries
  // keyed by a device name are functions of that name.
  // ---------------------------------------------------------------------------

  /** A <disk> of the domain XML: its device class ("disk", "cdrom", "fd", ...),
      <source file=...> and <target dev=...>. */
  datatype Disk = Disk(device: string, sourceFile: string, targetDevice: string)

  /** An <interface> of the domain XML: <source bridge=...> and <target dev=...>. */
  datatype Interface = Interface(sourceBridge: string, targetDevice: string)

  /** The nova:instance metadata block; elements missing from the XML are "". */
  datatype NovaInstance = NovaInstance(name: string, flavorName: string, ownerProjectName: string)

  /** The parsed domain XML: UUID, nova metadata, disks and interfaces in document order. */
  datatype Topology = Topology(uuid: string, nova: NovaInstance, disks: seq<Disk>, interfaces: seq<Interface>)

  /** libvirt.DomainInfo (memory in KiB, CPU time in nanoseconds). */
  datatype DomainInfo = DomainInfo(state: nat, maxMem: nat, memory: nat, nrVirtCpu: nat, cpuTime: nat)

  /** A counter of a libvirt stats struct together with its `...Set` flag. */
  datatype Field = Field(isSet: bool, value: int)

  /** libvirt.DomainCPUStats */
  datatype DomainCPUStats = DomainCPUStats(cpuTime: Field, userTime: Field, systemTime: Field, vcpuTime: Field)

  /** GetCPUStats(-1, 0, 0) reports the whole domain as one entry; the collector
      reads entry 0 without checking, so the model's list is never empty. */
  type CPUStatsList = s: seq<DomainCPUStats> | |s| >= 1
    witness [DomainCPUStats(Field(false, 0), Field(false, 0), Field(false, 0), Field(false, 0))]

  /** libvirt.DomainMemoryStat: a tag saying what the value means, and the value. */
  datatype DomainMemoryStat = DomainMemoryStat(tag: int, val: nat)

  /** libvirt.DomainBlockInfo */
  datatype DomainBlockInfo = DomainBlockInfo(capacity: nat, allocation: nat, physical: nat)

  /** libvirt.DomainBlockStats (the Errs counter is not used by either collector). */
  datatype DomainBlockStats = DomainBlockStats(
    rdBytes: Field, rdReq: Field, rdTotalTimes: Field,
    wrBytes: Field, wrReq: Field, wrTotalTimes: Field,
    flushReq: Field, flushTotalTimes: Field)

  /** libvirt.DomainInterfaceStats */
  datatype DomainInterfaceStats = DomainInterfaceStats(
    rxBytes: Field, rxPackets: Field, rxErrs: Field, rxDrop: Field,
    txBytes: Field, txPackets: Field, txErrs: Field, txDrop: Field)

  /** A domain handle and the answers its queries give. `xmlDesc` fails when
      GetXMLDesc fails or the XML does not unmarshal. */
  datatype Domain = Domain(
    xmlDesc: Result<Topology>,
    name: Result<string>,
    info: Result<DomainInfo>,
    cpuStats: Result<CPUStatsList>,
    memoryStats: Result<seq<DomainMemoryStat>>,
    blockStats: string -> Result<DomainBlockStats>,
    blockInfo: string -> Result<DomainBlockInfo>,
    interfaceStats: string -> Result<DomainInterfaceStats>)

  /** The hypervisor as one scrape sees it: whether NewConnect fails, the ids of
      the active domains, how many inactive domains ListAllDomains returns, and
      what LookupDomainById answers for each id. */
  datatype Hypervisor = Hypervisor(
    connect: Option<Error>,
    listDomains: Result<seq<nat>>,
    listAllInactive: Result<nat>,
    lookupDomainById: nat -> Result<Domain>)

  /** The library calls a collection pass makes, in the order it makes them. */
  datatype Call =
    | NewConnect | ListDomains | ListAllDomains | LookupDomainById(id: nat)
    | GetXMLDesc | GetName | GetInfo | GetCPUStats | MemoryStats
    | BlockStats(device: string) | GetBlockInfo(device: string) | InterfaceStats(device: string)

  ghost predicate InRange(h: nat, lo: nat, hi: nat) {
    lo <= h < hi
  }

  /** Library handles (connections, domains) are modelled as numbers handed out
      in increasing order; these are handles lo, lo + 1, ..., hi - 1. */
  ghost function Handles(lo: nat, hi: nat): set<nat> {
    set h: nat | lo <= h < hi && InRange(h, lo, hi)
  }

  /** Which of the two collectors: libvirt_info.go (Full) or vm_libvirt_info.go (Reduced). */
  datatype Variant = Full | Reduced

  // ---------------------------------------------------------------------------
  // Descriptors (NewLibvirtExporter / NewLibvirtCollector)
  // ---------------------------------------------------------------------------

  const DomainLabels: seq<string> := ["domain", "uuid", "name", "flavor", "project_name"]
  const BlockLabels: seq<string> := DomainLabels + ["source_file", "target_device"]
  const InterfaceLabels: seq<string> := DomainLabels + ["source_bridge", "target_device"]

  /** The descriptors the collectors send under (the Desc fields of
      LibvirtExporter / libvirtCollector). */
  datatype Desc =
      UpDesc | ActiveDesc | TotalDesc | StateDesc | MaxMemDesc | MemoryDesc | NrVirtCpuDesc
    | CpuTimeDesc | CpuCpuTimeDesc | CpuUserTimeDesc | CpuSystemTimeDesc | CpuVcpuTimeDesc
    | MemUnusedDesc | MemAvailableDesc | MemUsableDesc | MemRssDesc | MemLastUpdateDesc
    | BlockCapacityDesc | BlockAllocationDesc | BlockPhysicalDesc | BlockRdBytesDesc
    | BlockRdReqDesc | BlockRdTotalTimesDesc | BlockWrBytesDesc | BlockWrReqDesc
    | BlockWrTotalTimesDesc | BlockFlushReqDesc | BlockFlushTotalTimesDesc | IfRxBytesDesc
    | IfRxPacketsDesc | IfRxErrsDesc | IfRxDropDesc | IfTxBytesDesc | IfTxPacketsDesc
    | IfTxErrsDesc | IfTxDropDesc

  /** The fully-qualified name of each descriptor, as
      prometheus.BuildFQName("libvirt", subsystem, name) builds it. */
  function FqName(d: Desc): string {
    match d
    case UpDesc => "libvirt_up"
    case ActiveDesc => "libvirt_active"
    case TotalDesc => "libvirt_total"
    case StateDesc => "libvirt_domain_info_domain_state"
    case MaxMemDesc => "libvirt_domain_info_maximum_memory_bytes"
    case MemoryDesc => "libvirt_domain_info_memory_usage_bytes"
    case NrVirtCpuDesc => "libvirt_domain_info_virtual_cpus"
    case CpuTimeDesc => "libvirt_domain_info_cpu_time_seconds_total"
    case CpuCpuTimeDesc => "libvirt_domain_cpu_state_cpu_cpu_time_ns"
    case CpuUserTimeDesc => "libvirt_domain_cpu_state_cpu_user_time_ns"
    case CpuSystemTimeDesc => "libvirt_domain_cpu_state_cpu_system_time_ns"
    case CpuVcpuTimeDesc => "libvirt_domain_cpu_state_cpu_vcpu_time_ns"
    case MemUnusedDesc => "libvirt_domain_mem_state_mem_unused"
    case MemAvailableDesc => "libvirt_domain_mem_state_mem_available"
    case MemUsableDesc => "libvirt_domain_mem_state_mem_usable"
    case MemRssDesc => "libvirt_domain_mem_state_mem_rss"
    case MemLastUpdateDesc => "libvirt_domain_mem_state_mem_last_update"
    case BlockCapacityDesc => "libvirt_domain_block_stats_block_capacity"
    case BlockAllocationDesc => "libvirt_domain_block_stats_block_allocation"
    case BlockPhysicalDesc => "libvirt_domain_block_stats_block_physical"
    case BlockRdBytesDesc => "libvirt_domain_block_stats_read_bytes_total"
    case BlockRdReqDesc => "libvirt_domain_block_stats_read_requests_total"
    case BlockRdTotalTimesDesc => "libvirt_domain_block_stats_read_seconds_total"
    case BlockWrBytesDesc => "libvirt_domain_block_stats_write_bytes_total"
    case BlockWrReqDesc => "libvirt_domain_block_stats_write_requests_total"
    case BlockWrTotalTimesDesc => "libvirt_domain_block_stats_write_seconds_total"
    case BlockFlushReqDesc => "libvirt_domain_block_stats_flush_requests_total"
    case BlockFlushTotalTimesDesc => "libvirt_domain_block_stats_flush_seconds_total"
    case IfRxBytesDesc => "libvirt_domain_interface_stats_receive_bytes_total"
    case IfRxPacketsDesc => "libvirt_domain_interface_stats_receive_packets_total"
    case IfRxErrsDesc => "libvirt_domain_interface_stats_receive_errors_total"
    case IfRxDropDesc => "libvirt_domain_interface_stats_receive_drops_total"
    case IfTxBytesDesc => "libvirt_domain_interface_stats_transmit_bytes_total"
    case IfTxPacketsDesc => "libvirt_domain_interface_stats_transmit_packets_total"
    case IfTxErrsDesc => "libvirt_domain_interface_stats_transmit_errors_total"
    case IfTxDropDesc => "libvirt_domain_interface_stats_transmit_drops_total"
  }

  /** The label names of each descriptor. */
  function LabelNames(d: Desc): seq<string> {
    match d
    case UpDesc | ActiveDesc | TotalDesc => []
    case StateDesc | MaxMemDesc | MemoryDesc | NrVirtCpuDesc | CpuTimeDesc | CpuCpuTimeDesc | CpuUserTimeDesc | CpuSystemTimeDesc | CpuVcpuTimeDesc | MemUnusedDesc | MemAvailableDesc | MemUsableDesc | MemRssDesc | MemLastUpdateDesc
      => DomainLabels
    case BlockCapacityDesc | BlockAllocationDesc | BlockPhysicalDesc | BlockRdBytesDesc | BlockRdReqDesc | BlockRdTotalTimesDesc | BlockWrBytesDesc | BlockWrReqDesc | BlockWrTotalTimesDesc | BlockFlushReqDesc | BlockFlushTotalTimesDesc
      => BlockLabels
    case IfRxBytesDesc | IfRxPacketsDesc | IfRxErrsDesc | IfRxDropDesc | IfTxBytesDesc | IfTxPacketsDesc | IfTxErrsDesc | IfTxDropDesc
      => InterfaceLabels
  }

  function Arity(d: Desc): nat {
    |LabelNames(d)|
  }


  // ---------------------------------------------------------------------------
  // Units and labels
  // ---------------------------------------------------------------------------

  /** float64(kib) * 1024 */
  function KiBToBytes(kib: nat): real {
    (kib * 1024) as real
  }

  /** float64(ns) / 1e9 */
  function NanosToSeconds(ns: int): real {
    ns as real / 1000000000.0
  }

  /** The per-domain label values, built the way CollectDomain builds them. */
  function DomainLabelValues(exportNovaMetadata: bool, name: string, topo: Topology): (r: seq<string>)
    ensures exportNovaMetadata ==> |r| == |DomainLabels|
    ensures !exportNovaMetadata ==> |r| == 2 < |DomainLabels|
    ensures r[..2] == [name, topo.uuid]
    ensures exportNovaMetadata ==> r[2..] == [topo.nova.name, topo.nova.flavorName, topo.nova.ownerProjectName]
  {
    if exportNovaMetadata then [name, topo.uuid, topo.nova.name, topo.nova.flavorName, topo.nova.ownerProjectName]
    else [name, topo.uuid]
  }

  // ---------------------------------------------------------------------------
  // Set-flag-gated counters
  // ---------------------------------------------------------------------------

  datatype Unit = Raw | Nanoseconds

  /** One `if stats.XSet { ch <- MustNewConstMetric(desc, CounterValue, float64(stats.X)[/1e9], labels...) }`. */
  datatype Counter = Counter(desc: Desc, field: Field, unit: Unit)

  function CounterReading(c: Counter): real {
    if c.unit == Nanoseconds then NanosToSeconds(c.field.value) else c.field.value as real
  }

  function GateSample(c: Counter, labels: seq<string>): Sample<Desc> {
    Sample(c.desc, CounterValue, CounterReading(c), labels)
  }

  function Gate(c: Counter, labels: seq<string>): seq<Sample<Desc>> {
    if c.field.isSet then [GateSample(c, labels)] else []
  }

  /** The samples of a run of gated counters, in table order. */
  function Gates(cs: seq<Counter>, labels: seq<string>): seq<Sample<Desc>>
    decreases |cs|
  {
    if cs == [] then [] else Gate(cs[0], labels) + Gates(cs[1..], labels)
  }

  /** Adding one more gated counter at the end adds its sample, if any, at the end. */
  lemma {:induction false} GatesSnoc(cs: seq<Counter>, c: Counter, labels: seq<string>)
    ensures Gates(cs + [c], labels) == Gates(cs, labels) + Gate(c, labels)
    decreases |cs|
  {
    if cs != [] {
      assert (cs + [c])[1..] == cs[1..] + [c];
      GatesSnoc(cs[1..], c, labels);
    }
  }

  /** The CPU breakdown counters, in emission order; none is scaled. */
  function CpuCounters(s: DomainCPUStats): seq<Counter> {
    [ Counter(CpuCpuTimeDesc, s.cpuTime, Raw), Counter(CpuSystemTimeDesc, s.systemTime, Raw),
      Counter(CpuUserTimeDesc, s.userTime, Raw), Counter(CpuVcpuTimeDesc, s.vcpuTime, Raw) ]
  }

  /** The block counters, in emission order; the three times are nanoseconds. */
  function BlockCounters(s: DomainBlockStats): seq<Counter> {
    [ Counter(BlockRdBytesDesc, s.rdBytes, Raw), Counter(BlockRdReqDesc, s.rdReq, Raw),
      Counter(BlockRdTotalTimesDesc, s.rdTotalTimes, Nanoseconds),
      Counter(BlockWrBytesDesc, s.wrBytes, Raw), Counter(BlockWrReqDesc, s.wrReq, Raw),
      Counter(BlockWrTotalTimesDesc, s.wrTotalTimes, Nanoseconds),
      Counter(BlockFlushReqDesc, s.flushReq, Raw),
      Counter(BlockFlushTotalTimesDesc, s.flushTotalTimes, Nanoseconds) ]
  }

  /** The interface counters, in emission order; none is scaled. */
  function InterfaceCounters(s: DomainInterfaceStats): seq<Counter> {
    [ Counter(IfRxBytesDesc, s.rxBytes, Raw), Counter(IfRxPacketsDesc, s.rxPackets, Raw),
      Counter(IfRxErrsDesc, s.rxErrs, Raw), Counter(IfRxDropDesc, s.rxDrop, Raw),
      Counter(IfTxBytesDesc, s.txBytes, Raw), Counter(IfTxPacketsDesc, s.txPackets, Raw),
      Counter(IfTxErrsDesc, s.txErrs, Raw), Counter(IfTxDropDesc, s.txDrop, Raw) ]
  }

  // ---------------------------------------------------------------------------
  // One domain (CollectDomain)
  // ---------------------------------------------------------------------------

  /** The five domain-info samples, always sent together and in this order. */
  function InfoSamples(info: DomainInfo, labels: seq<string>): seq<Sample<Desc>> {
    [ Sample(StateDesc, GaugeValue, info.state as real, labels),
      Sample(MaxMemDesc, GaugeValue, KiBToBytes(info.maxMem), labels),
      Sample(MemoryDesc, GaugeValue, KiBToBytes(info.memory), labels),
      Sample(NrVirtCpuDesc, GaugeValue, info.nrVirtCpu as real, labels),
      Sample(CpuTimeDesc, CounterValue, NanosToSeconds(info.cpuTime), labels) ]
  }

  function InfoTrace(r: Result<DomainInfo>, labels: seq<string>): Trace<Desc, Call> {
    match r
    case Err(e) => Trace([], [GetInfo], Some(e))
    case Ok(info) => Trace(InfoSamples(info, labels), [GetInfo], None)
  }

  function CpuTrace(r: Result<CPUStatsList>, labels: seq<string>): Trace<Desc, Call> {
    match r
    case Err(e) => Trace([], [GetCPUStats], Some(e))
    case Ok(states) => Trace(Gates(CpuCounters(states[0]), labels), [GetCPUStats], None)
  }

  /** The memory-statistic tag dispatch: 4 unused, 5 available, 7 rss, 8 usable,
      9 last update; every other tag has no descriptor. */
  function MemDesc(tag: int): (r: Option<Desc>)
    ensures r.Some? <==> tag in {4, 5, 7, 8, 9}
    ensures r.Some? ==> LabelNames(r.value) == DomainLabels
  {
    match tag
    case 4 => Some(MemUnusedDesc)
    case 5 => Some(MemAvailableDesc)
    case 7 => Some(MemRssDesc)
    case 8 => Some(MemUsableDesc)
    case 9 => Some(MemLastUpdateDesc)
    case _ => None
  }

  function MemSamples(m: DomainMemoryStat, labels: seq<string>): seq<Sample<Desc>> {
    match MemDesc(m.tag)
    case Some(d) => [Sample(d, GaugeValue, m.val as real, labels)]
    case None => []
  }

  function MemStep(labels: seq<string>): DomainMemoryStat -> Trace<Desc, Call> {
    m => Trace(MemSamples(m, labels), [], None)
  }

  function MemTrace(r: Result<seq<DomainMemoryStat>>, labels: seq<string>): Trace<Desc, Call> {
    match r
    case Err(e) => Trace([], [MemoryStats], Some(e))
    case Ok(stats) => Then(Trace([], [MemoryStats], None), Steps(stats, MemStep(labels)))
  }

  /** CD-ROM and floppy disks are left out. */
  predicate SkippedDisk(d: Disk) {
    d.device == "cdrom" || d.device == "fd"
  }

  function BlockInfoSamples(bi: DomainBlockInfo, labels: seq<string>): seq<Sample<Desc>> {
    [ Sample(BlockCapacityDesc, GaugeValue, bi.capacity as real, labels),
      Sample(BlockAllocationDesc, GaugeValue, bi.allocation as real, labels),
      Sample(BlockPhysicalDesc, GaugeValue, bi.physical as real, labels) ]
  }

  /** One iteration of the disk loop. The Full variant queries BlockStats, then
      GetBlockInfo, and sends the three sizes before the counters; the Reduced
      variant queries BlockStats only. */
  function DiskTrace(v: Variant, dom: Domain, labels: seq<string>, d: Disk): Trace<Desc, Call> {
    if SkippedDisk(d) then Quiet()
    else
      var dev := d.targetDevice;
      var diskLabels := labels + [d.sourceFile, dev];
      match dom.blockStats(dev)
      case Err(e) => Trace([], [BlockStats(dev)], Some(e))
      case Ok(bs) =>
        if v.Reduced? then Trace(Gates(BlockCounters(bs), diskLabels), [BlockStats(dev)], None)
        else
          match dom.blockInfo(dev)
          case Err(e) => Trace([], [BlockStats(dev), GetBlockInfo(dev)], Some(e))
          case Ok(bi) =>
            Trace(BlockInfoSamples(bi, diskLabels) + Gates(BlockCounters(bs), diskLabels),
                  [BlockStats(dev), GetBlockInfo(dev)], None)
  }

  function DiskStep(v: Variant, dom: Domain, labels: seq<string>): Disk -> Trace<Desc, Call> {
    d => DiskTrace(v, dom, labels, d)
  }

  /** Interfaces without a target device are left out. */
  predicate SkippedInterface(i: Interface) {
    i.targetDevice == ""
  }

  /** One iteration of the interface loop. */
  function InterfaceTrace(dom: Domain, labels: seq<string>, i: Interface): Trace<Desc, Call> {
    if SkippedInterface(i) then Quiet()
    else
      var dev := i.targetDevice;
      match dom.interfaceStats(dev)
      case Err(e) => Trace([], [InterfaceStats(dev)], Some(e))
      case Ok(st) => Trace(Gates(InterfaceCounters(st), labels + [i.sourceBridge, dev]), [InterfaceStats(dev)], None)
  }

  function InterfaceStep(dom: Domain, labels: seq<string>): Interface -> Trace<Desc, Call> {
    i => InterfaceTrace(dom, labels, i)
  }

  /** CollectDomain: XML, name, info, then (Full only) CPU and memory statistics,
      then the disks, then the interfaces; the first error ends the domain. */
  function DomainTrace(v: Variant, exportNovaMetadata: bool, dom: Domain): Trace<Desc, Call> {
    match dom.xmlDesc
    case Err(e) => Trace([], [GetXMLDesc], Some(e))
    case Ok(topo) =>
      match dom.name
      case Err(e) => Trace([], [GetXMLDesc, GetName], Some(e))
      case Ok(name) =>
        var labels := DomainLabelValues(exportNovaMetadata, name, topo);
        var head := Trace([], [GetXMLDesc, GetName], None);
        var info := Then(head, InfoTrace(dom.info, labels));
        var cpu := Then(info, if v.Full? then CpuTrace(dom.cpuStats, labels) else Quiet());
        var mem := Then(cpu, if v.Full? then MemTrace(dom.memoryStats, labels) else Quiet());
        var disks := Then(mem, Steps(topo.disks, DiskStep(v, dom, labels)));
        Then(disks, Steps(topo.interfaces, InterfaceStep(dom, labels)))
  }

  // ---------------------------------------------------------------------------
  // One scrape (CollectFromLibvirt and Update)
  // ---------------------------------------------------------------------------

  /** One iteration of the loop over active ids: a failed lookup is skipped. */
  function LookupStep(v: Variant, exportNovaMetadata: bool, hv: Hypervisor): nat -> Trace<Desc, Call> {
    (id: nat) => LookupTrace(v, exportNovaMetadata, hv, id)
  }

  function LookupTrace(v: Variant, exportNovaMetadata: bool, hv: Hypervisor, id: nat): Trace<Desc, Call> {
    match hv.lookupDomainById(id)
    case Err(_) => Trace([], [LookupDomainById(id)], None)
    case Ok(dom) => Then(Trace([], [LookupDomainById(id)], None), DomainTrace(v, exportNovaMetadata, dom))
  }

  /** What happens before the loop over active ids: connecting, listing, and
      (Full only) the active and total counts. */
  function HeadTrace(v: Variant, hv: Hypervisor, ids: seq<nat>): Trace<Desc, Call> {
    if v.Reduced? then Trace([], [NewConnect, ListDomains], None)
    else
      var active := Sample(ActiveDesc, GaugeValue, |ids| as real, []);
      match hv.listAllInactive
      case Err(e) => Trace([active], [NewConnect, ListDomains, ListAllDomains], Some(e))
      case Ok(n) =>
        Trace([active, Sample(TotalDesc, GaugeValue, (n + |ids|) as real, [])],
              [NewConnect, ListDomains, ListAllDomains], None)
  }

  function CollectTrace(v: Variant, exportNovaMetadata: bool, hv: Hypervisor): Trace<Desc, Call> {
    if hv.connect.Some? then Trace([], [NewConnect], hv.connect)
    else
      match hv.listDomains
      case Err(e) => Trace([], [NewConnect, ListDomains], Some(e))
      case Ok(ids) => Then(HeadTrace(v, hv, ids), Steps(ids, LookupStep(v, exportNovaMetadata, hv)))
  }

  function UpSample(success: bool): Sample<Desc> {
    Sample(UpDesc, GaugeValue, if success then 1.0 else 0.0, [])
  }

  /** Update: the pass, then the `up` gauge; samples already sent stay sent. */
  function UpdateTrace(v: Variant, exportNovaMetadata: bool, hv: Hypervisor): Trace<Desc, Call> {
    var t := CollectTrace(v, exportNovaMetadata, hv);
    Trace(t.samples + [UpSample(!t.Failed())], t.calls, t.failure)
  }

  // ---------------------------------------------------------------------------
  // Properties: Set-flag gating
  // ---------------------------------------------------------------------------

  predicate DistinctDescs(cs: seq<Counter>) {
    forall i, j :: 0 <= i < j < |cs| ==> cs[i].desc != cs[j].desc
  }

  /** The first sample in ss with descriptor d, if any: what a scrape shows for d. */
  function FirstWith(ss: seq<Sample<Desc>>, d: Desc): (r: Option<Sample<Desc>>)
    ensures r.Some? <==> exists k :: 0 <= k < |ss| && ss[k].desc == d
    ensures r.Some? ==> r.value in ss && r.value.desc == d
    decreases |ss|
  {
    if ss == [] then None
    else if ss[0].desc == d then Some(ss[0])
    else
      var r := FirstWith(ss[1..], d);
      assert forall k :: 0 < k < |ss| ==> ss[k] == ss[1..][k - 1];
      r
  }

  /** The value shown for d, if any sample with descriptor d was sent. */
  function Reading(ss: seq<Sample<Desc>>, d: Desc): Option<real> {
    match FirstWith(ss, d)
    case Some(x) => Some(x.value)
    case None => None
  }

  /** In a run of gated counters with distinct descriptors, counter j shows up
      exactly when its flag is set, and then with its own (scaled) reading. */
  lemma {:induction false} GatesShowTheSetCounters(cs: seq<Counter>, labels: seq<string>, j: nat)
    requires DistinctDescs(cs) && j < |cs|
    ensures FirstWith(Gates(cs, labels), cs[j].desc) ==
      if cs[j].field.isSet then Some(GateSample(cs[j], labels)) else None
    decreases |cs|
  {
    var g := Gates(cs, labels);
    var rest := Gates(cs[1..], labels);
    assert g == Gate(cs[0], labels) + rest;
    if j == 0 {
      if !cs[0].field.isSet {
        assert g == rest;
        forall k | 0 <= k < |rest|
          ensures rest[k].desc != cs[0].desc
        {
          GatesComeFromTheTable(cs[1..], labels, k);
        }
      }
    } else {
      GatesShowTheSetCounters(cs[1..], labels, j - 1);
      assert cs[1..][j - 1] == cs[j];
      if cs[0].field.isSet {
        assert g[1..] == rest;
      } else {
        assert g == rest;
      }
    }
  }

  /** Every sample of a run of gated counters is the sample of one of its set counters. */
  lemma {:induction false} GatesComeFromTheTable(cs: seq<Counter>, labels: seq<string>, k: nat)
    requires k < |Gates(cs, labels)|
    ensures exists j :: 0 <= j < |cs| && cs[j].field.isSet && Gates(cs, labels)[k] == GateSample(cs[j], labels)
    decreases |cs|
  {
    var g0 := Gate(cs[0], labels);
    if k < |g0| {
      assert Gates(cs, labels)[k] == GateSample(cs[0], labels);
    } else {
      GatesComeFromTheTable(cs[1..], labels, k - |g0|);
      var j :| 0 <= j < |cs[1..]| && cs[1..][j].field.isSet && Gates(cs[1..], labels)[k - |g0|] == GateSample(cs[1..][j], labels);
      assert cs[j + 1] == cs[1..][j];
    }
  }

  lemma CpuCountersDistinct(s: DomainCPUStats)
    ensures DistinctDescs(CpuCounters(s))
  {
  }

  lemma BlockCountersDistinct(s: DomainBlockStats)
    ensures DistinctDescs(BlockCounters(s))
  {
  }

  lemma InterfaceCountersDistinct(s: DomainInterfaceStats)
    ensures DistinctDescs(InterfaceCounters(s))
  {
  }

  /** Each CPU-time counter is shown exactly when its Set flag is, with its value. */
  lemma CpuStatsShown(s: DomainCPUStats, labels: seq<string>, j: nat)
    requires j < |CpuCounters(s)|
    ensures var c := CpuCounters(s)[j];
      Reading(Gates(CpuCounters(s), labels), c.desc) == if c.field.isSet then Some(CounterReading(c)) else None
    ensures var c := CpuCounters(s)[j];
      CounterReading(c) == c.field.value as real
  {
    CpuCountersDistinct(s);
    GatesShowTheSetCounters(CpuCounters(s), labels, j);
  }

  /** Each block counter of a disk is shown exactly when its Set flag is, with
      its reading: the three total times in seconds, the rest as reported. */
  lemma BlockStatsShown(s: DomainBlockStats, labels: seq<string>, j: nat)
    requires j < |BlockCounters(s)|
    ensures var c := BlockCounters(s)[j];
      Reading(Gates(BlockCounters(s), labels), c.desc) == if c.field.isSet then Some(CounterReading(c)) else None
    ensures var c := BlockCounters(s)[j];
      CounterReading(c) == if j in {2, 5, 7} then NanosToSeconds(c.field.value) else c.field.value as real
  {
    BlockCountersDistinct(s);
    GatesShowTheSetCounters(BlockCounters(s), labels, j);
  }

  /** Each interface counter is shown exactly when its Set flag is, with its value. */
  lemma InterfaceStatsShown(s: DomainInterfaceStats, labels: seq<string>, j: nat)
    requires j < |InterfaceCounters(s)|
    ensures var c := InterfaceCounters(s)[j];
      Reading(Gates(InterfaceCounters(s), labels), c.desc) == if c.field.isSet then Some(CounterReading(c)) else None
    ensures var c := InterfaceCounters(s)[j];
      CounterReading(c) == c.field.value as real
  {
    InterfaceCountersDistinct(s);
    GatesShowTheSetCounters(InterfaceCounters(s), labels, j);
  }

  // ---------------------------------------------------------------------------
  // Properties: domain info
  // ---------------------------------------------------------------------------

  /** GetInfo's result is sent as five samples, always all five and in this
      order: the state and the vCPU count as reported, both memory sizes from
      KiB into bytes, and the CPU time from nanoseconds into seconds; only the
      CPU time is a counter. A failed GetInfo sends nothing. */
  lemma InfoStatsShown(info: DomainInfo, labels: seq<string>, e: Error)
    ensures var ss := InfoTrace(Ok(info), labels).samples;
      |ss| == 5 && ss[0].desc == StateDesc && ss[1].desc == MaxMemDesc && ss[2].desc == MemoryDesc &&
      ss[3].desc == NrVirtCpuDesc && ss[4].desc == CpuTimeDesc
    ensures var ss := InfoTrace(Ok(info), labels).samples;
      |ss| == 5 && ss[0].value == info.state as real && ss[1].value == info.maxMem as real * 1024.0 &&
      ss[2].value == info.memory as real * 1024.0 && ss[3].value == info.nrVirtCpu as real &&
      ss[4].value == info.cpuTime as real / 1000000000.0
    ensures var ss := InfoTrace(Ok(info), labels).samples;
      forall k :: 0 <= k < |ss| ==> (ss[k].valueType == CounterValue <==> k == 4)
    ensures Labelled(InfoTrace(Ok(info), labels).samples, labels)
    ensures InfoTrace(Err(e), labels) == Trace([], [GetInfo], Some(e))
  {
  }

  // ---------------------------------------------------------------------------
  // Properties: memory statistics
  // ---------------------------------------------------------------------------

  /** Distinct recognised tags are reported under distinct descriptors. */
  lemma MemDescInjective(t1: int, t2: int)
    requires MemDesc(t1).Some? && MemDesc(t1) == MemDesc(t2)
    ensures t1 == t2
  {
  }

  /** The statistics whose tag has a descriptor, in the order libvirt returned them. */
  function Recognized(stats: seq<DomainMemoryStat>): (r: seq<DomainMemoryStat>)
    ensures |r| <= |stats|
    ensures forall k :: 0 <= k < |r| ==> r[k] in stats && MemDesc(r[k].tag).Some?
    decreases |stats|
  {
    if stats == [] then []
    else
      var last := stats[|stats| - 1];
      var r := Recognized(stats[..|stats| - 1]);
      if MemDesc(last.tag).Some? then r + [last] else r
  }

  /** The memory loop makes no library call and cannot fail. */
  lemma {:induction false} MemoryLoopQuiet(stats: seq<DomainMemoryStat>, labels: seq<string>)
    ensures Steps(stats, MemStep(labels)).calls == []
    ensures !Steps(stats, MemStep(labels)).Failed()
    decreases |stats|
  {
    if stats != [] {
      MemoryLoopQuiet(stats[..|stats| - 1], labels);
    }
  }

  /** The memory loop sends one gauge per recognised statistic, in order,
      carrying that statistic's value; statistics with any other tag leave no trace. */
  lemma {:induction false} MemoryLoopSendsRecognized(stats: seq<DomainMemoryStat>, labels: seq<string>)
    ensures |Steps(stats, MemStep(labels)).samples| == |Recognized(stats)|
    ensures forall k :: 0 <= k < |Recognized(stats)| ==>
      var m := Recognized(stats)[k];
      Steps(stats, MemStep(labels)).samples[k] == Sample(MemDesc(m.tag).value, GaugeValue, m.val as real, labels)
    decreases |stats|
  {
    if stats != [] {
      MemoryLoopQuiet(stats[..|stats| - 1], labels);
      MemoryLoopSendsRecognized(stats[..|stats| - 1], labels);
    }
  }

  // ---------------------------------------------------------------------------
  // Properties: skipped devices
  // ---------------------------------------------------------------------------

  /** A CD-ROM or floppy disk makes no call and sends nothing: dropping it from
      the domain XML changes nothing the disk loop does. */
  lemma SkippedDiskInvisible(v: Variant, dom: Domain, labels: seq<string>, disks: seq<Disk>, i: nat)
    requires i < |disks| && SkippedDisk(disks[i])
    ensures Steps(disks[..i] + disks[i + 1..], DiskStep(v, dom, labels)) == Steps(disks, DiskStep(v, dom, labels))
  {
    StepsSkipQuietElement(disks, DiskStep(v, dom, labels), i);
  }

  /** An interface without a target device makes no call and sends nothing. */
  lemma SkippedInterfaceInvisible(dom: Domain, labels: seq<string>, ifaces: seq<Interface>, i: nat)
    requires i < |ifaces| && SkippedInterface(ifaces[i])
    ensures Steps(ifaces[..i] + ifaces[i + 1..], InterfaceStep(dom, labels)) == Steps(ifaces, InterfaceStep(dom, labels))
  {
    StepsSkipQuietElement(ifaces, InterfaceStep(dom, labels), i);
  }

  // ---------------------------------------------------------------------------
  // Properties: labels
  // ---------------------------------------------------------------------------

  /** Every sample of ss carries exactly the label values lv. */
  predicate Labelled(ss: seq<Sample<Desc>>, lv: seq<string>) {
    forall k :: 0 <= k < |ss| ==> ss[k].labelValues == lv
  }

  lemma {:induction false} GatesLabelled(cs: seq<Counter>, labels: seq<string>)
    ensures Labelled(Gates(cs, labels), labels)
    decreases |cs|
  {
    if cs != [] {
      GatesLabelled(cs[1..], labels);
    }
  }

  lemma {:induction false} GatesWellFormed(cs: seq<Counter>, labels: seq<string>)
    requires forall k :: 0 <= k < |cs| ==> Arity(cs[k].desc) == |labels|
    ensures AllWellFormed(Gates(cs, labels), Arity)
    decreases |cs|
  {
    if cs != [] {
      GatesWellFormed(cs[1..], labels);
      assert forall k :: 0 <= k < |cs[1..]| ==> cs[1..][k] == cs[k + 1];
    }
  }

  lemma CpuSamplesWellFormed(dom: Domain, labels: seq<string>)
    requires |labels| == |DomainLabels|
    ensures AllWellFormed(CpuTrace(dom.cpuStats, labels).samples, Arity)
  {
    if dom.cpuStats.Ok? {
      GatesWellFormed(CpuCounters(dom.cpuStats.value[0]), labels);
    }
  }

  lemma MemorySamplesWellFormed(dom: Domain, labels: seq<string>)
    requires |labels| == |DomainLabels|
    ensures AllWellFormed(MemTrace(dom.memoryStats, labels).samples, Arity)
  {
    if dom.memoryStats.Ok? {
      StepsWellFormed(dom.memoryStats.value, MemStep(labels), Arity);
    }
  }

  /** Every sample of the disk loop carries one value per label name, and
      those values are the domain's, then the source file and the target
      device of a disk of the list that was not skipped. */
  lemma DiskSamplesWellFormed(v: Variant, dom: Domain, labels: seq<string>, disks: seq<Disk>)
    requires |labels| == |DomainLabels|
    ensures AllWellFormed(Steps(disks, DiskStep(v, dom, labels)).samples, Arity)
    ensures var ss := Steps(disks, DiskStep(v, dom, labels)).samples;
      forall k :: 0 <= k < |ss| ==>
        exists i :: 0 <= i < |disks| && !SkippedDisk(disks[i]) && ss[k].labelValues == labels + [disks[i].sourceFile, disks[i].targetDevice]
  {
    forall d | d in disks
      ensures AllWellFormed(DiskStep(v, dom, labels)(d).samples, Arity)
    {
      DiskWellFormed(v, dom, labels, d);
    }
    StepsWellFormed(disks, DiskStep(v, dom, labels), Arity);
    var ss := Steps(disks, DiskStep(v, dom, labels)).samples;
    forall k | 0 <= k < |ss|
      ensures exists i :: 0 <= i < |disks| && !SkippedDisk(disks[i]) && ss[k].labelValues == labels + [disks[i].sourceFile, disks[i].targetDevice]
    {
      StepsSampleFrom(disks, DiskStep(v, dom, labels), k);
      var i :| 0 <= i < |disks| && ss[k] in DiskStep(v, dom, labels)(disks[i]).samples;
      var t := DiskTrace(v, dom, labels, disks[i]);
      var m :| 0 <= m < |t.samples| && t.samples[m] == ss[k];
      DiskWellFormed(v, dom, labels, disks[i]);
      assert !SkippedDisk(disks[i]);
      assert ss[k].labelValues == t.samples[m].labelValues == labels + [disks[i].sourceFile, disks[i].targetDevice];
    }
  }

  /** The samples of one disk carry one value per label name: the domain's
      values, then the disk's source file and target device. A skipped disk
      sends nothing. */
  lemma DiskWellFormed(v: Variant, dom: Domain, labels: seq<string>, d: Disk)
    requires |labels| == |DomainLabels|
    ensures AllWellFormed(DiskTrace(v, dom, labels, d).samples, Arity)
    ensures Labelled(DiskTrace(v, dom, labels, d).samples, labels + [d.sourceFile, d.targetDevice])
    ensures SkippedDisk(d) ==> DiskTrace(v, dom, labels, d).samples == []
  {
    var r := dom.blockStats(d.targetDevice);
    if !SkippedDisk(d) && r.Ok? {
      var lv := labels + [d.sourceFile, d.targetDevice];
      if v.Full? && dom.blockInfo(d.targetDevice).Ok? {
        DiskSamplesLabelled(dom.blockInfo(d.targetDevice).value, r.value, lv);
      } else {
        GatesWellFormed(BlockCounters(r.value), lv);
        GatesLabelled(BlockCounters(r.value), lv);
      }
    }
  }

  lemma DiskSamplesLabelled(bi: DomainBlockInfo, bs: DomainBlockStats, lv: seq<string>)
    requires |lv| == |DomainLabels| + 2
    ensures AllWellFormed(BlockInfoSamples(bi, lv) + Gates(BlockCounters(bs), lv), Arity)
    ensures Labelled(BlockInfoSamples(bi, lv) + Gates(BlockCounters(bs), lv), lv)
  {
    var infos, gs := BlockInfoSamples(bi, lv), Gates(BlockCounters(bs), lv);
    BlockInfoWellFormed(bi, lv);
    BlockCountersArity(bs);
    GatesWellFormed(BlockCounters(bs), lv);
    GatesLabelled(BlockCounters(bs), lv);
    ThenWellFormed<Desc, Call>(Trace(infos, [], None), Trace(gs, [], None), Arity);
    LabelledAppend(infos, gs, lv);
  }

  lemma BlockInfoWellFormed(bi: DomainBlockInfo, lv: seq<string>)
    requires |lv| == |DomainLabels| + 2
    ensures AllWellFormed(BlockInfoSamples(bi, lv), Arity)
    ensures Labelled(BlockInfoSamples(bi, lv), lv)
  {
    assert LabelNames(BlockCapacityDesc) == BlockLabels;
    assert LabelNames(BlockAllocationDesc) == BlockLabels;
    assert LabelNames(BlockPhysicalDesc) == BlockLabels;
  }

  lemma BlockCountersArity(bs: DomainBlockStats)
    ensures forall k :: 0 <= k < |BlockCounters(bs)| ==> LabelNames(BlockCounters(bs)[k].desc) == BlockLabels
  {
    assert LabelNames(BlockRdBytesDesc) == LabelNames(BlockRdReqDesc) == LabelNames(BlockRdTotalTimesDesc) == BlockLabels;
    assert LabelNames(BlockWrBytesDesc) == LabelNames(BlockWrReqDesc) == LabelNames(BlockWrTotalTimesDesc) == BlockLabels;
    assert LabelNames(BlockFlushReqDesc) == LabelNames(BlockFlushTotalTimesDesc) == BlockLabels;
  }

  lemma LabelledAppend(a: seq<Sample<Desc>>, b: seq<Sample<Desc>>, lv: seq<string>)
    requires Labelled(a, lv) && Labelled(b, lv)
    ensures Labelled(a + b, lv)
  {
    forall k | 0 <= k < |a + b|
      ensures (a + b)[k].labelValues == lv
    {
      if k >= |a| {
        assert (a + b)[k] == b[k - |a|];
      }
    }
  }

  /** The samples of one interface carry one value per label name: the
      domain's values, then the bridge and the target device. An interface
      without a target device sends nothing. */
  lemma InterfaceWellFormed(dom: Domain, labels: seq<string>, i: Interface)
    requires |labels| == |DomainLabels|
    ensures AllWellFormed(InterfaceTrace(dom, labels, i).samples, Arity)
    ensures Labelled(InterfaceTrace(dom, labels, i).samples, labels + [i.sourceBridge, i.targetDevice])
    ensures SkippedInterface(i) ==> InterfaceTrace(dom, labels, i).samples == []
  {
    var r := dom.interfaceStats(i.targetDevice);
    if !SkippedInterface(i) && r.Ok? {
      GatesWellFormed(InterfaceCounters(r.value), labels + [i.sourceBridge, i.targetDevice]);
      GatesLabelled(InterfaceCounters(r.value), labels + [i.sourceBridge, i.targetDevice]);
    }
  }

  /** Every sample of the interface loop carries one value per label name, and
      those values are the domain's, then the bridge and the target device of
      an interface of the list that has a target device. */
  lemma InterfaceSamplesWellFormed(dom: Domain, labels: seq<string>, ifaces: seq<Interface>)
    requires |labels| == |DomainLabels|
    ensures AllWellFormed(Steps(ifaces, InterfaceStep(dom, labels)).samples, Arity)
    ensures var ss := Steps(ifaces, InterfaceStep(dom, labels)).samples;
      forall k :: 0 <= k < |ss| ==>
        exists j :: 0 <= j < |ifaces| && !SkippedInterface(ifaces[j]) && ss[k].labelValues == labels + [ifaces[j].sourceBridge, ifaces[j].targetDevice]
  {
    forall i | i in ifaces
      ensures AllWellFormed(InterfaceStep(dom, labels)(i).samples, Arity)
    {
      InterfaceWellFormed(dom, labels, i);
    }
    StepsWellFormed(ifaces, InterfaceStep(dom, labels), Arity);
    var ss := Steps(ifaces, InterfaceStep(dom, labels)).samples;
    forall k | 0 <= k < |ss|
      ensures exists j :: 0 <= j < |ifaces| && !SkippedInterface(ifaces[j]) && ss[k].labelValues == labels + [ifaces[j].sourceBridge, ifaces[j].targetDevice]
    {
      StepsSampleFrom(ifaces, InterfaceStep(dom, labels), k);
      var j :| 0 <= j < |ifaces| && ss[k] in InterfaceStep(dom, labels)(ifaces[j]).samples;
      var t := InterfaceTrace(dom, labels, ifaces[j]);
      var m :| 0 <= m < |t.samples| && t.samples[m] == ss[k];
      InterfaceWellFormed(dom, labels, ifaces[j]);
      assert !SkippedInterface(ifaces[j]);
      assert ss[k].labelValues == t.samples[m].labelValues == labels + [ifaces[j].sourceBridge, ifaces[j].targetDevice];
    }
  }

  /** With the nova labels on, every sample of a domain carries one value per
      label name, so no MustNewConstMetric call panics. */
  lemma DomainSamplesWellFormed(v: Variant, dom: Domain)
    ensures AllWellFormed(DomainTrace(v, true, dom).samples, Arity)
  {
    if dom.xmlDesc.Ok? && dom.name.Ok? {
      var topo := dom.xmlDesc.value;
      var labels := DomainLabelValues(true, dom.name.value, topo);
      var head: Trace<Desc, Call> := Trace([], [GetXMLDesc, GetName], None);
      var info := Then(head, InfoTrace(dom.info, labels));
      var cpu := Then(info, if v.Full? then CpuTrace(dom.cpuStats, labels) else Quiet());
      var mem := Then(cpu, if v.Full? then MemTrace(dom.memoryStats, labels) else Quiet());
      var disks := Then(mem, Steps(topo.disks, DiskStep(v, dom, labels)));
      CpuSamplesWellFormed(dom, labels);
      MemorySamplesWellFormed(dom, labels);
      DiskSamplesWellFormed(v, dom, labels, topo.disks);
      InterfaceSamplesWellFormed(dom, labels, topo.interfaces);
      ThenWellFormed(head, InfoTrace(dom.info, labels), Arity);
      ThenWellFormed(info, if v.Full? then CpuTrace(dom.cpuStats, labels) else Quiet(), Arity);
      ThenWellFormed(cpu, if v.Full? then MemTrace(dom.memoryStats, labels) else Quiet(), Arity);
      ThenWellFormed(mem, Steps(topo.disks, DiskStep(v, dom, labels)), Arity);
      ThenWellFormed(disks, Steps(topo.interfaces, InterfaceStep(dom, labels)), Arity);
    }
  }

  /** With the nova labels off, the first sample of any domain whose info is read
      already carries two values for five label names: MustNewConstMetric would panic. */
  lemma NovaOffBreaksArity(v: Variant, dom: Domain)
    requires dom.xmlDesc.Ok? && dom.name.Ok? && dom.info.Ok?
    ensures |DomainTrace(v, false, dom).samples| >= 1
    ensures !DomainTrace(v, false, dom).samples[0].WellFormed(Arity)
  {
  }

  // ---------------------------------------------------------------------------
  // Properties: the scrape
  // ---------------------------------------------------------------------------

  /** `up` is always the last sample, and it is 1 exactly when the pass returned
      no error; everything before it is what the pass sent, failed or not, and
      the calls and the error are the pass's. */
  lemma UpReportsTheOutcome(v: Variant, exportNovaMetadata: bool, hv: Hypervisor)
    ensures var u := UpdateTrace(v, exportNovaMetadata, hv);
      |u.samples| >= 1 && u.samples[|u.samples| - 1] == UpSample(u.failure == None)
    ensures var u, t := UpdateTrace(v, exportNovaMetadata, hv), CollectTrace(v, exportNovaMetadata, hv);
      u.samples[..|u.samples| - 1] == t.samples && u.calls == t.calls && u.failure == t.failure
    ensures var u := UpdateTrace(v, exportNovaMetadata, hv);
      u.samples[|u.samples| - 1].value == 1.0 <==> !u.Failed()
  {
  }

  /** When the connection cannot be opened nothing but `up` = 0 is sent. */
  lemma ConnectFailureReportsDown(v: Variant, exportNovaMetadata: bool, hv: Hypervisor)
    requires hv.connect.Some?
    ensures UpdateTrace(v, exportNovaMetadata, hv) == Trace([UpSample(false)], [NewConnect], hv.connect)
  {
  }

  /** In the Full variant the first two samples are the active count and the
      total count (inactive plus active). */
  lemma ActiveAndTotalFirst(exportNovaMetadata: bool, hv: Hypervisor)
    requires hv.connect.None? && hv.listDomains.Ok? && hv.listAllInactive.Ok?
    ensures var ss := CollectTrace(Full, exportNovaMetadata, hv).samples;
      var n := |hv.listDomains.value|;
      |ss| >= 2 && ss[0] == Sample(ActiveDesc, GaugeValue, n as real, []) &&
      ss[1] == Sample(TotalDesc, GaugeValue, (hv.listAllInactive.value + n) as real, [])
  {
  }

  /** An id whose lookup fails is skipped: apart from the lookup call itself the
      scrape is what it would be without that id. */
  lemma FailedLookupSkipped(v: Variant, exportNovaMetadata: bool, hv: Hypervisor, ids: seq<nat>, i: nat)
    requires i < |ids| && hv.lookupDomainById(ids[i]).Err?
    ensures Steps(ids[..i] + ids[i + 1..], LookupStep(v, exportNovaMetadata, hv)).samples
         == Steps(ids, LookupStep(v, exportNovaMetadata, hv)).samples
    ensures Steps(ids[..i] + ids[i + 1..], LookupStep(v, exportNovaMetadata, hv)).failure
         == Steps(ids, LookupStep(v, exportNovaMetadata, hv)).failure
  {
    LookupFailureQuiet(v, exportNovaMetadata, hv, ids[i]);
    StepsSkipQuietElement(ids, LookupStep(v, exportNovaMetadata, hv), i);
  }

  lemma LookupFailureQuiet(v: Variant, exportNovaMetadata: bool, hv: Hypervisor, id: nat)
    requires hv.lookupDomainById(id).Err?
    ensures LookupStep(v, exportNovaMetadata, hv)(id) == Trace([], [LookupDomainById(id)], None)
  {
  }

  /** The first domain that fails ends the scrape: the domains after it are
      never looked up, and the error is the scrape's error. */
  lemma DomainFailureEndsScrape(v: Variant, exportNovaMetadata: bool, hv: Hypervisor, k: nat)
    requires hv.connect.None? && hv.listDomains.Ok? && k < |hv.listDomains.value|
    requires !HeadTrace(v, hv, hv.listDomains.value).Failed()
    requires Steps(hv.listDomains.value[..k + 1], LookupStep(v, exportNovaMetadata, hv)).Failed()
    ensures CollectTrace(v, exportNovaMetadata, hv) ==
      Then(HeadTrace(v, hv, hv.listDomains.value), Steps(hv.listDomains.value[..k + 1], LookupStep(v, exportNovaMetadata, hv)))
    ensures CollectTrace(v, exportNovaMetadata, hv).failure ==
      Steps(hv.listDomains.value[..k + 1], LookupStep(v, exportNovaMetadata, hv)).failure
  {
    StepsStopAtFailure(hv.listDomains.value, LookupStep(v, exportNovaMetadata, hv), k + 1);
  }

  /** With the nova labels on, nothing a scrape sends makes MustNewConstMetric panic. */
  lemma UpdateSamplesWellFormed(v: Variant, hv: Hypervisor)
    ensures AllWellFormed(UpdateTrace(v, true, hv).samples, Arity)
  {
    if hv.connect.None? && hv.listDomains.Ok? {
      var ids := hv.listDomains.value;
      forall id | id in ids
        ensures AllWellFormed(LookupStep(v, true, hv)(id).samples, Arity)
      {
        if hv.lookupDomainById(id).Ok? {
          DomainSamplesWellFormed(v, hv.lookupDomainById(id).value);
        }
      }
      StepsWellFormed(ids, LookupStep(v, true, hv), Arity);
      ThenWellFormed(HeadTrace(v, hv, ids), Steps(ids, LookupStep(v, true, hv)), Arity);
    }
  }

  // ---------------------------------------------------------------------------
  // Properties: what the reduced collector leaves out
  // ---------------------------------------------------------------------------

  /** The descriptors libvirtCollector declares: no active and total counts,
      no CPU or memory breakdown, no block sizes. */
  predicate ReducedDesc(d: Desc) {
    !(d.ActiveDesc? || d.TotalDesc? ||
      d.CpuCpuTimeDesc? || d.CpuUserTimeDesc? || d.CpuSystemTimeDesc? || d.CpuVcpuTimeDesc? ||
      d.MemUnusedDesc? || d.MemAvailableDesc? || d.MemUsableDesc? || d.MemRssDesc? || d.MemLastUpdateDesc? ||
      d.BlockCapacityDesc? || d.BlockAllocationDesc? || d.BlockPhysicalDesc?)
  }

  /** The library calls libvirtCollector makes. */
  predicate ReducedCall(c: Call) {
    !(c.ListAllDomains? || c.GetCPUStats? || c.MemoryStats? || c.GetBlockInfo?)
  }

  lemma {:induction false} GatesWithin(cs: seq<Counter>, labels: seq<string>, calls: seq<Call>)
    requires forall k :: 0 <= k < |cs| ==> ReducedDesc(cs[k].desc)
    requires forall k :: 0 <= k < |calls| ==> ReducedCall(calls[k])
    ensures Within(Trace(Gates(cs, labels), calls, None), ReducedDesc, ReducedCall)
    decreases |cs|
  {
    if cs != [] {
      GatesWithin(cs[1..], labels, calls);
      assert forall k :: 0 <= k < |cs[1..]| ==> cs[1..][k] == cs[k + 1];
    }
  }

  lemma ReducedDiskWithin(dom: Domain, labels: seq<string>, d: Disk)
    ensures Within(DiskTrace(Reduced, dom, labels, d), ReducedDesc, ReducedCall)
  {
    var r := dom.blockStats(d.targetDevice);
    if !SkippedDisk(d) && r.Ok? {
      GatesWithin(BlockCounters(r.value), labels + [d.sourceFile, d.targetDevice], [BlockStats(d.targetDevice)]);
    }
  }

  lemma InterfaceWithin(dom: Domain, labels: seq<string>, i: Interface)
    ensures Within(InterfaceTrace(dom, labels, i), ReducedDesc, ReducedCall)
  {
    var r := dom.interfaceStats(i.targetDevice);
    if !SkippedInterface(i) && r.Ok? {
      GatesWithin(InterfaceCounters(r.value), labels + [i.sourceBridge, i.targetDevice], [InterfaceStats(i.targetDevice)]);
    }
  }

  lemma ReducedDomainWithin(exportNovaMetadata: bool, dom: Domain)
    ensures Within(DomainTrace(Reduced, exportNovaMetadata, dom), ReducedDesc, ReducedCall)
  {
    if dom.xmlDesc.Ok? && dom.name.Ok? {
      var topo := dom.xmlDesc.value;
      var labels := DomainLabelValues(exportNovaMetadata, dom.name.value, topo);
      ReducedDevicesWithin(dom, labels, topo);
      ReducedChainWithin(Trace([], [GetXMLDesc, GetName], None), InfoTrace(dom.info, labels),
        Steps(topo.disks, DiskStep(Reduced, dom, labels)), Steps(topo.interfaces, InterfaceStep(dom, labels)));
    }
  }

  lemma ReducedDevicesWithin(dom: Domain, labels: seq<string>, topo: Topology)
    ensures Within(Steps(topo.disks, DiskStep(Reduced, dom, labels)), ReducedDesc, ReducedCall)
    ensures Within(Steps(topo.interfaces, InterfaceStep(dom, labels)), ReducedDesc, ReducedCall)
  {
    forall d | d in topo.disks
      ensures Within(DiskStep(Reduced, dom, labels)(d), ReducedDesc, ReducedCall)
    {
      ReducedDiskWithin(dom, labels, d);
    }
    forall i | i in topo.interfaces
      ensures Within(InterfaceStep(dom, labels)(i), ReducedDesc, ReducedCall)
    {
      InterfaceWithin(dom, labels, i);
    }
    StepsWithin(topo.disks, DiskStep(Reduced, dom, labels), ReducedDesc, ReducedCall);
    StepsWithin(topo.interfaces, InterfaceStep(dom, labels), ReducedDesc, ReducedCall);
  }

  /** The shape of a reduced domain pass: head, info, two quiet sections, disks, interfaces. */
  lemma ReducedChainWithin(head: Trace<Desc, Call>, info: Trace<Desc, Call>, disks: Trace<Desc, Call>, ifaces: Trace<Desc, Call>)
    requires Within(head, ReducedDesc, ReducedCall) && Within(info, ReducedDesc, ReducedCall)
    requires Within(disks, ReducedDesc, ReducedCall) && Within(ifaces, ReducedDesc, ReducedCall)
    ensures Within(Then(Then(Then(Then(Then(head, info), Quiet()), Quiet()), disks), ifaces), ReducedDesc, ReducedCall)
  {
    ThenWithin(head, info, ReducedDesc, ReducedCall);
    ThenWithin(Then(head, info), Quiet(), ReducedDesc, ReducedCall);
    ThenWithin(Then(Then(head, info), Quiet()), Quiet(), ReducedDesc, ReducedCall);
    ThenWithin(Then(Then(Then(head, info), Quiet()), Quiet()), disks, ReducedDesc, ReducedCall);
    ThenWithin(Then(Then(Then(Then(head, info), Quiet()), Quiet()), disks), ifaces, ReducedDesc, ReducedCall);
  }

  /** The reduced collector sends only under its own descriptors and never
      makes the calls only the full collector makes. */
  lemma ReducedLookupWithin(exportNovaMetadata: bool, hv: Hypervisor, id: nat)
    ensures Within(LookupTrace(Reduced, exportNovaMetadata, hv, id), ReducedDesc, ReducedCall)
  {
    if hv.lookupDomainById(id).Ok? {
      ReducedDomainWithin(exportNovaMetadata, hv.lookupDomainById(id).value);
      ThenWithin(Trace([], [LookupDomainById(id)], None), DomainTrace(Reduced, exportNovaMetadata, hv.lookupDomainById(id).value), ReducedDesc, ReducedCall);
    }
  }

  lemma ReducedStaysWithin(exportNovaMetadata: bool, hv: Hypervisor)
    ensures Within(UpdateTrace(Reduced, exportNovaMetadata, hv), ReducedDesc, ReducedCall)
  {
    if hv.connect.None? && hv.listDomains.Ok? {
      var ids := hv.listDomains.value;
      var step := LookupStep(Reduced, exportNovaMetadata, hv);
      forall id | id in ids
        ensures Within(step(id), ReducedDesc, ReducedCall)
      {
        ReducedLookupWithin(exportNovaMetadata, hv, id);
      }
      StepsWithin(ids, step, ReducedDesc, ReducedCall);
      ThenWithin(HeadTrace(Reduced, hv, ids), Steps(ids, step), ReducedDesc, ReducedCall);
    }
  }
}
