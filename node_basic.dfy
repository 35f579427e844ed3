/** collector/node_basic.go: the host-description collector. It sends one
    sample per piece of host information, every one with the constant value 1
    and the information in its labels. What gopsutil reports about the host is
    an input record; the collector's methods are proved to do what the
    specification functions below say, and the lemmas state what the labels mean. */
module NodeBasic {
  import opened Metrics
  import opened Strconv

  /** Go's uint64. */
  const U64: nat := 0x1_0000_0000_0000_0000
  type uint64 = x: nat | x < U64

  // ---------------------------------------------------------------------------
  // What gopsutil reports
  // ---------------------------------------------------------------------------

  /** cpu.InfoStat, the fields the collector reads. */
  datatype CpuInfoStat = CpuInfoStat(physicalId: string, coreId: string, vendorId: string, modelName: string, mhz: real)

  /** net.InterfaceStat; `addrsJson` is json.Marshal of its address list. */
  datatype NetInterface = NetInterface(index: int, mtu: int, name: string, hardwareAddr: string, addrsJson: string)

  /** host.InfoStat, the fields the collector reads. */
  datatype HostInfo = HostInfo(
    hostname: string, os: string, platform: string, platformFamily: string,
    platformVersion: string, hostId: string, virtualizationSystem: string, virtualizationRole: string)

  /** disk.PartitionStat, the field the collector reads. */
  datatype Partition = Partition(mountpoint: string)

  /** The host as one scrape sees it. `usage` is the Total that disk.Usage
      reports for a mount point. */
  datatype Host = Host(
    cpuInfo: Result<seq<CpuInfoStat>>,
    virtualMemory: Result<uint64>,
    interfaces: Result<seq<NetInterface>>,
    hostInfo: Result<HostInfo>,
    partitions: Result<seq<Partition>>,
    usage: string -> uint64)

  /** The gopsutil queries, in the order a scrape makes them. */
  datatype Query = CpuInfo | VirtualMemory | Interfaces | HostInfoQuery | Partitions | Usage(mountpoint: string)

  // ---------------------------------------------------------------------------
  // Descriptors (NewLinuxBasicCollector)
  // ---------------------------------------------------------------------------

  datatype Desc = HostNameDesc | CpuDesc | MemDesc | DiskDesc | NetDevDesc

  /** The name of each descriptor within the "basic" subsystem. */
  function Name(d: Desc): string {
    match d
    case HostNameDesc => "host_info"
    case CpuDesc => "cpu"
    case MemDesc => "mem"
    case DiskDesc => "disk"
    case NetDevDesc => "net_dev"
  }

  function LabelNames(d: Desc): seq<string> {
    match d
    case HostNameDesc =>
      ["hostname", "os", "platform", "platform_family", "platform_version",
       "host_id", "virtualization_system", "virtualization_role"]
    case CpuDesc => ["count", "core", "vendor_id", "model_name", "mhz"]
    case MemDesc => ["total"]
    case DiskDesc => ["total"]
    case NetDevDesc => ["if_index", "if_name", "ip_address", "hw_address", "mtu"]
  }

  function Arity(d: Desc): nat {
    |LabelNames(d)|
  }

  /** Every sample of this collector: a counter with the value 1. */
  function InfoSample(d: Desc, labels: seq<string>): Sample<Desc> {
    Sample(d, CounterValue, 1.0, labels)
  }

  // ---------------------------------------------------------------------------
  // updateCpuInfo
  // ---------------------------------------------------------------------------

  /** The distinct socket ids. */
  function PhysicalIds(a: seq<CpuInfoStat>): set<string> {
    set i | 0 <= i < |a| :: a[i].physicalId
  }

  /** The distinct core ids, over all sockets together. */
  function CoreIds(a: seq<CpuInfoStat>): set<string> {
    set i | 0 <= i < |a| :: a[i].coreId
  }

  function MhzSum(a: seq<CpuInfoStat>): real
    decreases |a|
  {
    if a == [] then 0.0 else MhzSum(a[..|a| - 1]) + a[|a| - 1].mhz
  }

  /** One more entry adds its ids to the sets and its frequency to the sum. */
  lemma CpuSnoc(p: seq<CpuInfoStat>, e: CpuInfoStat)
    ensures PhysicalIds(p + [e]) == PhysicalIds(p) + {e.physicalId}
    ensures CoreIds(p + [e]) == CoreIds(p) + {e.coreId}
    ensures MhzSum(p + [e]) == MhzSum(p) + e.mhz
  {
    var q := p + [e];
    assert q[..|q| - 1] == p;
    assert q[|p|] == e;
    forall x | x in PhysicalIds(q) ensures x in PhysicalIds(p) + {e.physicalId} {
      var i :| 0 <= i < |q| && q[i].physicalId == x;
      if i < |p| { assert p[i] == q[i]; }
    }
    forall x | x in PhysicalIds(p) ensures x in PhysicalIds(q) {
      var i :| 0 <= i < |p| && p[i].physicalId == x;
      assert q[i] == p[i];
    }
    forall x | x in CoreIds(q) ensures x in CoreIds(p) + {e.coreId} {
      var i :| 0 <= i < |q| && q[i].coreId == x;
      if i < |p| { assert p[i] == q[i]; }
    }
    forall x | x in CoreIds(p) ensures x in CoreIds(q) {
      var i :| 0 <= i < |p| && p[i].coreId == x;
      assert q[i] == p[i];
    }
  }

  /** The integer nearest to x, ties to the even one. */
  function RoundHalfEven(x: real): (r: int)
    ensures x - 0.5 <= r as real <= x + 0.5
    ensures (r as real - x == 0.5 || x - r as real == 0.5) ==> r % 2 == 0
  {
    var f := x.Floor;
    var frac := x - f as real;
    if frac < 0.5 then f
    else if frac > 0.5 then f + 1
    else if f % 2 == 0 then f else f + 1
  }

  /** strconv.FormatFloat(x, 'f', 0, 64): x rounded to an integer, in decimal,
      with a minus sign for a negative x even when it rounds to zero. */
  function FormatMhz(x: real): string {
    var r := RoundHalfEven(x);
    if r == 0 && x < 0.0 then "-0" else Itoa(r)
  }

  /** The labels of the cpu sample: socket count, socket count times core-id
      count, vendor and model of the first entry, and the average frequency. */
  function CpuLabels(a: seq<CpuInfoStat>): seq<string>
    requires |a| >= 1
  {
    var sockets := |PhysicalIds(a)|;
    [Itoa(sockets), Itoa(sockets * |CoreIds(a)|), a[0].vendorId, a[0].modelName, FormatMhz(MhzSum(a) / |a| as real)]
  }

  function CpuTrace(r: Result<seq<CpuInfoStat>>): Trace<Desc, Query> {
    match r
    case Err(e) => Trace([], [CpuInfo], Some(e))
    case Ok(a) =>
      if |a| < 1 then Trace([], [CpuInfo], Some(Error("no cpu info")))
      else Trace([InfoSample(CpuDesc, CpuLabels(a))], [CpuInfo], None)
  }

  // ---------------------------------------------------------------------------
  // updateMemInfo, updateNetDevInfo, updateHostName
  // ---------------------------------------------------------------------------

  function MemTrace(r: Result<uint64>): Trace<Desc, Query> {
    match r
    case Err(e) => Trace([], [VirtualMemory], Some(e))
    case Ok(total) => Trace([InfoSample(MemDesc, [FormatUint(total)])], [VirtualMemory], None)
  }

  function NetLabels(e: NetInterface): seq<string> {
    [Itoa(e.index), e.name, e.addrsJson, e.hardwareAddr, Itoa(e.mtu)]
  }

  /** One net_dev sample per interface, in the order the library lists them. */
  function NetSamples(a: seq<NetInterface>): (r: seq<Sample<Desc>>)
    ensures |r| == |a|
  {
    seq(|a|, i requires 0 <= i < |a| => InfoSample(NetDevDesc, NetLabels(a[i])))
  }

  function NetTrace(r: Result<seq<NetInterface>>): Trace<Desc, Query> {
    match r
    case Err(e) => Trace([], [Interfaces], Some(e))
    case Ok(a) => Trace(NetSamples(a), [Interfaces], None)
  }

  function HostLabels(h: HostInfo): seq<string> {
    [h.hostname, h.os, h.platform, h.platformFamily, h.platformVersion,
     h.hostId, h.virtualizationSystem, h.virtualizationRole]
  }

  function HostTrace(r: Result<HostInfo>): Trace<Desc, Query> {
    match r
    case Err(e) => Trace([], [HostInfoQuery], Some(e))
    case Ok(h) => Trace([InfoSample(HostNameDesc, HostLabels(h))], [HostInfoQuery], None)
  }

  // ---------------------------------------------------------------------------
  // updateDisk
  // ---------------------------------------------------------------------------

  /** The uint64 running total over the partitions: the sum, wrapped modulo 2^64. */
  function DiskTotal(ps: seq<Partition>, usage: string -> uint64): uint64
    decreases |ps|
  {
    if ps == [] then 0
    else (DiskTotal(ps[..|ps| - 1], usage) + usage(ps[|ps| - 1].mountpoint)) % U64
  }

  /** The same sum in unbounded integers. */
  function UsageSum(ps: seq<Partition>, usage: string -> uint64): nat
    decreases |ps|
  {
    if ps == [] then 0 else UsageSum(ps[..|ps| - 1], usage) + usage(ps[|ps| - 1].mountpoint)
  }

  function UsageQueries(ps: seq<Partition>): (r: seq<Query>)
    ensures |r| == |ps|
  {
    seq(|ps|, i requires 0 <= i < |ps| => Usage(ps[i].mountpoint))
  }

  function DiskTrace(h: Host): Trace<Desc, Query> {
    match h.partitions
    case Err(e) => Trace([], [Partitions], Some(e))
    case Ok(ps) => Trace([InfoSample(DiskDesc, [FormatUint(DiskTotal(ps, h.usage))])], [Partitions] + UsageQueries(ps), None)
  }

  // ---------------------------------------------------------------------------
  // Update
  // ---------------------------------------------------------------------------

  /** cpu, mem, net, host, disk; the first error ends the scrape. */
  function UpdateTrace(h: Host): Trace<Desc, Query> {
    var cpu := CpuTrace(h.cpuInfo);
    var mem := Then(cpu, MemTrace(h.virtualMemory));
    var net := Then(mem, NetTrace(h.interfaces));
    var host := Then(net, HostTrace(h.hostInfo));
    Then(host, DiskTrace(h))
  }

  // ---------------------------------------------------------------------------
  // Properties
  // ---------------------------------------------------------------------------

  /** An empty CPU list fails the scrape with "no cpu info" before anything is
      sent and before any other query. */
  lemma NoCpuInfoFails(h: Host)
    requires h.cpuInfo == Ok([])
    ensures UpdateTrace(h) == Trace([], [CpuInfo], Some(Error("no cpu info")))
  {
  }

  /** Reading the count label back gives the number of distinct socket ids, and
      the core label the product of that with the number of distinct core ids. */
  lemma CpuCountLabels(a: seq<CpuInfoStat>)
    requires |a| >= 1
    ensures var l := CpuLabels(a);
      |l| == Arity(CpuDesc) &&
      (forall i :: 0 <= i < |l[0]| ==> IsDigit(l[0][i])) && DigitsValue(l[0]) == |PhysicalIds(a)| &&
      (forall i :: 0 <= i < |l[1]| ==> IsDigit(l[1][i])) && DigitsValue(l[1]) == |PhysicalIds(a)| * |CoreIds(a)|
  {
    FormatUintRoundTrip(|PhysicalIds(a)|);
    FormatUintRoundTrip(|PhysicalIds(a)| * |CoreIds(a)|);
  }

  /** Vendor and model come from the first entry only: the rest of the list
      changes them not at all. */
  lemma CpuVendorFromFirst(a: seq<CpuInfoStat>, b: seq<CpuInfoStat>)
    requires |a| >= 1 && |b| >= 1 && a[0] == b[0]
    ensures CpuLabels(a)[2..4] == CpuLabels(b)[2..4] == [a[0].vendorId, a[0].modelName]
  {
  }

  function Entry(socket: string, core: string): CpuInfoStat {
    CpuInfoStat(socket, core, "GenuineIntel", "Xeon", 2400.0)
  }

  /** The count and core labels of a list whose entries are socket 0 core 0,
      socket 0 core 1, socket 1 core 0, and optionally socket 1 core 1: two
      distinct socket ids and two distinct core ids. */
  lemma ExampleCounts(a: seq<CpuInfoStat>)
    requires |a| == 3 || |a| == 4
    requires a[0] == Entry("0", "0") && a[1] == Entry("0", "1") && a[2] == Entry("1", "0")
    requires |a| == 4 ==> a[3] == Entry("1", "1")
    ensures CpuLabels(a)[..2] == ["2", "4"]
  {
    ExampleIds(a);
    assert |{"0", "1"}| == 2 by {
      assert "0"[0] != "1"[0];
    }
    CountLabels(a, 2, 2);
    assert Itoa(2) == "2" && Itoa(4) == "4";
  }

  lemma ExampleIds(a: seq<CpuInfoStat>)
    requires |a| == 3 || |a| == 4
    requires a[0] == Entry("0", "0") && a[1] == Entry("0", "1") && a[2] == Entry("1", "0")
    requires |a| == 4 ==> a[3] == Entry("1", "1")
    ensures PhysicalIds(a) == {"0", "1"} && CoreIds(a) == {"0", "1"}
  {
    assert a[0].physicalId == "0" && a[2].physicalId == "1";
    assert a[0].coreId == "0" && a[1].coreId == "1";
  }

  lemma CountLabels(a: seq<CpuInfoStat>, sockets: nat, cores: nat)
    requires |a| >= 1 && |PhysicalIds(a)| == sockets && |CoreIds(a)| == cores
    ensures CpuLabels(a)[..2] == [Itoa(sockets), Itoa(sockets * cores)]
  {
  }

  /** Two sockets with core ids 0 and 1 each: count 2, core 4. */
  lemma TwoSocketsTwoCores()
    ensures CpuLabels([Entry("0", "0"), Entry("0", "1"), Entry("1", "0"), Entry("1", "1")])[..2] == ["2", "4"]
  {
    ExampleCounts([Entry("0", "0"), Entry("0", "1"), Entry("1", "0"), Entry("1", "1")]);
  }

  /** Core ids are counted over all sockets together and multiplied by the
      socket count: socket 0 with cores 0 and 1 and socket 1 with core 0 only
      is reported as core 4 although it lists three cores. */
  lemma UnevenSocketsOverCount()
    ensures CpuLabels([Entry("0", "0"), Entry("0", "1"), Entry("1", "0")])[..2] == ["2", "4"]
  {
    ExampleCounts([Entry("0", "0"), Entry("0", "1"), Entry("1", "0")]);
  }

  /** Below 2^64 the running total is the plain sum. */
  lemma {:induction false} DiskTotalIsTheSum(ps: seq<Partition>, usage: string -> uint64)
    requires UsageSum(ps, usage) < U64
    ensures DiskTotal(ps, usage) == UsageSum(ps, usage)
    decreases |ps|
  {
    if ps != [] {
      DiskTotalIsTheSum(ps[..|ps| - 1], usage);
    }
  }

  /** The disk label reads back as the total capacity of all partitions, as
      long as that fits in a uint64. */
  lemma DiskLabelIsTheSum(h: Host)
    requires h.partitions.Ok? && UsageSum(h.partitions.value, h.usage) < U64
    ensures var l := DiskTrace(h).samples[0].labelValues;
      |l| == 1 && DigitsValue(l[0]) == UsageSum(h.partitions.value, h.usage)
  {
    DiskTotalIsTheSum(h.partitions.value, h.usage);
    FormatUintRoundTrip(UsageSum(h.partitions.value, h.usage));
  }

  /** The disk query runs only when the four earlier sections succeeded, and
      its error, if any, is then the scrape's error. */
  lemma DiskRunsLast(h: Host)
    ensures Partitions in UpdateTrace(h).calls <==>
      !CpuTrace(h.cpuInfo).Failed() && h.virtualMemory.Ok? && h.interfaces.Ok? && h.hostInfo.Ok?
  {
  }

  /** The scrape's error is the first section's error. */
  lemma FirstErrorIsReported(h: Host)
    ensures UpdateTrace(h).failure ==
      if CpuTrace(h.cpuInfo).Failed() then CpuTrace(h.cpuInfo).failure
      else if h.virtualMemory.Err? then Some(h.virtualMemory.error)
      else if h.interfaces.Err? then Some(h.interfaces.error)
      else if h.hostInfo.Err? then Some(h.hostInfo.error)
      else if h.partitions.Err? then Some(h.partitions.error)
      else None
  {
  }

  /** Every sample the collector sends is a counter with the value 1 carrying
      one value per label name. */
  lemma UpdateSamplesAreInfo(h: Host)
    ensures forall i :: 0 <= i < |UpdateTrace(h).samples| ==>
      var s := UpdateTrace(h).samples[i];
      s.valueType == CounterValue && s.value == 1.0 && s.WellFormed(Arity)
  {
    var cpu := CpuTrace(h.cpuInfo);
    var mem := Then(cpu, MemTrace(h.virtualMemory));
    var net := Then(mem, NetTrace(h.interfaces));
    var host := Then(net, HostTrace(h.hostInfo));
    SectionsInfoOnly(h);
    InfoOnlyThen(cpu, MemTrace(h.virtualMemory));
    InfoOnlyThen(mem, NetTrace(h.interfaces));
    InfoOnlyThen(net, HostTrace(h.hostInfo));
    InfoOnlyThen(host, DiskTrace(h));
  }

  lemma SectionsInfoOnly(h: Host)
    ensures InfoOnly(CpuTrace(h.cpuInfo)) && InfoOnly(MemTrace(h.virtualMemory)) && InfoOnly(NetTrace(h.interfaces))
    ensures InfoOnly(HostTrace(h.hostInfo)) && InfoOnly(DiskTrace(h))
  {
  }

  predicate InfoOnly(t: Trace<Desc, Query>) {
    forall i :: 0 <= i < |t.samples| ==>
      t.samples[i].valueType == CounterValue && t.samples[i].value == 1.0 && t.samples[i].WellFormed(Arity)
  }

  lemma InfoOnlyThen(t: Trace<Desc, Query>, u: Trace<Desc, Query>)
    requires InfoOnly(t) && InfoOnly(u)
    ensures InfoOnly(Then(t, u))
  {
  }

  // ---------------------------------------------------------------------------
  // The collector
  // ---------------------------------------------------------------------------

  class LinuxBasicCollector {
    /** Every metric sent on the channel so far, in order. */
    var out: seq<Sample<Desc>>

    /** Every gopsutil query made so far, in order. */
    ghost var queries: seq<Query>

    /** NewLinuxBasicCollector */
    constructor ()
      ensures out == [] && queries == []
    {
      out := [];
      queries := [];
    }

    /** updateCpuInfo: the socket set, then the core set and the frequency sum,
        then one sample. */
    method UpdateCpuInfo(h: Host) returns (err: Option<Error>)
      modifies this`out, this`queries
      ensures var t := CpuTrace(h.cpuInfo);
        out == old(out) + t.samples && queries == old(queries) + t.calls && err == t.failure
    {
      queries := queries + [CpuInfo];
      if h.cpuInfo.Err? {
        return Some(h.cpuInfo.error);
      }
      var a := h.cpuInfo.value;
      if |a| < 1 {
        return Some(Error("no cpu info"));
      }
      var s: set<string> := {};
      for i := 0 to |a|
        invariant s == PhysicalIds(a[..i])
        invariant out == old(out) && queries == old(queries) + [CpuInfo]
      {
        assert a[..i + 1] == a[..i] + [a[i]];
        CpuSnoc(a[..i], a[i]);
        s := s + {a[i].physicalId};
      }
      var cores: set<string> := {};
      var mHz := 0.0;
      for i := 0 to |a|
        invariant cores == CoreIds(a[..i])
        invariant mHz == MhzSum(a[..i])
        invariant out == old(out) && queries == old(queries) + [CpuInfo]
      {
        assert a[..i + 1] == a[..i] + [a[i]];
        CpuSnoc(a[..i], a[i]);
        cores := cores + {a[i].coreId};
        mHz := mHz + a[i].mhz;
      }
      assert a[..|a|] == a;
      mHz := mHz / |a| as real;
      var coreNum := |s| * |cores|;
      var labels := [Itoa(|s|), Itoa(coreNum), a[0].vendorId, a[0].modelName, FormatMhz(mHz)];
      assert labels == CpuLabels(a);
      out := out + [InfoSample(CpuDesc, labels)];
      return None;
    }

    /** updateMemInfo */
    method UpdateMemInfo(h: Host) returns (err: Option<Error>)
      modifies this`out, this`queries
      ensures var t := MemTrace(h.virtualMemory);
        out == old(out) + t.samples && queries == old(queries) + t.calls && err == t.failure
    {
      queries := queries + [VirtualMemory];
      if h.virtualMemory.Err? {
        return Some(h.virtualMemory.error);
      }
      out := out + [Sample(MemDesc, CounterValue, 1.0, [FormatUint(h.virtualMemory.value)])];
      return None;
    }

    /** updateNetDevInfo: one sample per interface. */
    method UpdateNetDevInfo(h: Host) returns (err: Option<Error>)
      modifies this`out, this`queries
      ensures var t := NetTrace(h.interfaces);
        out == old(out) + t.samples && queries == old(queries) + t.calls && err == t.failure
    {
      queries := queries + [Interfaces];
      if h.interfaces.Err? {
        return Some(h.interfaces.error);
      }
      var a := h.interfaces.value;
      for i := 0 to |a|
        invariant out == old(out) + NetSamples(a[..i])
        invariant queries == old(queries) + [Interfaces]
      {
        var e := a[i];
        out := out + [Sample(NetDevDesc, CounterValue, 1.0, [Itoa(e.index), e.name, e.addrsJson, e.hardwareAddr, Itoa(e.mtu)])];
        assert NetSamples(a[..i + 1]) == NetSamples(a[..i]) + [InfoSample(NetDevDesc, NetLabels(a[i]))];
      }
      assert a[..|a|] == a;
      return None;
    }

    /** updateHostName */
    method UpdateHostName(h: Host) returns (err: Option<Error>)
      modifies this`out, this`queries
      ensures var t := HostTrace(h.hostInfo);
        out == old(out) + t.samples && queries == old(queries) + t.calls && err == t.failure
    {
      queries := queries + [HostInfoQuery];
      if h.hostInfo.Err? {
        return Some(h.hostInfo.error);
      }
      var a := h.hostInfo.value;
      out := out + [Sample(HostNameDesc, CounterValue, 1.0,
        [a.hostname, a.os, a.platform, a.platformFamily, a.platformVersion, a.hostId, a.virtualizationSystem, a.virtualizationRole])];
      return None;
    }

    /** updateDisk: the uint64 total over the partitions, then one sample. */
    method UpdateDisk(h: Host) returns (err: Option<Error>)
      modifies this`out, this`queries
      ensures var t := DiskTrace(h);
        out == old(out) + t.samples && queries == old(queries) + t.calls && err == t.failure
    {
      queries := queries + [Partitions];
      if h.partitions.Err? {
        return Some(h.partitions.error);
      }
      var a := h.partitions.value;
      var total: uint64 := 0;
      for i := 0 to |a|
        invariant out == old(out)
        invariant total == DiskTotal(a[..i], h.usage)
        invariant queries == old(queries) + [Partitions] + UsageQueries(a[..i])
      {
        assert a[..i + 1][..i] == a[..i];
        queries := queries + [Usage(a[i].mountpoint)];
        total := (total + h.usage(a[i].mountpoint)) % U64;
        assert UsageQueries(a[..i + 1]) == UsageQueries(a[..i]) + [Usage(a[i].mountpoint)];
      }
      assert a[..|a|] == a;
      out := out + [Sample(DiskDesc, CounterValue, 1.0, [FormatUint(total)])];
      return None;
    }

    /** Update: cpu, mem, net, host, disk; the first error is returned. */
    method Update(h: Host) returns (err: Option<Error>)
      modifies this`out, this`queries
      ensures var t := UpdateTrace(h);
        out == old(out) + t.samples && queries == old(queries) + t.calls && err == t.failure
    {
      ghost var acc := CpuTrace(h.cpuInfo);
      err := UpdateCpuInfo(h);
      if err.Some? {
        return err;
      }
      ghost var o, c := out, queries;
      err := UpdateMemInfo(h);
      ThenSequenced(old(out), old(queries), acc, o, c, MemTrace(h.virtualMemory), out, queries);
      acc := Then(acc, MemTrace(h.virtualMemory));
      if err.Some? {
        return err;
      }
      o, c := out, queries;
      err := UpdateNetDevInfo(h);
      ThenSequenced(old(out), old(queries), acc, o, c, NetTrace(h.interfaces), out, queries);
      acc := Then(acc, NetTrace(h.interfaces));
      if err.Some? {
        return err;
      }
      o, c := out, queries;
      err := UpdateHostName(h);
      ThenSequenced(old(out), old(queries), acc, o, c, HostTrace(h.hostInfo), out, queries);
      acc := Then(acc, HostTrace(h.hostInfo));
      if err.Some? {
        return err;
      }
      o, c := out, queries;
      err := UpdateDisk(h);
      ThenSequenced(old(out), old(queries), acc, o, c, DiskTrace(h), out, queries);
    }
  }
}
