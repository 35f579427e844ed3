/** collector/vm_libvirt_info.go: the reduced libvirt collector. Like the full
    one it sends metrics on a channel (the field `out`), talks to the library
    (the ghost log `calls`) and takes and gives back library handles (the ghost
    set `live`), but it reports neither the active and total counts nor the CPU,
    memory and block-size metrics. Each method is proved to do what the
    specification functions of module Libvirt say for the Reduced variant. */
module VmLibvirtInfo {
  import opened Metrics
  import opened Libvirt

  class LibvirtCollector {
    const uri: string
    const exportNovaMetadata: bool

    /** Every metric sent on the channel so far, in order. */
    var out: seq<Sample<Desc>>

    /** Every library call made so far, in order. */
    ghost var calls: seq<Call>

    /** The library handles obtained and not yet given back (Close, Free),
        and the number of handles ever obtained. */
    ghost var live: set<nat>
    ghost var nextHandle: nat

    /** Between passes every handle obtained has been given back. */
    ghost predicate Valid()
      reads this
    {
      exportNovaMetadata && live == {}
    }

    /** NewLibvirtCollector */
    constructor ()
      ensures Valid()
      ensures uri == "qemu:///system" && exportNovaMetadata
      ensures out == [] && calls == []
    {
      uri := "qemu:///system";
      exportNovaMetadata := true;
      out := [];
      calls := [];
      live := {};
      nextHandle := 0;
    }

    /** The library hands out n handles none of which was handed out before. */
    ghost method Acquire(n: nat) returns (first: nat)
      modifies this`live, this`nextHandle
      ensures first == old(nextHandle) && nextHandle == first + n
      ensures live == old(live) + Handles(first, nextHandle)
    {
      first := nextHandle;
      live := live + Handles(first, first + n);
      nextHandle := first + n;
    }

    /** Close or Free: only a handle that is held can be given back. */
    ghost method Release(h: nat)
      requires h in live
      modifies this`live
      ensures live == old(live) - {h}
    {
      live := live - {h};
    }

    /** One `if stats.XSet { ch <- ... }` block: the k-th of the blocks listed
        in `table`, after the k before it have sent their samples after `base`. */
    method SendIfSet(c: Counter, labels: seq<string>, ghost base: seq<Sample<Desc>>, ghost table: seq<Counter>, ghost k: nat)
      requires k < |table| && table[k] == c
      requires out == base + Gates(table[..k], labels)
      modifies this`out
      ensures out == base + Gates(table[..k + 1], labels)
    {
      assert table[..k + 1] == table[..k] + [c];
      GatesSnoc(table[..k], c, labels);
      if c.field.isSet {
        out := out + [Sample(c.desc, CounterValue, CounterReading(c), labels)];
      }
    }

    /** One iteration of the disk loop: BlockStats only, no GetBlockInfo. */
    method CollectDisk(domain: Domain, labels: seq<string>, disk: Disk) returns (err: Option<Error>)
      modifies this`out, this`calls
      ensures var t := DiskStep(Reduced, domain, labels)(disk);
        out == old(out) + t.samples && calls == old(calls) + t.calls && err == t.failure
    {
      if disk.device == "cdrom" || disk.device == "fd" {
        return None;
      }
      var dev := disk.targetDevice;
      calls := calls + [BlockStats(dev)];
      if domain.blockStats(dev).Err? {
        return Some(domain.blockStats(dev).error);
      }
      var blockStats := domain.blockStats(dev).value;
      SendBlockStats(blockStats, labels + [disk.sourceFile, dev]);
      return None;
    }

    /** The eight gated block counters of one disk. */
    method SendBlockStats(blockStats: DomainBlockStats, l: seq<string>)
      modifies this`out
      ensures out == old(out) + Gates(BlockCounters(blockStats), l)
    {
      ghost var base := out;
      ghost var table := BlockCounters(blockStats);
      assert out == base + Gates(table[..0], l);
      SendIfSet(Counter(BlockRdBytesDesc, blockStats.rdBytes, Raw), l, base, table, 0);
      SendIfSet(Counter(BlockRdReqDesc, blockStats.rdReq, Raw), l, base, table, 1);
      SendIfSet(Counter(BlockRdTotalTimesDesc, blockStats.rdTotalTimes, Nanoseconds), l, base, table, 2);
      SendIfSet(Counter(BlockWrBytesDesc, blockStats.wrBytes, Raw), l, base, table, 3);
      SendIfSet(Counter(BlockWrReqDesc, blockStats.wrReq, Raw), l, base, table, 4);
      SendIfSet(Counter(BlockWrTotalTimesDesc, blockStats.wrTotalTimes, Nanoseconds), l, base, table, 5);
      SendIfSet(Counter(BlockFlushReqDesc, blockStats.flushReq, Raw), l, base, table, 6);
      SendIfSet(Counter(BlockFlushTotalTimesDesc, blockStats.flushTotalTimes, Nanoseconds), l, base, table, 7);
      assert table[..8] == table;
    }

    /** One iteration of the interface loop. */
    method CollectInterface(domain: Domain, labels: seq<string>, iface: Interface) returns (err: Option<Error>)
      modifies this`out, this`calls
      ensures var t := InterfaceStep(domain, labels)(iface);
        out == old(out) + t.samples && calls == old(calls) + t.calls && err == t.failure
    {
      if iface.targetDevice == "" {
        return None;
      }
      var dev := iface.targetDevice;
      calls := calls + [InterfaceStats(dev)];
      if domain.interfaceStats(dev).Err? {
        return Some(domain.interfaceStats(dev).error);
      }
      var st := domain.interfaceStats(dev).value;
      SendInterfaceStats(st, labels + [iface.sourceBridge, dev]);
      return None;
    }

    /** The eight gated counters of one interface. */
    method SendInterfaceStats(st: DomainInterfaceStats, l: seq<string>)
      modifies this`out
      ensures out == old(out) + Gates(InterfaceCounters(st), l)
    {
      ghost var base := out;
      ghost var table := InterfaceCounters(st);
      assert out == base + Gates(table[..0], l);
      SendIfSet(Counter(IfRxBytesDesc, st.rxBytes, Raw), l, base, table, 0);
      SendIfSet(Counter(IfRxPacketsDesc, st.rxPackets, Raw), l, base, table, 1);
      SendIfSet(Counter(IfRxErrsDesc, st.rxErrs, Raw), l, base, table, 2);
      SendIfSet(Counter(IfRxDropDesc, st.rxDrop, Raw), l, base, table, 3);
      SendIfSet(Counter(IfTxBytesDesc, st.txBytes, Raw), l, base, table, 4);
      SendIfSet(Counter(IfTxPacketsDesc, st.txPackets, Raw), l, base, table, 5);
      SendIfSet(Counter(IfTxErrsDesc, st.txErrs, Raw), l, base, table, 6);
      SendIfSet(Counter(IfTxDropDesc, st.txDrop, Raw), l, base, table, 7);
      assert table[..8] == table;
    }

    /** The domain-info block of CollectDomain: GetInfo, then four gauges and
        the CPU-time counter, as Libvirt.InfoStatsShown states. */
    method CollectInfo(domain: Domain, labels: seq<string>) returns (err: Option<Error>)
      modifies this`out, this`calls
      ensures var t := InfoTrace(domain.info, labels);
        out == old(out) + t.samples && calls == old(calls) + t.calls && err == t.failure
    {
      calls := calls + [GetInfo];
      if domain.info.Err? {
        return Some(domain.info.error);
      }
      var info := domain.info.value;
      out := out + [Sample(StateDesc, GaugeValue, info.state as real, labels)];
      out := out + [Sample(MaxMemDesc, GaugeValue, (info.maxMem * 1024) as real, labels)];
      out := out + [Sample(MemoryDesc, GaugeValue, (info.memory * 1024) as real, labels)];
      out := out + [Sample(NrVirtCpuDesc, GaugeValue, info.nrVirtCpu as real, labels)];
      out := out + [Sample(CpuTimeDesc, CounterValue, info.cpuTime as real / 1000000000.0, labels)];
      return None;
    }

    /** The disk loop of CollectDomain. */
    method CollectDisks(domain: Domain, labels: seq<string>, disks: seq<Disk>) returns (err: Option<Error>)
      modifies this`out, this`calls
      ensures var t := Steps(disks, DiskStep(Reduced, domain, labels));
        out == old(out) + t.samples && calls == old(calls) + t.calls && err == t.failure
    {
      ghost var step := DiskStep(Reduced, domain, labels);
      for i := 0 to |disks|
        invariant out == old(out) + Steps(disks[..i], step).samples
        invariant calls == old(calls) + Steps(disks[..i], step).calls
        invariant !Steps(disks[..i], step).Failed()
      {
        ghost var o, c := out, calls;
        err := CollectDisk(domain, labels, disks[i]);
        StepsSnoc(disks, step, i);
        ThenSequenced(old(out), old(calls), Steps(disks[..i], step), o, c, step(disks[i]), out, calls);
        if err.Some? {
          assert Steps(disks, step) == Steps(disks[..i + 1], step) by {
            StepsStopAtFailure(disks, step, i + 1);
          }
          return err;
        }
      }
      assert disks[..|disks|] == disks;
      return None;
    }

    /** The interface loop of CollectDomain. */
    method CollectInterfaces(domain: Domain, labels: seq<string>, ifaces: seq<Interface>) returns (err: Option<Error>)
      modifies this`out, this`calls
      ensures var t := Steps(ifaces, InterfaceStep(domain, labels));
        out == old(out) + t.samples && calls == old(calls) + t.calls && err == t.failure
    {
      ghost var step := InterfaceStep(domain, labels);
      for i := 0 to |ifaces|
        invariant out == old(out) + Steps(ifaces[..i], step).samples
        invariant calls == old(calls) + Steps(ifaces[..i], step).calls
        invariant !Steps(ifaces[..i], step).Failed()
      {
        ghost var o, c := out, calls;
        err := CollectInterface(domain, labels, ifaces[i]);
        StepsSnoc(ifaces, step, i);
        ThenSequenced(old(out), old(calls), Steps(ifaces[..i], step), o, c, step(ifaces[i]), out, calls);
        if err.Some? {
          assert Steps(ifaces, step) == Steps(ifaces[..i + 1], step) by {
            StepsStopAtFailure(ifaces, step, i + 1);
          }
          return err;
        }
      }
      assert ifaces[..|ifaces|] == ifaces;
      return None;
    }

    /** CollectDomain: XML, name, info, disks, interfaces. */
    method CollectDomain(domain: Domain) returns (err: Option<Error>)
      modifies this`out, this`calls
      ensures var t := DomainTrace(Reduced, exportNovaMetadata, domain);
        out == old(out) + t.samples && calls == old(calls) + t.calls && err == t.failure
    {
      calls := calls + [GetXMLDesc];
      if domain.xmlDesc.Err? {
        return Some(domain.xmlDesc.error);
      }
      var desc := domain.xmlDesc.value;
      calls := calls + [GetName];
      if domain.name.Err? {
        return Some(domain.name.error);
      }
      var domainName := domain.name.value;
      var labels := DomainLabelValues(exportNovaMetadata, domainName, desc);
      // acc: what the domain has done so far; out and calls have grown by it.
      ghost var acc: Trace<Desc, Call> := Trace([], [GetXMLDesc, GetName], None);
      ghost var o, c := out, calls;
      err := CollectInfo(domain, labels);
      ThenSequenced(old(out), old(calls), acc, o, c, InfoTrace(domain.info, labels), out, calls);
      acc := Then(acc, InfoTrace(domain.info, labels));
      if err.Some? {
        return err;
      }
      // No CPU and no memory statistics in this collector.
      ThenSequenced(old(out), old(calls), acc, out, calls, Quiet(), out, calls);
      acc := Then(acc, Quiet());
      ThenSequenced(old(out), old(calls), acc, out, calls, Quiet(), out, calls);
      acc := Then(acc, Quiet());
      o, c := out, calls;
      err := CollectDisks(domain, labels, desc.disks);
      ThenSequenced(old(out), old(calls), acc, o, c, Steps(desc.disks, DiskStep(Reduced, domain, labels)), out, calls);
      acc := Then(acc, Steps(desc.disks, DiskStep(Reduced, domain, labels)));
      if err.Some? {
        return err;
      }
      o, c := out, calls;
      err := CollectInterfaces(domain, labels, desc.interfaces);
      ThenSequenced(old(out), old(calls), acc, o, c, Steps(desc.interfaces, InterfaceStep(domain, labels)), out, calls);
    }

    /** One iteration of the loop over active ids: look the id up; a failed
        lookup is skipped, a looked-up domain is collected and then freed
        whether its collection failed or not. */
    method CollectLookup(hv: Hypervisor, id: nat) returns (err: Option<Error>)
      requires forall h :: h in live ==> h < nextHandle
      modifies this`out, this`calls, this`live, this`nextHandle
      ensures var t := LookupStep(Reduced, exportNovaMetadata, hv)(id);
        out == old(out) + t.samples && calls == old(calls) + t.calls && err == t.failure
      ensures live == old(live) && old(nextHandle) <= nextHandle
    {
      calls := calls + [LookupDomainById(id)];
      if hv.lookupDomainById(id).Err? {
        return None;
      }
      var domain := hv.lookupDomainById(id).value;
      ghost var h := Acquire(1);
      assert h in Handles(h, h + 1);
      ghost var o, c := out, calls;
      err := CollectDomain(domain);
      ThenSequenced(old(out), old(calls), Trace([], [LookupDomainById(id)], None), o, c,
                    DomainTrace(Reduced, exportNovaMetadata, domain), out, calls);
      Release(h);
      assert Handles(h, h + 1) == {h};
    }

    /** The loop over active ids; the first failure ends it. */
    method CollectDomains(hv: Hypervisor, domainIds: seq<nat>) returns (err: Option<Error>)
      requires forall h :: h in live ==> h < nextHandle
      modifies this`out, this`calls, this`live, this`nextHandle
      ensures var t := Steps(domainIds, LookupStep(Reduced, exportNovaMetadata, hv));
        out == old(out) + t.samples && calls == old(calls) + t.calls && err == t.failure
      ensures live == old(live) && old(nextHandle) <= nextHandle
    {
      ghost var step := LookupStep(Reduced, exportNovaMetadata, hv);
      for i := 0 to |domainIds|
        invariant out == old(out) + Steps(domainIds[..i], step).samples
        invariant calls == old(calls) + Steps(domainIds[..i], step).calls
        invariant !Steps(domainIds[..i], step).Failed()
        invariant live == old(live) && old(nextHandle) <= nextHandle
      {
        ghost var o, c := out, calls;
        err := CollectLookup(hv, domainIds[i]);
        StepsSnoc(domainIds, step, i);
        ThenSequenced(old(out), old(calls), Steps(domainIds[..i], step), o, c, step(domainIds[i]), out, calls);
        if err.Some? {
          assert Steps(domainIds, step) == Steps(domainIds[..i + 1], step) by {
            StepsStopAtFailure(domainIds, step, i + 1);
          }
          return err;
        }
      }
      assert domainIds[..|domainIds|] == domainIds;
      return None;
    }

    /** CollectFromLibvirt: connect, list, then collect each active domain; the
        connection is closed on every return path after it was opened (the
        deferred Close). */
    method CollectFromLibvirt(hv: Hypervisor) returns (err: Option<Error>)
      requires Valid()
      modifies this`out, this`calls, this`live, this`nextHandle
      ensures var t := CollectTrace(Reduced, exportNovaMetadata, hv);
        out == old(out) + t.samples && calls == old(calls) + t.calls && err == t.failure
      ensures Valid() && old(nextHandle) <= nextHandle
    {
      calls := calls + [NewConnect];
      if hv.connect.Some? {
        return hv.connect;
      }
      ghost var conn := Acquire(1);
      assert Handles(conn, conn + 1) == {conn};
      calls := calls + [ListDomains];
      if hv.listDomains.Err? {
        Release(conn);
        return Some(hv.listDomains.error);
      }
      var domainIds := hv.listDomains.value;
      ghost var head := HeadTrace(Reduced, hv, domainIds);
      assert out == old(out) + head.samples && calls == old(calls) + head.calls;
      ghost var o, c := out, calls;
      err := CollectDomains(hv, domainIds);
      ThenSequenced(old(out), old(calls), head, o, c, Steps(domainIds, LookupStep(Reduced, exportNovaMetadata, hv)), out, calls);
      Release(conn);
    }

    /** Update: the pass, then `up`. */
    method Update(hv: Hypervisor) returns (err: Option<Error>)
      requires Valid()
      modifies this`out, this`calls, this`live, this`nextHandle
      ensures var t := UpdateTrace(Reduced, exportNovaMetadata, hv);
        out == old(out) + t.samples && calls == old(calls) + t.calls && err == t.failure
      ensures Valid()
      ensures AllWellFormed(old(out), Arity) ==> AllWellFormed(out, Arity)
    {
      UpdateSamplesWellFormed(Reduced, hv);
      err := CollectFromLibvirt(hv);
      if err == None {
        out := out + [Sample(UpDesc, GaugeValue, 1.0, [])];
      } else {
        out := out + [Sample(UpDesc, GaugeValue, 0.0, [])];
      }
    }
  }
}
