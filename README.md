# node_exporter (casfia fork): libvirt, host and push-script model

This project models, in Dafny, the parts of the casfia fork of the Prometheus
node exporter that add metrics of their own. It also models the two Python
scripts that push those metrics to a remote collector.

- **`collector/libvirt_info.go`** (`LibvirtExporter`). Connects to libvirt and sends:
  - the number of active domains and the total number of domains;
  - per domain: the domain info, CPU-time counters, memory statistics, block device sizes and counters, and interface counters;
  - finally the `up` gauge.
- **`collector/vm_libvirt_info.go`** (`libvirtCollector`). The reduced variant. It has no active/total counts, no CPU or memory breakdown and no block sizes.
- **`collector/node_basic.go`** (`linuxBasicCollector`). Sends one "info" counter per host fact: CPU topology, memory total, network interfaces, host identity and disk capacity.
- **`prometheus_pusher.py`**. Turns `ps aux` output into exposition text with a `process_cpu` and a `process_mem` family. It also finds the host address to report.
- **`push_result.py`**. Finds the host address and then forwards the local exporter's page once per period.

The Go collectors are modelled twice:

- **As values (traces).** A *trace* (`Metrics.Trace`) records three things:
  - the samples sent on the Prometheus channel;
  - the library calls made (libvirt or gopsutil);
  - the error returned, if any.

  `Then` composes two steps the way an early `return err` does. `Steps` is the trace of a `for` loop whose body may return early. Each Go function becomes a function producing its trace (`Libvirt.DomainTrace`, `NodeBasic.UpdateTrace`, …).
- **As classes.** The collector objects are classes whose methods append to an `out` field (the channel) and a `calls`/`queries` field, and return the error. Each method's postcondition ties the new state to the trace function. The properties are proved once, as lemmas about the trace functions.

Library handles (connections and domains) are ghost state of `LibvirtInfo.LibvirtExporter` and `VmLibvirtInfo.LibvirtCollector`: a set `live` of handles held. A scrape starts and ends with `live` empty, so every handle obtained is freed exactly once. This holds when a domain fails as well.

The Python scripts are modelled on Python's own string operations (`PyStr`: `str.split()`, `str.split(' ')`, `' '.join`, `startswith`). The loops the scripts run become Dafny methods with loop invariants.

Where the code and its description disagree, the model follows the code:

- When a scrape fails, the samples already sent stay sent and `up` = 0 follows them. They are not withdrawn.
- The CPU error text is lower case: "no cpu info".
- `core` is counted over all sockets together, not per socket (`NodeBasic.UnevenSocketsOverCount`).

## Model

| member | source | states |
|---|---|---|
| Libvirt.DomainLabelValues | collector/libvirt_info.go:401-418 | with nova metadata on, one value per label name of the domain descriptors; without it, only name and UUID; name and UUID always come first, and with metadata on they are followed by the nova instance name, flavor name and owner project name |
| Libvirt.MemDesc | collector/libvirt_info.go:493-528 | a memory statistic has a descriptor exactly when its tag is 4, 5, 7, 8 or 9, and that descriptor takes the domain labels |
| Libvirt.MemDescInjective | collector/libvirt_info.go:493-528 | distinct recognised tags go to distinct descriptors |
| Libvirt.MemoryLoopQuiet | collector/libvirt_info.go:493-528 | the memory loop makes no library call and never fails |
| Libvirt.MemoryLoopSendsRecognized | collector/libvirt_info.go:493-528 | the memory loop sends one gauge per statistic with a recognised tag, in order, with that statistic's raw value; any other tag sends nothing |
| Libvirt.GatesShowTheSetCounters | collector/libvirt_info.go:562-617 | in a run of gated counters, counter j is sent iff its Set flag is true, and then with its own (scaled) value |
| Libvirt.GatesComeFromTheTable | collector/libvirt_info.go:562-617 | every sample of a gated run belongs to a counter whose Set flag is true |
| Libvirt.CpuCountersDistinct | collector/libvirt_info.go:458-484 | the four CPU-time counters use four distinct descriptors |
| Libvirt.BlockCountersDistinct | collector/libvirt_info.go:562-617 | the eight block counters use eight distinct descriptors |
| Libvirt.InterfaceCountersDistinct | collector/libvirt_info.go:633-688 | the eight interface counters use eight distinct descriptors |
| Libvirt.CpuStatsShown | collector/libvirt_info.go:453-485 | each CPU-time counter of entry 0 is sent iff its Set flag is true, with the unscaled value |
| Libvirt.BlockStatsShown | collector/libvirt_info.go:562-617 | each block counter is sent iff its Set flag is true; read, write and flush times are divided by 1e9, the other counters are raw |
| Libvirt.InterfaceStatsShown | collector/libvirt_info.go:633-688 | each interface counter is sent iff its Set flag is true, unscaled |
| Libvirt.SkippedDiskInvisible | collector/libvirt_info.go:531-534 | a "cdrom" or "fd" disk makes no call and sends nothing: removing it from the list leaves the whole disk loop's trace unchanged |
| Libvirt.SkippedInterfaceInvisible | collector/libvirt_info.go:623-626 | an interface with an empty target device makes no call and sends nothing |
| Libvirt.GatesWellFormed | collector/libvirt_info.go:562-617 | gated samples carry one value per label name when every counter's descriptor has the labels' arity |
| Libvirt.CpuSamplesWellFormed | collector/libvirt_info.go:453-485 | CPU samples carry the five domain labels |
| Libvirt.MemorySamplesWellFormed | collector/libvirt_info.go:487-528 | memory samples carry the five domain labels |
| Libvirt.GatesLabelled | collector/libvirt_info.go:562-617 | every gated sample carries exactly the label values it was given |
| Libvirt.DiskWellFormed | collector/libvirt_info.go:545-559 | every sample of one disk has one value per label name, and the values are the domain's values followed by the disk's source file and target device; a skipped disk sends nothing |
| Libvirt.DiskSamplesWellFormed | collector/libvirt_info.go:531-620 | every sample of the disk loop has one value per label name, and its values are the domain's values followed by the source file and target device of some disk of the list that was not skipped |
| Libvirt.InterfaceWellFormed | collector/libvirt_info.go:623-689 | every sample of one interface has one value per label name, and the values are the domain's values followed by the interface's bridge and target device; an interface without a target device sends nothing |
| Libvirt.InterfaceSamplesWellFormed | collector/libvirt_info.go:623-689 | every sample of the interface loop has one value per label name, and its values are the domain's values followed by the bridge and target device of some interface of the list that has a target device |
| Libvirt.DomainSamplesWellFormed | collector/libvirt_info.go:390-692 | with nova metadata on, every sample of a domain matches its descriptor's arity, so no MustNewConstMetric call panics |
| Libvirt.NovaOffBreaksArity | collector/libvirt_info.go:415-427 | with nova metadata off, the first info sample has two label values for five label names |
| Libvirt.UpReportsTheOutcome | collector/libvirt_info.go:323-340 | `up` is the last sample, and it is 1 iff the pass returned no error; the samples before it are exactly the samples of the collection pass, failed or not, and the calls and the returned error are the pass's |
| Libvirt.InfoStatsShown | collector/libvirt_info.go:420-449 | GetInfo's result becomes exactly five samples in a fixed order: the state and the vCPU count as reported, maximum memory and memory in bytes (KiB ×1024), and the CPU time in seconds (ns /1e9); only the CPU time is a counter, all carry the domain's labels, and a failed GetInfo sends nothing and returns its error |
| Libvirt.ConnectFailureReportsDown | collector/libvirt_info.go:343-348 | when the connection cannot be opened, only `up` = 0 is sent and the error is returned |
| Libvirt.ActiveAndTotalFirst | collector/libvirt_info.go:353-370 | the first two samples are the active count and inactive + active |
| Libvirt.FailedLookupSkipped | collector/libvirt_info.go:375-384 | an id whose lookup fails changes nothing but the call log: same samples, same error as without that id |
| Libvirt.LookupFailureQuiet | collector/libvirt_info.go:375-384 | a failed lookup sends nothing and returns no error |
| Libvirt.DomainFailureEndsScrape | collector/libvirt_info.go:375-384 | the first failing domain ends the scrape: later ids are never looked up, and its error is the scrape's |
| Libvirt.UpdateSamplesWellFormed | collector/libvirt_info.go:323-387 | with nova metadata on, every sample of a scrape matches its descriptor's arity |
| Libvirt.GatesWithin | collector/vm_libvirt_info.go:306-361 | gated counters over reduced descriptors stay within the reduced descriptors |
| Libvirt.ReducedDiskWithin | collector/vm_libvirt_info.go:296-365 | a reduced disk pass uses only BlockStats and block-counter descriptors (no GetBlockInfo, no size gauges) |
| Libvirt.InterfaceWithin | collector/vm_libvirt_info.go:367-432 | the interface pass uses only reduced descriptors and calls |
| Libvirt.ReducedDevicesWithin | collector/vm_libvirt_info.go:296-432 | both device loops of the reduced collector stay within its descriptors and calls |
| Libvirt.ReducedDomainWithin | collector/vm_libvirt_info.go:233-435 | a reduced domain pass never sends CPU, memory or block-size metrics and never calls GetCPUStats, MemoryStats or GetBlockInfo |
| Libvirt.ReducedStaysWithin | collector/vm_libvirt_info.go:184-230 | a whole reduced scrape sends no active/total counts and makes none of the full collector's extra calls |
| LibvirtInfo.LibvirtExporter.constructor | collector/libvirt_info.go:87-92 | the URI is qemu:///system, nova metadata is on, nothing has been sent and no handle is held |
| LibvirtInfo.LibvirtExporter.SendBlockStats | collector/libvirt_info.go:562-617 | appends exactly the gated block samples of the disk |
| LibvirtInfo.LibvirtExporter.SendInterfaceStats | collector/libvirt_info.go:633-688 | appends exactly the gated interface samples |
| LibvirtInfo.LibvirtExporter.CollectDisk | collector/libvirt_info.go:532-618 | one disk-loop iteration: its samples, calls and error are those of the disk's trace |
| LibvirtInfo.LibvirtExporter.CollectInterface | collector/libvirt_info.go:624-688 | one interface-loop iteration, as its trace says |
| LibvirtInfo.LibvirtExporter.CollectInfo | collector/libvirt_info.go:420-449 | GetInfo, then state, max memory ×1024, memory ×1024, vCPUs and cpu_time /1e9, or GetInfo's error |
| LibvirtInfo.LibvirtExporter.CollectCpuStats | collector/libvirt_info.go:451-485 | GetCPUStats, then the gated counters of entry 0, or the error |
| LibvirtInfo.LibvirtExporter.CollectMemoryStats | collector/libvirt_info.go:487-528 | MemoryStats, then the dispatch loop, or the error |
| LibvirtInfo.LibvirtExporter.CollectMemoryLoop | collector/libvirt_info.go:493-528 | the switch over the statistics appends what the dispatch table says |
| LibvirtInfo.LibvirtExporter.CollectDisks | collector/libvirt_info.go:531-620 | the disk loop, stopping at the first error |
| LibvirtInfo.LibvirtExporter.CollectInterfaces | collector/libvirt_info.go:623-689 | the interface loop, stopping at the first error |
| LibvirtInfo.LibvirtExporter.CollectDomain | collector/libvirt_info.go:390-692 | appends the domain's trace and returns its error |
| LibvirtInfo.LibvirtExporter.FreeInactiveDomains | collector/libvirt_info.go:363-373 | every inactive domain handle obtained is freed: the held set is unchanged |
| LibvirtInfo.LibvirtExporter.CollectLookup | collector/libvirt_info.go:376-383 | a looked-up domain is collected and then freed whether or not collection failed; the held set is unchanged |
| LibvirtInfo.LibvirtExporter.CollectDomains | collector/libvirt_info.go:375-384 | the loop over active ids, as the trace says; every handle is given back |
| LibvirtInfo.LibvirtExporter.CollectFromLibvirt | collector/libvirt_info.go:343-387 | the scrape's samples, calls and error; the connection is closed on every path, so no handle stays held |
| LibvirtInfo.LibvirtExporter.Update | collector/libvirt_info.go:323-340 | the scrape followed by `up`; well-formed samples stay well-formed |
| VmLibvirtInfo.LibvirtCollector.constructor | collector/vm_libvirt_info.go:63-68 | the URI is qemu:///system, nova metadata is on, nothing has been sent and no handle is held |
| VmLibvirtInfo.LibvirtCollector.SendBlockStats | collector/vm_libvirt_info.go:306-361 | appends exactly the gated block samples |
| VmLibvirtInfo.LibvirtCollector.SendInterfaceStats | collector/vm_libvirt_info.go:376-431 | appends exactly the gated interface samples |
| VmLibvirtInfo.LibvirtCollector.CollectDisk | collector/vm_libvirt_info.go:297-364 | one reduced disk iteration: skip, BlockStats, gated counters |
| VmLibvirtInfo.LibvirtCollector.CollectInterface | collector/vm_libvirt_info.go:368-431 | one interface iteration |
| VmLibvirtInfo.LibvirtCollector.CollectInfo | collector/vm_libvirt_info.go:264-293 | GetInfo, then the same five info samples as the full exporter (their units and order are stated by Libvirt.InfoStatsShown), or GetInfo's error |
| VmLibvirtInfo.LibvirtCollector.CollectDisks | collector/vm_libvirt_info.go:296-365 | the disk loop, stopping at the first error |
| VmLibvirtInfo.LibvirtCollector.CollectInterfaces | collector/vm_libvirt_info.go:367-432 | the interface loop, stopping at the first error |
| VmLibvirtInfo.LibvirtCollector.CollectDomain | collector/vm_libvirt_info.go:233-435 | appends the reduced domain trace and returns its error |
| VmLibvirtInfo.LibvirtCollector.CollectLookup | collector/vm_libvirt_info.go:219-225 | lookup, collect, free; a failed lookup is skipped |
| VmLibvirtInfo.LibvirtCollector.CollectDomains | collector/vm_libvirt_info.go:218-226 | the loop over active ids; every handle is given back |
| VmLibvirtInfo.LibvirtCollector.CollectFromLibvirt | collector/vm_libvirt_info.go:204-230 | connect, list, loop; no counts; nothing stays held |
| VmLibvirtInfo.LibvirtCollector.Update | collector/vm_libvirt_info.go:184-200 | the scrape followed by `up` |
| Metrics.ThenSequenced | collector/libvirt_info.go:390-692 | running one step and then the next, unless the first failed, appends exactly the composed trace |
| Metrics.StepsStopAtFailure | collector/libvirt_info.go:375-384 | a loop whose body returns an error at element k never reaches the elements after k |
| Metrics.StepsSkipQuietElement | collector/libvirt_info.go:531-534 | an element that sends nothing, calls nothing and does not fail can be dropped from a loop |
| Strconv.FormatUintRoundTrip | collector/node_basic.go:116 | reading strconv.FormatUint(n, 10) back as decimal digits gives n |
| Strconv.FormatUintInjective | collector/node_basic.go:139 | distinct numbers render as distinct labels |
| NodeBasic.RoundHalfEven | collector/node_basic.go:177 | the frequency label is within 0.5 of the mean, ties going to the even neighbour |
| NodeBasic.NetSamples | collector/node_basic.go:148-151 | one net_dev sample per interface, in input order |
| NodeBasic.UsageQueries | collector/node_basic.go:111-114 | one Usage query per partition, in order |
| NodeBasic.NoCpuInfoFails | collector/node_basic.go:160-162 | an empty CPU list returns "no cpu info"; nothing is sent and nothing else is queried |
| NodeBasic.CpuCountLabels | collector/node_basic.go:163-176 | count reads back as the number of distinct physical ids; core reads back as that times the number of distinct core ids |
| NodeBasic.CpuVendorFromFirst | collector/node_basic.go:177 | vendor and model come from the first entry only |
| NodeBasic.TwoSocketsTwoCores | collector/node_basic.go:163-176 | two sockets with core ids 0 and 1 each give count 2, core 4 |
| NodeBasic.UnevenSocketsOverCount | collector/node_basic.go:167-175 | one socket with two cores and one with one core are still reported as core 4 |
| NodeBasic.DiskTotalIsTheSum | collector/node_basic.go:110-114 | below 2^64 the uint64 running total is the plain sum of partition totals |
| NodeBasic.DiskLabelIsTheSum | collector/node_basic.go:103-116 | the disk label reads back as the total capacity of all partitions |
| NodeBasic.DiskRunsLast | collector/node_basic.go:81-101 | Partitions is queried iff the four earlier sections succeeded; a disk error is then the scrape's error |
| NodeBasic.FirstErrorIsReported | collector/node_basic.go:81-101 | the scrape's error is the first failing section's error, in the order cpu, mem, net, host, disk |
| NodeBasic.UpdateSamplesAreInfo | collector/node_basic.go:116-177 | every sample is a counter of value 1 with one value per label name |
| NodeBasic.LinuxBasicCollector.constructor | collector/node_basic.go:30-36 | nothing sent, nothing queried |
| NodeBasic.LinuxBasicCollector.UpdateCpuInfo | collector/node_basic.go:155-179 | the two set-building loops and the MHz sum produce the CPU trace |
| NodeBasic.LinuxBasicCollector.UpdateMemInfo | collector/node_basic.go:134-141 | VirtualMemory, then the total as a decimal label, or the error |
| NodeBasic.LinuxBasicCollector.UpdateNetDevInfo | collector/node_basic.go:143-153 | the interface loop appends one sample per interface |
| NodeBasic.LinuxBasicCollector.UpdateHostName | collector/node_basic.go:121-132 | host.Info, then one sample with its eight fields, or the error |
| NodeBasic.LinuxBasicCollector.UpdateDisk | collector/node_basic.go:103-119 | the partition loop accumulates the uint64 total, then sends one sample |
| NodeBasic.LinuxBasicCollector.Update | collector/node_basic.go:81-101 | the five sections in order, stopping at the first error |
| PyStr.SplitOn | prometheus_pusher.py:87 | str.split(' ') gives at least one piece, and no piece contains a space |
| PyStr.SplitOnJoin | prometheus_pusher.py:87 | joining the pieces with the separator gives back the string |
| PyStr.JoinSplitOn | prometheus_pusher.py:87 | splitting a join of pieces that have no separator gives the pieces back |
| PyStr.Fields | prometheus_pusher.py:36 | every field of str.split() is non-empty and free of whitespace |
| PyStr.FieldsOfJoin | prometheus_pusher.py:36-43 | str.split() of fields joined by single spaces gives the fields back |
| HostAddress.GetIp | prometheus_pusher.py:83-90 | the space-split output with only the first piece equal to "\n" removed, if there is one |
| HostAddress.PiecesRebuildOutput | push_result.py:55 | the pieces contain no space and rebuild the command output |
| HostAddress.TypicalOutput | push_result.py:55-57 | for "a b … \n" the split gives the addresses plus a lone "\n", which get_ip then removes |
| HostAddress.FirstMatchExists | push_result.py:69-72 | unless no address has the prefix, there is a first one that does |
| HostAddress.SelectDeviceIp | push_result.py:69-72 | the selection loop returns the first address with the prefix, or "" when none has it |
| HostAddress.EmptySelection | prometheus_pusher.py:104-108 | an empty selection means no usable first match exists |
| PrometheusPusher.TruncateShape | prometheus_pusher.py:44-45 | names of at most 60 characters are unchanged; longer ones become 65 characters: their first 31, "....", their last 30 |
| PrometheusPusher.TruncateIdempotent | prometheus_pusher.py:44-45 | truncating twice is truncating once |
| PrometheusPusher.NameRoundTrip | prometheus_pusher.py:39-43 | a name of at most 60 characters splits back into the command words (fields 10 onward) |
| PrometheusPusher.BuildName | prometheus_pusher.py:40-43 | the append-word-and-space loop, minus the last character, is the words joined by single spaces |
| PrometheusPusher.NameOf | prometheus_pusher.py:39-45 | the process_name label of one split `ps` row |
| PrometheusPusher.DataRows | prometheus_pusher.py:31-36 | one split row per line after the header |
| PrometheusPusher.GetProcessInfo | prometheus_pusher.py:29-52 | the loop builds both bodies and the result equals the exposition text, or the IndexError a short row raises |
| PrometheusPusher.HeaderLineIgnored | prometheus_pusher.py:31 | the first line plays no part in the result |
| PrometheusPusher.FailsOnShortRow | prometheus_pusher.py:46-47 | the result is an error iff some process line has fewer than four fields |
| PrometheusPusher.LinesInOrder | prometheus_pusher.py:46-47 | the lines of later processes follow those of earlier ones |
| PrometheusPusher.LineCount | prometheus_pusher.py:46-51 | the text has the four HELP/TYPE lines plus one cpu line and one mem line per process |
| PrometheusPusher.ChooseDeviceIp | prometheus_pusher.py:103-110 | with a usable first matching address the script goes on with it; otherwise it prints "no ip found" and exits with 1 |
| PushResult.ChooseDeviceIpAsWritten | push_result.py:68-74 | without a usable address the script dies of a NameError on `sys` |
| PushResult.NoAddressWithPrefix | push_result.py:69-74 | an address list with no match reaches the `sys.exit` line |
| PushResult.ChooseDeviceIp | push_result.py:68-74 | intended start-up: the first usable matching address, or exit status 1 |
| PushResult.Info | push_result.py:39-41 | for a message with no `%` conversion, the log file gets the message iff no argument is passed, and nothing otherwise |
| PushResult.WrittenLogIsInfo | push_result.py:39-41 | what one execution leaves in the log file is what its `logger.info` call writes: the success line when neither the get nor the post raised, and nothing when one raised |
| PushResult.WrittenLinesAreSuccesses | push_result.py:39-41 | the log file holds only success lines, at most one per execution, and one per execution exactly when every execution succeeded |
| PushResult.IntendedLogLine | push_result.py:39-41 | the intended line is the success message iff neither request raised; otherwise it is the failure message followed by the exception's text |
| PushResult.IntendedLogLines | push_result.py:39-41 | the intended log has one line per execution, and line k is the success message iff execution k succeeded |
| PushResult.FailureUnlogged | push_result.py:41 | a refused connection leaves the log file as written empty, while the intended log has its failure line |
| PushResult.Pusher.constructor | push_result.py:13-17 | no event queued, nothing logged or posted |
| PushResult.Pusher.Start | push_result.py:45-48 | the first execution is entered with delay 0 |
| PushResult.Pusher.ExecuteCommand | push_result.py:28-43 | posts the page when it was fetched, writes the log file as written (the success line, or nothing), and re-enters itself `inc` seconds later on every path |
| PushResult.Pusher.Run | push_result.py:49 | after any number of executions exactly one event is pending, for the same command and period; the log file and the posts are those of each attempt in turn |

## Left out

- The libvirt C bindings, gopsutil and the Prometheus client are not modelled. Their results are inputs (`Libvirt.Hypervisor`, `Libvirt.Domain`, `NodeBasic.Host`), and each query may fail with an error.
- Domain XML unmarshalling is not modelled: the parsed topology is an input, and missing nova metadata is empty strings.
- Label arity is proved instead of checked at run time. `MustNewConstMetric` panics on a mismatch; the model proves that no mismatch occurs with nova metadata on, and shows that one occurs with it off (`Libvirt.NovaOffBreaksArity`). `exportNovaMetadata` is hard-wired to true in both constructors.
- `Describe` (collector/libvirt_info.go:286-320) is not modelled. It is a constant listing, and it leaves out the interface descriptors.
- The descriptor constructors of both libvirt collectors are modelled only through their names and label names (`Libvirt.FqName`, `Libvirt.LabelNames`). Help strings are not modelled.
- Libvirt.CpuTrace: GetCPUStats(-1, 0, 0) is assumed to return at least one entry (the `CPUStatsList` type). The code reads entry 0 without a check; what it does on an empty list is not modelled.
- NodeBasic.UsageQueries: the error `disk.Usage` returns is discarded at collector/node_basic.go:112. The model takes each partition's total from a function, whatever the error was.
- NodeBasic.Name gives only the subsystem part of each descriptor name. The `node` namespace prefix and the help strings are not modelled.
- NodeBasic.FormatMhz: the MHz mean is a real number, not a float64. Rounding of the float summation is not modelled; only `FormatFloat(x, 'f', 0, 64)`'s round-half-even to an integer is.
- `json.Marshal` of interface addresses is an input string (`addrsJson`).
- Python's `str(float(field))` of the `ps` columns is a parameter `render`. The ValueError that `float()` raises on a non-number is not modelled, and neither is `int(period)`.
- `device_ip is ''` is modelled as string equality. CPython interns the empty string, so the two agree.
- Python plumbing is not modelled: `os.popen`, `subprocess`, `requests`, `json.dumps`, `configparser`, `os.fork` and the clock of `sched`.
- Logging is modelled by the message text of each record the log file receives (`PushResult.Info`). The formatter's timestamp, logger name and level prefix are not modelled, and neither is the "--- Logging error ---" report that the handler prints on stderr.
  - PushResult.Pusher.Run models `schedule.run()` as one execution per attempt. It does not model the delays.
- `execute_command_node` (prometheus_pusher.py:55-74) is not modelled separately. It has the same shape as push_result.py's `execute_command` (`PushResult.Pusher.ExecuteCommand`), except that it appends the process text to the page.
- Libvirt.KiBToBytes: the byte count is an exact real. The float64 rounding of sizes above 2^53 bytes is not modelled.
- Libvirt.NanosToSeconds: the quotient by 1e9 is an exact real. The float64 rounding of the division is not modelled.
- Libvirt.CounterReading: each counter reading is an exact real. The float64 rounding of counters above 2^53 is not modelled.
- LibvirtInfo.LibvirtExporter.Update: the `log.Printf("Failed to scrape metrics: %s", err)` at collector/libvirt_info.go:331 is not modelled; the error is still returned and `up` is 0.
- VmLibvirtInfo.LibvirtCollector.Update: the same `log.Printf` at collector/vm_libvirt_info.go:192 is not modelled.
- Concurrency is not modelled: the channel is a sequence, and the scrape is one sequential pass.

## Findings

| source | as written | input that shows it | evidently intended | confidence | as-written member | corrected member |
|---|---|---|---|---|---|---|
| push_result.py:41 | `logger.info('send message error ',e)` passes the exception as a format argument to a message with no `%` conversion, so formatting the record raises TypeError, the handler reports it on stderr, and the log file gets no line for a failed execution; prometheus_pusher.py:71 has the same call | the local exporter refuses the connection, so `requests.get` raises | one log line per failed execution: the failure message followed by the exception | not executed | PushResult.FailureUnlogged | PushResult.IntendedLogLine |
| push_result.py:73-74 | `sys.exit(1)` in a module that never imports `sys` (imports at push_result.py:2-9), so the no-address path raises NameError | `hostname -I` gives `192.168.1.2`, prefix `10.` | exit with status 1 before forking, as prometheus_pusher.py:108-110 does | not executed | PushResult.ChooseDeviceIpAsWritten | PushResult.ChooseDeviceIp |
