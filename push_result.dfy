/** push_result.py: finds the address to report as target_ip, then forwards
    the local node exporter's text to the remote collector once per period,
    for ever. The HTTP calls, the clock and the fork are left out; what one
    execution meets is an input. */
module PushResult {
  import opened Metrics
  import opened PyStr
  import opened HostAddress

  // ---------------------------------------------------------------------------
  // Start-up
  // ---------------------------------------------------------------------------

  /** What Python raises at `sys.exit(1)` in a module that never imported sys. */
  const SysNotDefined := "NameError: name 'sys' is not defined"

  /** The start-up code after get_ip, as written: with no usable address it
      reaches `sys.exit(1)`, but push_result.py does not import sys, so the
      script dies of a NameError instead. */
  method ChooseDeviceIpAsWritten(ips: seq<string>, prefix: string) returns (o: Outcome)
    ensures o.Daemon? <==> exists i :: IsFirstMatch(ips, prefix, i) && ips[i] != ""
    ensures o.Daemon? ==> exists i :: IsFirstMatch(ips, prefix, i) && o.deviceIp == ips[i]
    ensures !o.Daemon? ==> o == Raise(SysNotDefined)
  {
    var deviceIp := SelectDeviceIp(ips, prefix);
    if deviceIp == "" {
      EmptySelection(ips, prefix);
      return Raise(SysNotDefined);
    }
    return Daemon(deviceIp);
  }

  /** An address list none of whose entries has the prefix reaches that line. */
  lemma NoAddressWithPrefix()
    ensures NoMatch(["192.168.1.2"], "10.")
  {
    assert !StartsWith("192.168.1.2", "10.") by {
      assert "192.168.1.2"[1] != "10."[1];
    }
  }

  /** The start-up code as intended: with no usable address the script exits
      with status 1 and prints nothing; otherwise it goes on with the first
      address that has the prefix. */
  method ChooseDeviceIp(ips: seq<string>, prefix: string) returns (o: Outcome)
    ensures o.Daemon? <==> exists i :: IsFirstMatch(ips, prefix, i) && ips[i] != ""
    ensures o.Daemon? ==> exists i :: IsFirstMatch(ips, prefix, i) && o.deviceIp == ips[i]
    ensures !o.Daemon? ==> o == Exit(1, [])
  {
    var deviceIp := SelectDeviceIp(ips, prefix);
    if deviceIp == "" {
      EmptySelection(ips, prefix);
      return Exit(1, []);
    }
    return Daemon(deviceIp);
  }

  // ---------------------------------------------------------------------------
  // The periodic push
  // ---------------------------------------------------------------------------

  /** The JSON body of one post. */
  datatype Payload = Payload(targetIp: string, program: string, metricsStr: string, period: int)

  /** A pending `schedule.enter(delay, priority, execute_command, (cmd, inc))`. */
  datatype Event = Event(delay: int, priority: int, cmd: string, inc: int)

  /** What one execution meets: the local exporter's page or the exception
      requests.get raised, and the exception requests.post raised, if any. The
      HTTP status of the post is never looked at. */
  datatype Attempt = Attempt(page: Result<string>, post: Option<Error>)

  const SendOk := "send a metric batch success."
  const SendFailed := "send message error "

  /** Neither request raised. */
  predicate Succeeded(a: Attempt) {
    a.page.Ok? && a.post.None?
  }

  /** The exception the `try` block caught: the get's, or else the post's. */
  function Raised(a: Attempt): Error
    requires !Succeeded(a)
  {
    if a.page.Err? then a.page.error else a.post.value
  }

  /** What `logger.info(msg, *args)` writes to the log file, for a message with
      no `%` conversion (the only kind this script logs). With no argument the
      message is written. With arguments the record's text is `msg % args`,
      which raises TypeError ("not all arguments converted"); the file handler
      reports that on stderr through handleError, and the file gets nothing. */
  function Info(msg: string, args: seq<string>): (written: seq<string>)
    requires '%' !in msg
    ensures |written| <= 1
    ensures written != [] <==> args == []
    ensures written != [] ==> written[0] == msg
  {
    if args == [] then [msg] else []
  }

  /** What one execution writes to the log file, as written: the success line,
      or nothing (see WrittenLogIsInfo). */
  function WrittenLog(a: Attempt): seq<string> {
    if Succeeded(a) then [SendOk] else []
  }

  /** The two logging calls of execute_command: the success line is logged
      with no argument, but the failure line passes the exception as an
      argument, so a failed execution leaves no line at all. */
  lemma WrittenLogIsInfo(a: Attempt)
    ensures Succeeded(a) ==> WrittenLog(a) == Info(SendOk, [])
    ensures !Succeeded(a) ==> WrittenLog(a) == Info(SendFailed, [Raised(a).message]) == []
  {
  }

  /** The log file after a run of executions, as written. */
  function WrittenLines(attempts: seq<Attempt>): seq<string>
    decreases |attempts|
  {
    if attempts == [] then []
    else WrittenLines(attempts[..|attempts| - 1]) + WrittenLog(attempts[|attempts| - 1])
  }

  /** One more execution. */
  lemma WrittenLinesSnoc(attempts: seq<Attempt>, k: nat)
    requires k < |attempts|
    ensures WrittenLines(attempts[..k + 1]) == WrittenLines(attempts[..k]) + WrittenLog(attempts[k])
  {
    assert attempts[..k + 1][..k] == attempts[..k];
  }

  /** The log file holds only success lines: one per execution exactly when
      every execution succeeded, fewer otherwise. */
  lemma {:induction false} WrittenLinesAreSuccesses(attempts: seq<Attempt>)
    ensures var lines := WrittenLines(attempts);
      |lines| <= |attempts| && forall k :: 0 <= k < |lines| ==> lines[k] == SendOk
    ensures |WrittenLines(attempts)| == |attempts| <==> forall k :: 0 <= k < |attempts| ==> Succeeded(attempts[k])
    decreases |attempts|
  {
    if attempts != [] {
      var n := |attempts| - 1;
      WrittenLinesAreSuccesses(attempts[..n]);
      assert forall k :: 0 <= k < n ==> attempts[..n][k] == attempts[k];
      if !Succeeded(attempts[n]) {
        assert |WrittenLines(attempts)| < |attempts|;
      }
    }
  }

  /** The line one execution evidently means to log: the success message, or
      the failure message followed by the text of the exception. */
  function IntendedLogLine(a: Attempt): (line: string)
    ensures line == SendOk <==> Succeeded(a)
    ensures !Succeeded(a) ==> SendFailed <= line && line[|SendFailed|..] == Raised(a).message
  {
    if Succeeded(a) then SendOk
    else
      var line := SendFailed + Raised(a).message;
      assert line[5] != SendOk[5];
      line
  }

  /** The intended log: one line per execution, in order. */
  function IntendedLogLines(attempts: seq<Attempt>): (lines: seq<string>)
    ensures |lines| == |attempts|
    ensures forall k :: 0 <= k < |attempts| ==> (lines[k] == SendOk <==> Succeeded(attempts[k]))
  {
    seq(|attempts|, k requires 0 <= k < |attempts| => IntendedLogLine(attempts[k]))
  }

  /** A refused connection to the local exporter: the intended log has its
      failure line, the log file as written has nothing. */
  lemma FailureUnlogged()
    ensures var a := Attempt(Err(Error("connection refused")), None);
      WrittenLines([a]) == [] && IntendedLogLines([a]) == [SendFailed + "connection refused"]
  {
    var a := Attempt(Err(Error("connection refused")), None);
    assert [a][..0] == [];
  }

  class Pusher {
    const deviceIp: string
    const program: string
    const period: int

    /** The scheduler's pending events, earliest first. */
    var queue: seq<Event>
    /** The log file's lines. */
    var log: seq<string>
    /** Every body handed to requests.post, in order. */
    var posted: seq<Payload>

    constructor (deviceIp: string, program: string, period: int)
      ensures this.deviceIp == deviceIp && this.program == program && this.period == period
      ensures queue == [] && log == [] && posted == []
    {
      this.deviceIp := deviceIp;
      this.program := program;
      this.period := period;
      queue := [];
      log := [];
      posted := [];
    }

    /** The post one execution makes: one when the page was fetched. */
    function Sent(a: Attempt): seq<Payload> {
      if a.page.Ok? then [Payload(deviceIp, program, a.page.value, period)] else []
    }

    function AllSent(attempts: seq<Attempt>): seq<Payload>
      decreases |attempts|
    {
      if attempts == [] then [] else AllSent(attempts[..|attempts| - 1]) + Sent(attempts[|attempts| - 1])
    }

    lemma AllSentSnoc(attempts: seq<Attempt>, k: nat)
      requires k < |attempts|
      ensures AllSent(attempts[..k + 1]) == AllSent(attempts[..k]) + Sent(attempts[k])
    {
      assert attempts[..k + 1][..k] == attempts[..k];
    }

    /** main: the first execution, due at once. */
    method Start(cmd: string, inc: int)
      modifies this`queue
      ensures queue == old(queue) + [Event(0, 0, cmd, inc)]
    {
      queue := queue + [Event(0, 0, cmd, inc)];
    }

    /** execute_command: fetch, post, log; then enter itself again `inc`
        seconds later, whichever request raised. Only a success reaches the
        log file (see WrittenLog). */
    method ExecuteCommand(cmd: string, inc: int, a: Attempt)
      modifies this`queue, this`log, this`posted
      ensures queue == old(queue) + [Event(inc, 0, cmd, inc)]
      ensures posted == old(posted) + Sent(a)
      ensures log == old(log) + WrittenLog(a)
    {
      WrittenLogIsInfo(a);
      if a.page.Ok? {
        posted := posted + [Payload(deviceIp, program, a.page.value, period)];
        if a.post.None? {
          log := log + Info(SendOk, []);
        } else {
          log := log + Info(SendFailed, [a.post.value.message]);
        }
      } else {
        log := log + Info(SendFailed, [a.page.error.message]);
      }
      queue := queue + [Event(inc, 0, cmd, inc)];
    }

    /** schedule.run() over as many executions as there are attempts: each
        pops the one pending event and runs it, and there is again exactly one
        pending event afterwards, so no outcome ends the loop. */
    method Run(attempts: seq<Attempt>)
      requires |queue| == 1
      modifies this`queue, this`log, this`posted
      ensures |queue| == 1 && queue[0].cmd == old(queue[0].cmd) && queue[0].inc == old(queue[0].inc)
      ensures |attempts| > 0 ==> queue[0] == Event(old(queue[0].inc), 0, old(queue[0].cmd), old(queue[0].inc))
      ensures log == old(log) + WrittenLines(attempts)
      ensures posted == old(posted) + AllSent(attempts)
    {
      ghost var first := queue[0];
      for k := 0 to |attempts|
        invariant |queue| == 1 && queue[0].cmd == first.cmd && queue[0].inc == first.inc
        invariant k > 0 ==> queue[0] == Event(first.inc, 0, first.cmd, first.inc)
        invariant log == old(log) + WrittenLines(attempts[..k])
        invariant posted == old(posted) + AllSent(attempts[..k])
      {
        var ev := queue[0];
        queue := queue[1..];
        ghost var log0, posted0 := log, posted;
        ExecuteCommand(ev.cmd, ev.inc, attempts[k]);
        WrittenLinesSnoc(attempts, k);
        AllSentSnoc(attempts, k);
        assert log == old(log) + (WrittenLines(attempts[..k]) + WrittenLog(attempts[k])) by {
          assert log == log0 + WrittenLog(attempts[k]);
        }
        assert posted == old(posted) + (AllSent(attempts[..k]) + Sent(attempts[k])) by {
          assert posted == posted0 + Sent(attempts[k]);
        }
      }
      assert attempts[..|attempts|] == attempts;
    }
  }
}
