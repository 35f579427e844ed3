/** prometheus_pusher.py: turns `ps aux` output into two exposition-format
    metric families, process_cpu and process_mem, one line per process, and
    picks the address it reports as target_ip. The `ps` output is an input
    (its lines, as readlines() returns them) and str(float(field)) is the
    parameter `render`. */
module PrometheusPusher {
  import opened Metrics
  import opened PyStr
  import opened HostAddress

  // ---------------------------------------------------------------------------
  // Process names
  // ---------------------------------------------------------------------------

  /** A name longer than 60 characters keeps its first 31 and last 30, with
      four dots between. */
  function Truncate(name: string): string {
    if |name| > 60 then name[..31] + "...." + name[|name| - 30..] else name
  }

  /** The command words: the fields from the eleventh on (`ps aux` puts the
      command line last). Python's slice gives none when there are fewer. */
  function CommandWords(row: seq<string>): seq<string> {
    if |row| >= 10 then row[10..] else []
  }

  /** The process_name label of a `ps` row. */
  function ProcessName(row: seq<string>): string {
    Truncate(JoinWith(CommandWords(row), " "))
  }

  /** A truncated name is 65 characters long, starts as the name does, ends
      with the name's last 30 characters, and holds the four dots in between;
      shorter names pass unchanged. */
  lemma TruncateShape(name: string)
    ensures |name| <= 60 ==> Truncate(name) == name
    ensures |name| > 60 ==> var t := Truncate(name);
      |t| == 65 && t[..31] == name[..31] && t[31..35] == "...." && t[35..] == name[|name| - 30..]
  {
  }

  /** Truncating twice is truncating once. */
  lemma TruncateIdempotent(name: string)
    ensures Truncate(Truncate(name)) == Truncate(name)
  {
    if |name| > 60 {
      var t := Truncate(name);
      assert t[..31] == name[..31];
      assert t[|t| - 30..] == name[|name| - 30..];
    }
  }

  /** A name of at most 60 characters splits back into the command words. */
  lemma NameRoundTrip(row: seq<string>)
    requires forall i :: 0 <= i < |row| ==> IsField(row[i])
    requires |JoinWith(CommandWords(row), " ")| <= 60
    ensures Fields(ProcessName(row)) == CommandWords(row)
  {
    FieldsOfJoin(CommandWords(row));
  }

  /** The loop of get_process_info that appends each word and a space, then
      drops the last character. */
  method BuildName(words: seq<string>) returns (name: string)
    ensures name == JoinWith(words, " ")
  {
    name := "";
    for i := 0 to |words|
      invariant i == 0 ==> name == ""
      invariant i > 0 ==> name == JoinWith(words[..i], " ") + " "
    {
      if i > 0 {
        JoinSnoc(words[..i], words[i], " ");
        assert words[..i + 1] == words[..i] + [words[i]];
      }
      name := name + words[i] + " ";
    }
    assert words[..|words|] == words;
    if |name| > 0 {
      name := name[..|name| - 1];
    }
  }

  /** The process_name of one split `ps` line: the command words joined,
      then truncated. */
  method NameOf(fields: seq<string>) returns (name: string)
    ensures name == ProcessName(fields)
  {
    var words := if |fields| >= 10 then fields[10..] else [];
    name := BuildName(words);
    if |name| > 60 {
      name := name[..31] + "...." + name[|name| - 30..];
    }
  }

  // ---------------------------------------------------------------------------
  // The exposition text
  // ---------------------------------------------------------------------------

  const CpuMetric := "process_cpu"
  const MemMetric := "process_mem"
  const CpuHelp := "# HELP process_cpu This is process_cpu"
  const CpuType := "# TYPE process_cpu gauge"
  const MemHelp := "# HELP process_mem This is process_mem"
  const MemType := "# TYPE process_mem gauge"
  const CpuHead := CpuHelp + "\n" + CpuType + "\n"
  const MemHead := MemHelp + "\n" + MemType + "\n"

  const UserOpen := "{user=\""
  const NameOpen := "\",process_name=\""
  const LabelsClose := "\"} "

  /** One exposition line: the metric, its two labels, a space, the value. */
  function MetricLine(metric: string, user: string, name: string, value: string): string {
    metric + UserOpen + user + NameOpen + name + LabelsClose + value + "\n"
  }

  /** The split rows of the `ps` output, the header line dropped. */
  function DataRows(lines: seq<string>): (rows: seq<seq<string>>)
    ensures |rows| == if lines == [] then 0 else |lines| - 1
  {
    if lines == [] then []
    else seq(|lines| - 1, i requires 0 <= i < |lines| - 1 => Fields(lines[i + 1]))
  }

  /** Rows with the user, %CPU and %MEM columns the collector reads. */
  predicate Complete(rows: seq<seq<string>>) {
    forall i :: 0 <= i < |rows| ==> |rows[i]| >= 4
  }

  /** One metric line per row, in order: the user from column 0 and the value
      from column `col`. */
  function Lines(rows: seq<seq<string>>, metric: string, col: nat, render: string -> string): (ls: seq<string>)
    requires Complete(rows) && col < 4
    ensures |ls| == |rows|
  {
    seq(|rows|, i requires 0 <= i < |rows| => MetricLine(metric, rows[i][0], ProcessName(rows[i]), render(rows[i][col])))
  }

  /** String concatenation of the lines, as `+=` in a loop builds it. */
  function Concat(ls: seq<string>): string
    decreases |ls|
  {
    if ls == [] then "" else Concat(ls[..|ls| - 1]) + ls[|ls| - 1]
  }

  /** The two families, each under its HELP and TYPE header. */
  function Exposition(bodyCpu: string, bodyMem: string): string {
    CpuHead + bodyCpu + MemHead + bodyMem
  }

  /** get_process_info: the cpu family then the mem family; a row with fewer
      than four fields raises IndexError. */
  function ProcessInfo(lines: seq<string>, render: string -> string): Result<string> {
    var rows := DataRows(lines);
    if !Complete(rows) then Err(Error("list index out of range"))
    else Ok(Exposition(Concat(Lines(rows, CpuMetric, 2, render)), Concat(Lines(rows, MemMetric, 3, render))))
  }

  method GetProcessInfo(lines: seq<string>, render: string -> string) returns (r: Result<string>)
    ensures r == ProcessInfo(lines, render)
  {
    var datas := if |lines| >= 1 then lines[1..] else [];
    ghost var rows := DataRows(lines);
    var bodyCpu := "";
    var bodyMem := "";
    for i := 0 to |datas|
      invariant |rows| == |datas| && Complete(rows[..i])
      invariant bodyCpu == Concat(Lines(rows[..i], CpuMetric, 2, render))
      invariant bodyMem == Concat(Lines(rows[..i], MemMetric, 3, render))
    {
      var fields := Fields(datas[i]);
      assert fields == rows[i];
      var name := NameOf(fields);
      if |fields| < 4 {
        return Err(Error("list index out of range"));
      }
      assert rows[..i + 1] == rows[..i] + [fields];
      BothSnoc(rows[..i], fields, render);
      bodyCpu := bodyCpu + MetricLine(CpuMetric, fields[0], name, render(fields[2]));
      bodyMem := bodyMem + MetricLine(MemMetric, fields[0], name, render(fields[3]));
    }
    assert rows[..|datas|] == rows;
    return Ok(Exposition(bodyCpu, bodyMem));
  }

  // ---------------------------------------------------------------------------
  // Properties
  // ---------------------------------------------------------------------------

  /** The first line of the `ps` output plays no part. */
  lemma HeaderLineIgnored(h1: string, h2: string, rest: seq<string>, render: string -> string)
    ensures ProcessInfo([h1] + rest, render) == ProcessInfo([h2] + rest, render)
  {
    assert DataRows([h1] + rest) == DataRows([h2] + rest);
  }

  /** The text fails exactly when some process line has fewer than four fields. */
  lemma FailsOnShortRow(lines: seq<string>, render: string -> string)
    ensures ProcessInfo(lines, render).Err? <==> exists i :: 1 <= i < |lines| && |Fields(lines[i])| < 4
  {
    var rows := DataRows(lines);
    if !Complete(rows) {
      var k :| 0 <= k < |rows| && |rows[k]| < 4;
      assert |Fields(lines[k + 1])| < 4;
    }
    if exists i :: 1 <= i < |lines| && |Fields(lines[i])| < 4 {
      var i :| 1 <= i < |lines| && |Fields(lines[i])| < 4;
      assert |rows[i - 1]| < 4;
    }
  }

  lemma BothSnoc(rows: seq<seq<string>>, row: seq<string>, render: string -> string)
    requires Complete(rows) && |row| >= 4
    ensures Complete(rows + [row])
    ensures Concat(Lines(rows + [row], CpuMetric, 2, render)) ==
      Concat(Lines(rows, CpuMetric, 2, render)) + MetricLine(CpuMetric, row[0], ProcessName(row), render(row[2]))
    ensures Concat(Lines(rows + [row], MemMetric, 3, render)) ==
      Concat(Lines(rows, MemMetric, 3, render)) + MetricLine(MemMetric, row[0], ProcessName(row), render(row[3]))
  {
    LinesSnoc(rows, row, CpuMetric, 2, render);
    LinesSnoc(rows, row, MemMetric, 3, render);
  }

  /** One more row adds its line at the end. */
  lemma LinesSnoc(rows: seq<seq<string>>, row: seq<string>, metric: string, col: nat, render: string -> string)
    requires Complete(rows) && |row| >= 4 && col < 4
    ensures Complete(rows + [row])
    ensures Concat(Lines(rows + [row], metric, col, render)) ==
      Concat(Lines(rows, metric, col, render)) + MetricLine(metric, row[0], ProcessName(row), render(row[col]))
  {
    var l := Lines(rows + [row], metric, col, render);
    assert l[..|rows|] == Lines(rows, metric, col, render);
  }

  lemma {:induction false} ConcatAppend(ls: seq<string>, more: seq<string>)
    ensures Concat(ls + more) == Concat(ls) + Concat(more)
    decreases |more|
  {
    if more == [] {
      assert ls + more == ls;
    } else {
      var n := |more| - 1;
      var all := ls + more;
      assert all[..|all| - 1] == ls + more[..n];
      assert all[|all| - 1] == more[n];
      assert Concat(all) == Concat(ls + more[..n]) + more[n];
      ConcatAppend(ls, more[..n]);
      assert Concat(more) == Concat(more[..n]) + more[n];
    }
  }

  /** The lines of later rows follow the lines of earlier rows. */
  lemma LinesInOrder(rows: seq<seq<string>>, more: seq<seq<string>>, metric: string, col: nat, render: string -> string)
    requires Complete(rows) && Complete(more) && col < 4
    ensures Complete(rows + more)
    ensures Concat(Lines(rows + more, metric, col, render)) ==
      Concat(Lines(rows, metric, col, render)) + Concat(Lines(more, metric, col, render))
  {
    assert Lines(rows + more, metric, col, render) == Lines(rows, metric, col, render) + Lines(more, metric, col, render);
    ConcatAppend(Lines(rows, metric, col, render), Lines(more, metric, col, render));
  }

  /** The number of line feeds in s. */
  function Newlines(s: string): nat
    decreases |s|
  {
    if s == [] then 0 else Newlines(s[..|s| - 1]) + (if s[|s| - 1] == '\n' then 1 else 0)
  }

  lemma {:induction false} NewlinesAppend(a: string, b: string)
    ensures Newlines(a + b) == Newlines(a) + Newlines(b)
    decreases |b|
  {
    if b == [] {
      assert a + b == a;
    } else {
      assert (a + b)[..|a + b| - 1] == a + b[..|b| - 1];
      NewlinesAppend(a, b[..|b| - 1]);
    }
  }

  lemma {:induction false} NoNewlines(s: string)
    requires '\n' !in s
    ensures Newlines(s) == 0
    decreases |s|
  {
    if s != [] {
      assert s[..|s| - 1] + [s[|s| - 1]] == s;
      NoNewlines(s[..|s| - 1]);
    }
  }

  /** A line without a line feed, then a line feed. */
  lemma OneLine(s: string)
    requires '\n' !in s
    ensures Newlines(s + "\n") == 1
  {
    NoNewlines(s);
    NewlinesAppend(s, "\n");
  }

  lemma {:induction false} ConcatNewlines(ls: seq<string>)
    requires forall i :: 0 <= i < |ls| ==> Newlines(ls[i]) == 1
    ensures Newlines(Concat(ls)) == |ls|
    decreases |ls|
  {
    if ls != [] {
      ConcatNewlines(ls[..|ls| - 1]);
      NewlinesAppend(Concat(ls[..|ls| - 1]), ls[|ls| - 1]);
    }
  }

  /** A name built from fields holds no newline. */
  lemma {:induction false} JoinedFieldsHaveNoNewline(ws: seq<string>)
    requires forall i :: 0 <= i < |ws| ==> IsField(ws[i])
    ensures '\n' !in JoinWith(ws, " ")
    decreases |ws|
  {
    if |ws| > 1 {
      JoinedFieldsHaveNoNewline(ws[1..]);
    }
    if |ws| > 0 {
      assert IsField(ws[0]);
      assert IsSpace('\n');
    }
  }

  lemma ProcessNameHasNoNewline(row: seq<string>)
    requires forall i :: 0 <= i < |row| ==> IsField(row[i])
    ensures '\n' !in ProcessName(row)
  {
    var ws := CommandWords(row);
    JoinedFieldsHaveNoNewline(ws);
    var n := JoinWith(ws, " ");
    if |n| > 60 {
      assert '\n' !in n[..31] && '\n' !in n[|n| - 30..];
    }
  }

  lemma MetricsHaveNoNewline()
    ensures '\n' !in CpuMetric && '\n' !in MemMetric
  {
  }

  lemma LiteralsHaveNoNewline()
    ensures '\n' !in UserOpen && '\n' !in NameOpen && '\n' !in LabelsClose
  {
  }

  lemma TwoLines(a: string, b: string)
    requires '\n' !in a && '\n' !in b
    ensures Newlines(a + "\n" + b + "\n") == 2
  {
    OneLine(a);
    OneLine(b);
    NewlinesAppend(a + "\n", b + "\n");
    assert a + "\n" + b + "\n" == (a + "\n") + (b + "\n");
  }

  /** Each family header is two lines. */
  lemma CpuHeadNewlines()
    ensures Newlines(CpuHead) == 2
  {
    assert '\n' !in CpuHelp;
    assert '\n' !in CpuType;
    TwoLines(CpuHelp, CpuType);
  }

  lemma MemHeadNewlines()
    ensures Newlines(MemHead) == 2
  {
    assert '\n' !in MemHelp;
    assert '\n' !in MemType;
    TwoLines(MemHelp, MemType);
  }

  lemma LineNewlines(metric: string, user: string, name: string, value: string)
    requires '\n' !in metric && '\n' !in user && '\n' !in name && '\n' !in value
    ensures Newlines(MetricLine(metric, user, name, value)) == 1
  {
    LiteralsHaveNoNewline();
    OneLine(metric + UserOpen + user + NameOpen + name + LabelsClose + value);
  }

  /** Each process contributes exactly one line to a family. */
  lemma FamilyLines(rows: seq<seq<string>>, metric: string, col: nat, render: string -> string)
    requires Complete(rows) && col < 4
    requires forall i :: 0 <= i < |rows| ==> forall j :: 0 <= j < |rows[i]| ==> IsField(rows[i][j])
    requires '\n' !in metric
    requires forall x :: '\n' !in render(x)
    ensures Newlines(Concat(Lines(rows, metric, col, render))) == |rows|
  {
    var ls := Lines(rows, metric, col, render);
    forall i | 0 <= i < |ls| ensures Newlines(ls[i]) == 1 {
      var row := rows[i];
      assert IsField(row[0]) && IsSpace('\n');
      ProcessNameHasNoNewline(row);
      LineNewlines(metric, row[0], ProcessName(row), render(row[col]));
    }
    ConcatNewlines(ls);
  }

  /** The text has the four header lines and then one cpu line and one mem line
      per process. */
  lemma LineCount(lines: seq<string>, render: string -> string)
    requires ProcessInfo(lines, render).Ok?
    requires forall x :: '\n' !in render(x)
    ensures Newlines(ProcessInfo(lines, render).value) == 4 + 2 * |DataRows(lines)|
  {
    var rows := DataRows(lines);
    MetricsHaveNoNewline();
    FamilyLines(rows, CpuMetric, 2, render);
    FamilyLines(rows, MemMetric, 3, render);
    ExpositionNewlines(Concat(Lines(rows, CpuMetric, 2, render)), Concat(Lines(rows, MemMetric, 3, render)));
  }

  lemma ExpositionNewlines(cpu: string, mem: string)
    ensures Newlines(Exposition(cpu, mem)) == 4 + Newlines(cpu) + Newlines(mem)
  {
    CpuHeadNewlines();
    MemHeadNewlines();
    NewlinesOfFour(CpuHead, cpu, MemHead, mem);
  }

  lemma NewlinesOfFour(a: string, b: string, c: string, d: string)
    ensures Newlines(a + b + c + d) == Newlines(a) + Newlines(b) + Newlines(c) + Newlines(d)
  {
    NewlinesAppend(a + b + c, d);
    NewlinesAppend(a + b, c);
    NewlinesAppend(a, b);
  }

  // ---------------------------------------------------------------------------
  // Start-up
  // ---------------------------------------------------------------------------

  /** The start-up code after get_ip: the first address with the prefix, or
      "no ip found" and exit status 1 when there is none or it is empty. */
  method ChooseDeviceIp(ips: seq<string>, prefix: string) returns (o: Outcome)
    ensures o.Daemon? <==> exists i :: IsFirstMatch(ips, prefix, i) && ips[i] != ""
    ensures o.Daemon? ==> exists i :: IsFirstMatch(ips, prefix, i) && o.deviceIp == ips[i]
    ensures !o.Daemon? ==> o == Exit(1, ["no ip found"])
  {
    var deviceIp := SelectDeviceIp(ips, prefix);
    if deviceIp == "" {
      EmptySelection(ips, prefix);
      return Exit(1, ["no ip found"]);
    }
    return Daemon(deviceIp);
  }
}
