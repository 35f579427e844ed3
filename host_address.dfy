/** How both push scripts find the address they report as target_ip: get_ip
    splits the output of `hostname -I`, and the start-up code picks the first
    address with the configured prefix. */
module HostAddress {
  import opened PyStr

  /** get_ip: the output split on single spaces, with the first piece that is
      exactly a newline removed (list.remove), if there is one. Nothing else
      is dropped: empty pieces stay, and a newline glued to an address stays. */
  method GetIp(data: string) returns (ips: seq<string>)
    ensures var pieces := SplitOn(data, ' ');
      if "\n" in pieces then
        exists i :: 0 <= i < |pieces| && pieces[i] == "\n" && "\n" !in pieces[..i] && ips == pieces[..i] + pieces[i + 1..]
      else ips == pieces
  {
    var ipList := SplitOn(data, ' ');
    if "\n" in ipList {
      var i := 0;
      while ipList[i] != "\n"
        invariant 0 <= i < |ipList| && "\n" in ipList[i..]
        invariant "\n" !in ipList[..i]
        decreases |ipList| - i
      {
        assert ipList[i..] == [ipList[i]] + ipList[i + 1..];
        assert ipList[..i + 1] == ipList[..i] + [ipList[i]];
        i := i + 1;
      }
      ipList := ipList[..i] + ipList[i + 1..];
    }
    return ipList;
  }

  /** No address of get_ip's result contains a space, and joining the split
      pieces with single spaces gives back the command's output. */
  lemma PiecesRebuildOutput(data: string)
    ensures forall i :: 0 <= i < |SplitOn(data, ' ')| ==> ' ' !in SplitOn(data, ' ')[i]
    ensures JoinWith(SplitOn(data, ' '), " ") == data
  {
    SplitOnJoin(data, ' ');
  }

  /** The usual `hostname -I` output: every address followed by a space, then
      a newline. Splitting it gives the addresses and a last piece that is the
      lone newline, which get_ip then removes. */
  lemma TypicalOutput(addrs: seq<string>)
    requires |addrs| >= 1
    requires forall i :: 0 <= i < |addrs| ==> ' ' !in addrs[i] && '\n' !in addrs[i]
    ensures SplitOn(JoinWith(addrs, " ") + " \n", ' ') == addrs + ["\n"]
    ensures "\n" !in addrs
  {
    var ws := addrs + ["\n"];
    assert " " == [' '];
    JoinSnoc(addrs, "\n", " ");
    assert JoinWith(ws, [' ']) == JoinWith(addrs, " ") + " \n";
    assert forall i :: 0 <= i < |ws| ==> ' ' !in ws[i] by {
      assert ws[|addrs|] == "\n";
    }
    JoinSplitOn(ws, ' ');
  }

  /** ips[i] is the first address that starts with the prefix. */
  predicate IsFirstMatch(ips: seq<string>, prefix: string, i: int) {
    0 <= i < |ips| && StartsWith(ips[i], prefix) &&
    forall j :: 0 <= j < i ==> !StartsWith(ips[j], prefix)
  }

  predicate NoMatch(ips: seq<string>, prefix: string) {
    forall i :: 0 <= i < |ips| ==> !StartsWith(ips[i], prefix)
  }

  /** There is at most one first match. */
  lemma FirstMatchUnique(ips: seq<string>, prefix: string, i: int, k: int)
    requires IsFirstMatch(ips, prefix, i) && IsFirstMatch(ips, prefix, k)
    ensures i == k
  {
  }

  /** There is a first match unless nothing matches. */
  lemma {:induction false} FirstMatchExists(ips: seq<string>, prefix: string)
    requires !NoMatch(ips, prefix)
    ensures exists i :: IsFirstMatch(ips, prefix, i)
    decreases |ips|
  {
    var n := |ips| - 1;
    if NoMatch(ips[..n], prefix) {
      assert IsFirstMatch(ips, prefix, n) by {
        forall j | 0 <= j < n ensures !StartsWith(ips[j], prefix) {
          assert ips[..n][j] == ips[j];
        }
        if !StartsWith(ips[n], prefix) {
          forall j | 0 <= j < |ips| ensures !StartsWith(ips[j], prefix) {
            if j < n {
              assert ips[..n][j] == ips[j];
            }
          }
          assert NoMatch(ips, prefix);
          assert false;
        }
      }
    } else {
      FirstMatchExists(ips[..n], prefix);
      var i :| IsFirstMatch(ips[..n], prefix, i);
      assert IsFirstMatch(ips, prefix, i);
    }
  }

  /** The start-up loop `for ip_addr in device_ips: if ip_addr.startswith(prefix):
      device_ip = ip_addr; break`: the first address with the prefix, or the
      empty string left from initialisation. */
  method SelectDeviceIp(ips: seq<string>, prefix: string) returns (deviceIp: string)
    ensures (exists i :: IsFirstMatch(ips, prefix, i) && deviceIp == ips[i]) ||
            (NoMatch(ips, prefix) && deviceIp == "")
  {
    deviceIp := "";
    var i := 0;
    while i < |ips|
      invariant 0 <= i <= |ips|
      invariant forall j :: 0 <= j < i ==> !StartsWith(ips[j], prefix)
    {
      if StartsWith(ips[i], prefix) {
        deviceIp := ips[i];
        assert IsFirstMatch(ips, prefix, i);
        return;
      }
      i := i + 1;
    }
  }

  /** When the selection came back empty, no first match was a usable address. */
  lemma EmptySelection(ips: seq<string>, prefix: string)
    requires (exists i :: IsFirstMatch(ips, prefix, i) && ips[i] == "") || NoMatch(ips, prefix)
    ensures !exists i :: IsFirstMatch(ips, prefix, i) && ips[i] != ""
  {
    forall i | IsFirstMatch(ips, prefix, i) ensures ips[i] == "" {
      if !NoMatch(ips, prefix) {
        var k :| IsFirstMatch(ips, prefix, k) && ips[k] == "";
        FirstMatchUnique(ips, prefix, i, k);
      }
    }
  }

  /** How a push script's start-up ends: sys.exit with what it printed, an
      uncaught exception, or the fork into the background pusher. */
  datatype Outcome = Exit(status: int, printed: seq<string>) | Raise(exception: string) | Daemon(deviceIp: string)
}
