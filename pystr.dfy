/** The Python string operations the two push scripts rely on: str.split()
    (runs of whitespace), str.split(sep) with a one-character separator,
    joining with a separator, and str.startswith. Strings are sequences of
    code points. */
module PyStr {

  /** str.isspace() for one code point: the characters str.split() with no
      argument separates on. */
  predicate IsSpace(c: char) {
    ('\t' <= c <= '\r') || ('\U{1C}' <= c <= ' ') || c == '\U{85}' || c == '\U{A0}' ||
    c == '\U{1680}' || ('\U{2000}' <= c <= '\U{200A}') || c == '\U{2028}' || c == '\U{2029}' ||
    c == '\U{202F}' || c == '\U{205F}' || c == '\U{3000}'
  }

  /** A field of str.split(): non-empty, with no whitespace in it. */
  predicate IsField(w: string) {
    |w| > 0 && forall i :: 0 <= i < |w| ==> !IsSpace(w[i])
  }

  /** The length of the non-whitespace run that starts s. */
  function WordRun(s: string): (n: nat)
    ensures n <= |s|
    ensures forall i :: 0 <= i < n ==> !IsSpace(s[i])
    ensures n < |s| ==> IsSpace(s[n])
  {
    if s == [] || IsSpace(s[0]) then 0 else 1 + WordRun(s[1..])
  }

  /** str.split() with no argument: the maximal runs of non-whitespace, in
      order; leading, trailing and repeated whitespace yields no empty field. */
  function Fields(s: string): (r: seq<string>)
    ensures forall i :: 0 <= i < |r| ==> IsField(r[i])
    decreases |s|
  {
    if s == [] then []
    else if IsSpace(s[0]) then Fields(s[1..])
    else
      var n := WordRun(s);
      [s[..n]] + Fields(s[n..])
  }

  /** sep.join(ws) */
  function JoinWith(ws: seq<string>, sep: string): string
    decreases |ws|
  {
    if |ws| == 0 then ""
    else if |ws| == 1 then ws[0]
    else ws[0] + sep + JoinWith(ws[1..], sep)
  }

  lemma {:induction false} JoinSnoc(ws: seq<string>, w: string, sep: string)
    requires |ws| >= 1
    ensures JoinWith(ws + [w], sep) == JoinWith(ws, sep) + sep + w
    decreases |ws|
  {
    if |ws| > 1 {
      assert (ws + [w])[1..] == ws[1..] + [w];
      JoinSnoc(ws[1..], w, sep);
    }
  }

  lemma JoinCons(w: string, ws: seq<string>, sep: string)
    requires |ws| >= 1
    ensures JoinWith([w] + ws, sep) == w + sep + JoinWith(ws, sep)
  {
    assert ([w] + ws)[1..] == ws;
  }

  /** The index of the first c in s, or |s| when there is none. */
  function IndexOf(s: string, c: char): (k: nat)
    ensures k <= |s| && c !in s[..k]
    ensures k < |s| ==> s[k] == c
  {
    if s == [] then 0
    else if s[0] == c then 0
    else
      assert s[..1 + IndexOf(s[1..], c)] == [s[0]] + s[1..][..IndexOf(s[1..], c)];
      1 + IndexOf(s[1..], c)
  }

  /** str.split(c) for a one-character separator: the pieces between the
      separators, empty ones included. There is always at least one piece
      and no piece contains c. */
  function SplitOn(s: string, c: char): (r: seq<string>)
    ensures |r| >= 1
    ensures forall i :: 0 <= i < |r| ==> c !in r[i]
    decreases |s|
  {
    var k := IndexOf(s, c);
    if k == |s| then [s] else [s[..k]] + SplitOn(s[k + 1..], c)
  }

  /** str.startswith */
  predicate StartsWith(s: string, prefix: string) {
    prefix <= s
  }

  // ---------------------------------------------------------------------------
  // Round trips
  // ---------------------------------------------------------------------------

  /** Joining the pieces of str.split(c) with c gives back the string. */
  lemma {:induction false} SplitOnJoin(s: string, c: char)
    ensures JoinWith(SplitOn(s, c), [c]) == s
    decreases |s|
  {
    var k := IndexOf(s, c);
    if k < |s| {
      var rest := SplitOn(s[k + 1..], c);
      SplitOnJoin(s[k + 1..], c);
      JoinCons(s[..k], rest, [c]);
      assert s == s[..k] + [c] + s[k + 1..];
    }
  }

  /** Splitting on c a join of pieces that do not contain c gives the pieces back. */
  lemma {:induction false} JoinSplitOn(ws: seq<string>, c: char)
    requires |ws| >= 1 && forall i :: 0 <= i < |ws| ==> c !in ws[i]
    ensures SplitOn(JoinWith(ws, [c]), c) == ws
    decreases |ws|
  {
    var s := JoinWith(ws, [c]);
    var w := ws[0];
    if |ws| == 1 {
      IndexOfAbsent(w, c);
    } else {
      var rest := JoinWith(ws[1..], [c]);
      assert s == w + ([c] + rest);
      assert c !in w;
      IndexOfAfter(w, [c] + rest, c);
      assert s[..|w|] == w;
      assert s[|w| + 1..] == rest;
      assert SplitOn(s, c) == [w] + SplitOn(rest, c);
      JoinSplitOn(ws[1..], c);
      assert ws == [w] + ws[1..];
    }
  }

  lemma IndexOfAbsent(s: string, c: char)
    requires c !in s
    ensures IndexOf(s, c) == |s|
  {
  }

  /** The first c in w + t, when w has none and t starts with c, is at |w|. */
  lemma {:induction false} IndexOfAfter(w: string, t: string, c: char)
    requires c !in w && |t| > 0 && t[0] == c
    ensures IndexOf(w + t, c) == |w|
    decreases |w|
  {
    if w != [] {
      assert (w + t)[1..] == w[1..] + t;
      IndexOfAfter(w[1..], t, c);
    }
  }

  /** A non-whitespace run ends where the field does. */
  lemma {:induction false} WordRunOfField(w: string, t: string)
    requires forall i :: 0 <= i < |w| ==> !IsSpace(w[i])
    requires t == [] || IsSpace(t[0])
    ensures WordRun(w + t) == |w|
    decreases |w|
  {
    if w != [] {
      assert (w + t)[0] == w[0];
      assert (w + t)[1..] == w[1..] + t;
      WordRunOfField(w[1..], t);
    }
  }

  /** A leading space does not change str.split(). */
  lemma FieldsSkipSpace(s: string)
    ensures Fields(" " + s) == Fields(s)
  {
    assert (" " + s)[1..] == s;
  }

  /** str.split() of the fields joined by single spaces gives the fields back. */
  lemma {:induction false} FieldsOfJoin(ws: seq<string>)
    requires forall i :: 0 <= i < |ws| ==> IsField(ws[i])
    ensures Fields(JoinWith(ws, " ")) == ws
    decreases |ws|
  {
    if |ws| > 0 {
      var w := ws[0];
      var tail := if |ws| == 1 then "" else " " + JoinWith(ws[1..], " ");
      var s := JoinWith(ws, " ");
      assert s == w + tail;
      assert s[0] == w[0];
      WordRunOfField(w, tail);
      assert s[..|w|] == w && s[|w|..] == tail;
      assert Fields(s) == [w] + Fields(tail);
      if |ws| > 1 {
        FieldsSkipSpace(JoinWith(ws[1..], " "));
        FieldsOfJoin(ws[1..]);
      }
      assert ws == [w] + ws[1..];
    }
  }
}
