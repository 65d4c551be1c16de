/** Text as Python sees it: what counts as white space, and text as lines. */
module TextLines {
  import opened Basics

  /** What `str.strip` removes and `\s` matches. */
  predicate IsSpace(c: char) {
    || '\t' <= c <= '\r' || '\U{1C}' <= c <= ' ' || c == '\U{85}' || c == '\U{A0}' || c == '\U{1680}'
    || '\U{2000}' <= c <= '\U{200A}' || c == '\U{2028}' || c == '\U{2029}' || c == '\U{202F}' || c == '\U{205F}'
    || c == '\U{3000}'
  }

  function LeftStrip(s: string): string {
    if s != [] && IsSpace(s[0]) then LeftStrip(s[1..]) else s
  }

  function RightStrip(s: string): string {
    if s != [] && IsSpace(s[|s| - 1]) then RightStrip(s[..|s| - 1]) else s
  }

  function Strip(s: string): string { RightStrip(LeftStrip(s)) }

  lemma {:induction false} LeftStripped(s: string)
    ensures var r := LeftStrip(s); r == [] || !IsSpace(r[0])
  {
    if s != [] && IsSpace(s[0]) {
      LeftStripped(s[1..]);
    }
  }

  lemma {:induction false} RightStripped(s: string)
    ensures var r := RightStrip(s); r == [] || !IsSpace(r[|r| - 1])
    ensures var r := RightStrip(s); |r| <= |s| && r == s[..|r|]
  {
    if s != [] && IsSpace(s[|s| - 1]) {
      RightStripped(s[..|s| - 1]);
    }
  }

  /** Stripping twice is stripping once. */
  lemma StripAgain(s: string)
    ensures Strip(Strip(s)) == Strip(s)
  {
    LeftStripped(s);
    RightStripped(LeftStrip(s));
    var r := Strip(s);
    assert r != [] ==> r[0] == LeftStrip(s)[0];
    assert LeftStrip(r) == r;
  }

  // ---- Lines -------------------------------------------------------------------------

  predicate OneLine(s: string) { '\n' !in s }

  /** The parts of `s` between newlines: one more than there are newlines. */
  function Split(s: string): (r: seq<string>)
    ensures |r| >= 1
  {
    if s == "" then [""]
    else
      var rest := Split(s[1..]);
      if s[0] == '\n' then [""] + rest else [[s[0]] + rest[0]] + rest[1..]
  }

  function Join(lines: seq<string>): string
    requires |lines| >= 1
  {
    if |lines| == 1 then lines[0] else lines[0] + "\n" + Join(lines[1..])
  }

  lemma {:induction false} SplitGivesLines(s: string)
    ensures forall i :: 0 <= i < |Split(s)| ==> OneLine(Split(s)[i])
  {
    if s != "" {
      SplitGivesLines(s[1..]);
    }
  }

  lemma {:induction false} JoinSplit(s: string)
    ensures Join(Split(s)) == s
  {
    if s != "" {
      JoinSplit(s[1..]);
      var rest := Split(s[1..]);
      if s[0] == '\n' {
        assert Split(s)[1..] == rest;
        assert Join(Split(s)) == "\n" + Join(rest);
      } else {
        assert Split(s)[1..] == rest[1..];
        assert Join(Split(s)) == [s[0]] + Join(rest);
      }
      assert s == [s[0]] + s[1..];
    }
  }

  lemma {:induction false} SplitLine(s: string, tail: string)
    requires OneLine(s)
    ensures Split(s) == [s] && Split(s + "\n" + tail) == [s] + Split(tail)
  {
    if s == "" {
      assert s + "\n" + tail == "\n" + tail;
      assert ("\n" + tail)[1..] == tail;
    } else {
      SplitLine(s[1..], tail);
      assert (s + "\n" + tail)[1..] == s[1..] + "\n" + tail;
      assert [s[0]] + s[1..] == s;
      assert Split(s[1..])[1..] == [];
      assert ([s[1..]] + Split(tail))[1..] == Split(tail);
    }
  }

  /** Text is its lines: joining and splitting undo each other. */
  lemma {:induction false} SplitJoin(lines: seq<string>)
    requires |lines| >= 1 && forall i :: 0 <= i < |lines| ==> OneLine(lines[i])
    ensures Split(Join(lines)) == lines
  {
    if |lines| == 1 {
      SplitLine(lines[0], "");
    } else {
      SplitJoin(lines[1..]);
      SplitLine(lines[0], Join(lines[1..]));
      assert lines == [lines[0]] + lines[1..];
    }
  }
}
