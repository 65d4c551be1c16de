/** Reading and replacing top-level scalars of a YAML text, on its lines. */
module ScalarEditor {
  import opened Basics
  import opened TextLines

  predicate IsQuote(c: char) { c == '\'' || c == '"' }

  /** A character a scalar value may hold. */
  predicate ValueChar(c: char) { !IsSpace(c) && c != '#' && !IsQuote(c) }

  predicate IsValue(s: string) { s != "" && forall i :: 0 <= i < |s| ==> ValueChar(s[i]) }

  predicate IsField(s: string) { ':' !in s && '\n' !in s }

  predicate HasField(line: string, field: string) { field + ":" <= line }

  function AfterField(line: string, field: string): string
    requires HasField(line, field)
  {
    line[|field| + 1..]
  }

  // ---- Reading -----------------------------------------------------------------------

  function ValueLength(s: string): (n: nat)
    ensures n <= |s|
  {
    if s != "" && ValueChar(s[0]) then 1 + ValueLength(s[1..]) else 0
  }

  function Unquoted(s: string): string {
    if s != "" && IsQuote(s[0]) then s[1..] else s
  }

  /** Only white space or a comment is left on the line. */
  predicate LineEnds(s: string) {
    LeftStrip(s) == "" || LeftStrip(s)[0] == '#'
  }

  /** A value, perhaps quoted, at the start of `s`, with nothing else after it. */
  function ValueAt(s: string): Option<string> {
    var a := Unquoted(s);
    var n := ValueLength(a);
    if n > 0 && LineEnds(Unquoted(a[n..])) then Some(a[..n]) else None
  }

  /** The value after the colon: white space before it may run over the ends of lines. */
  function ValueFrom(s: string, below: seq<string>): Option<string>
    decreases |below|
  {
    if LeftStrip(s) != "" then ValueAt(LeftStrip(s))
    else if below == [] then None
    else ValueFrom(below[0], below[1..])
  }

  /** The value of the first line for `field` that has one. */
  function Get(lines: seq<string>, field: string): Option<string> {
    if lines == [] then None
    else if HasField(lines[0], field) && ValueFrom(AfterField(lines[0], field), lines[1..]).Some?
    then ValueFrom(AfterField(lines[0], field), lines[1..])
    else Get(lines[1..], field)
  }

  predicate Mentions(lines: seq<string>, field: string) {
    exists i :: 0 <= i < |lines| && HasField(lines[i], field)
  }

  // ---- Replacing ---------------------------------------------------------------------

  /** The first line for `field` becomes `field: value`. */
  function Replace(lines: seq<string>, field: string, value: string): (r: seq<string>)
    ensures |r| == |lines|
  {
    if lines == [] then []
    else if HasField(lines[0], field) then [field + ": " + value] + lines[1..]
    else [lines[0]] + Replace(lines[1..], field, value)
  }

  /** Replaces the field's first line, or adds a line at the end; a text ends with a newline when its last line is empty. */
  function Put(lines: seq<string>, field: string, value: string): (r: seq<string>)
    requires |lines| >= 1
    ensures |r| >= 1
  {
    if Mentions(lines, field) then Replace(lines, field, value)
    else if lines[|lines| - 1] == "" then lines[..|lines| - 1] + [field + ": " + value, ""]
    else lines + [field + ": " + value, ""]
  }

  function DropLines(lines: seq<string>, field: string): seq<string> {
    if lines == [] then []
    else if HasField(lines[0], field) then DropLines(lines[1..], field)
    else [lines[0]] + DropLines(lines[1..], field)
  }

  lemma {:induction false} DropLast(lines: seq<string>, field: string)
    requires |lines| >= 1 && !HasField(lines[|lines| - 1], field)
    ensures |DropLines(lines, field)| >= 1
  {
    if |lines| > 1 {
      DropLast(lines[1..], field);
    }
  }

  /** Removes every line for `field` with its newline. */
  function Drop(lines: seq<string>, field: string): (r: seq<string>)
    requires |lines| >= 1
    ensures |r| >= 1
  {
    if HasField(lines[|lines| - 1], field) then DropLines(lines, field) + [""]
    else
      DropLast(lines, field);
      DropLines(lines, field)
  }

  // ---- The first line for a field ----------------------------------------------------

  function FirstLine(lines: seq<string>, field: string): Option<string> {
    if lines == [] then None
    else if HasField(lines[0], field) then Some(lines[0])
    else FirstLine(lines[1..], field)
  }

  lemma {:induction false} FirstLineIs(lines: seq<string>, field: string)
    ensures FirstLine(lines, field).Some? <==> Mentions(lines, field)
    ensures FirstLine(lines, field).Some? ==> HasField(FirstLine(lines, field).value, field)
  {
    if lines != [] {
      FirstLineIs(lines[1..], field);
      if Mentions(lines[1..], field) {
        var i :| 0 <= i < |lines| - 1 && HasField(lines[1..][i], field);
        assert HasField(lines[i + 1], field);
      }
      if Mentions(lines, field) && !HasField(lines[0], field) {
        var i :| 0 <= i < |lines| && HasField(lines[i], field);
        assert HasField(lines[1..][i - 1], field);
      }
    }
  }

  lemma {:induction false} FirstLineJoined(a: seq<string>, b: seq<string>, field: string)
    ensures FirstLine(a + b, field) == if FirstLine(a, field).Some? then FirstLine(a, field) else FirstLine(b, field)
  {
    if a == [] {
      assert a + b == b;
    } else {
      assert (a + b)[1..] == a[1..] + b;
      FirstLineJoined(a[1..], b, field);
    }
  }

  /** A line is a line for at most one field. */
  lemma OneField(line: string, f: string, g: string)
    requires IsField(f) && IsField(g) && HasField(line, f) && HasField(line, g)
    ensures f == g
  {
    assert forall i :: 0 <= i < |f| ==> (f + ":")[i] == f[i] == line[i];
    assert forall i :: 0 <= i < |g| ==> (g + ":")[i] == g[i] == line[i];
    assert line[|f|] == (f + ":")[|f|] == ':' && line[|g|] == (g + ":")[|g|] == ':';
    assert |f| == |g|;
  }

  lemma NotBoth(line: string, f: string, g: string)
    requires IsField(f) && IsField(g) && f != g && HasField(line, f)
    ensures !HasField(line, g)
  {
    hide HasField, IsField;
    if HasField(line, g) {
      OneField(line, f, g);
    }
  }

  /** A line written for one field is no line for another. */
  lemma OtherField(f: string, value: string, g: string)
    requires IsField(f) && IsField(g) && f != g
    ensures !HasField(f + ": " + value, g)
  {
    hide IsField;
    OwnField(f, value);
    NotBoth(f + ": " + value, f, g);
  }

  lemma OwnField(field: string, value: string)
    ensures HasField(field + ": " + value, field)
    ensures AfterField(field + ": " + value, field) == " " + value
  {
    assert (field + ": " + value)[..|field| + 1] == field + ":";
  }

  lemma {:induction false} ReplaceFirst(lines: seq<string>, field: string, value: string, g: string)
    requires IsField(field) && IsField(g)
    ensures |Replace(lines, field, value)| == |lines|
    ensures FirstLine(Replace(lines, field, value), g)
            == if g == field && Mentions(lines, field) then Some(field + ": " + value) else FirstLine(lines, g)
  {
    if lines != [] {
      OwnField(field, value);
      FirstLineIs(lines, field);
      FirstLineIs(lines[1..], field);
      if HasField(lines[0], field) {
        if g != field {
          OtherField(field, value, g);
          NotBoth(lines[0], field, g);
        }
      } else {
        ReplaceFirst(lines[1..], field, value, g);
      }
    }
  }

  lemma AddedFirst(front: seq<string>, field: string, value: string, g: string)
    requires IsField(field) && IsField(g) && FirstLine(front, field) == None
    ensures FirstLine(front + [field + ": " + value, ""], g) == if g == field then Some(field + ": " + value) else FirstLine(front, g)
  {
    hide IsField;
    var added := [field + ": " + value, ""];
    OwnField(field, value);
    if g != field {
      OtherField(field, value, g);
    }
    assert added[1..] == [""] && [""][1..] == [] && !HasField("", g);
    assert FirstLine([""], g) == None;
    hide HasField;
    FirstLineJoined(front, added, g);
  }

  lemma EndsEmpty(lines: seq<string>, g: string)
    requires |lines| >= 1 && lines[|lines| - 1] == ""
    ensures FirstLine(lines[..|lines| - 1], g) == FirstLine(lines, g)
  {
    assert lines == lines[..|lines| - 1] + [""];
    assert !HasField("", g) && [""][1..] == [];
    hide HasField;
    FirstLineJoined(lines[..|lines| - 1], [""], g);
  }

  /** What a replacement does to the first line of every field. */
  lemma PutFirst(lines: seq<string>, field: string, value: string, g: string)
    requires |lines| >= 1 && IsField(field) && IsField(g)
    ensures FirstLine(Put(lines, field, value), g) == if g == field then Some(field + ": " + value) else FirstLine(lines, g)
  {
    hide IsField, HasField, Mentions, FirstLine, Replace;
    FirstLineIs(lines, field);
    if Mentions(lines, field) {
      ReplaceFirst(lines, field, value, g);
    } else if lines[|lines| - 1] == "" {
      EndsEmpty(lines, field);
      EndsEmpty(lines, g);
      AddedFirst(lines[..|lines| - 1], field, value, g);
    } else {
      AddedFirst(lines, field, value, g);
    }
  }

  // ---- Laws of the editor ------------------------------------------------------------

  lemma {:induction false} WholeValue(v: string, tail: string)
    requires (forall i :: 0 <= i < |v| ==> ValueChar(v[i])) && (tail == "" || !ValueChar(tail[0]))
    ensures ValueLength(v + tail) == |v|
  {
    if v == "" {
      assert v + tail == tail;
    } else {
      assert (v + tail)[1..] == v[1..] + tail;
      WholeValue(v[1..], tail);
    }
  }

  lemma ValueOfLine(value: string, below: seq<string>)
    requires IsValue(value)
    ensures ValueFrom(" " + value, below) == Some(value)
  {
    assert (" " + value)[1..] == value;
    assert LeftStrip(" " + value) == value;
    assert value + "" == value;
    WholeValue(value, "");
    assert value[..|value|] == value;
  }

  /** The first line for a field decides, when it has a value. */
  lemma {:induction false} FirstDecides(lines: seq<string>, field: string, value: string)
    requires IsValue(value) && FirstLine(lines, field) == Some(field + ": " + value)
    ensures Get(lines, field) == Some(value)
  {
    if HasField(lines[0], field) {
      OwnField(field, value);
      ValueOfLine(value, lines[1..]);
    } else {
      FirstDecides(lines[1..], field, value);
    }
  }

  /** Get after put. */
  lemma GetPut(lines: seq<string>, field: string, value: string)
    requires |lines| >= 1 && IsField(field) && IsValue(value)
    ensures Get(Put(lines, field, value), field) == Some(value)
  {
    PutFirst(lines, field, value, field);
    FirstDecides(Put(lines, field, value), field, value);
  }

  /** The second of two puts wins, as if it were the only one. */
  lemma PutPut(lines: seq<string>, field: string, v: string, w: string)
    requires |lines| >= 1 && IsField(field)
    ensures Put(Put(lines, field, v), field, w) == Put(lines, field, w)
  {
    PutMentions(lines, field, v);
    if Mentions(lines, field) {
      ReplaceTwice(lines, field, v, w);
    } else if lines[|lines| - 1] == "" {
      ReplaceAdded(lines[..|lines| - 1], field, v, w);
    } else {
      ReplaceAdded(lines, field, v, w);
    }
  }

  lemma PutMentions(lines: seq<string>, field: string, v: string)
    requires |lines| >= 1 && IsField(field)
    ensures Mentions(Put(lines, field, v), field)
  {
    PutFirst(lines, field, v, field);
    FirstLineIs(Put(lines, field, v), field);
  }

  lemma {:induction false} ReplaceTwice(lines: seq<string>, field: string, v: string, w: string)
    ensures Replace(Replace(lines, field, v), field, w) == Replace(lines, field, w)
  {
    if lines != [] {
      OwnField(field, v);
      if HasField(lines[0], field) {
        assert ([field + ": " + v] + lines[1..])[1..] == lines[1..];
      } else {
        var rest := Replace(lines[1..], field, v);
        assert ([lines[0]] + rest)[1..] == rest;
        ReplaceTwice(lines[1..], field, v, w);
      }
    }
  }

  lemma {:induction false} ReplaceAdded(front: seq<string>, field: string, v: string, w: string)
    requires forall i :: 0 <= i < |front| ==> !HasField(front[i], field)
    ensures Replace(front + [field + ": " + v, ""], field, w) == front + [field + ": " + w, ""]
  {
    OwnField(field, v);
    var all := front + [field + ": " + v, ""];
    if front == [] {
      assert all == [field + ": " + v, ""] && all[1..] == [""];
    } else {
      assert all[1..] == front[1..] + [field + ": " + v, ""];
      ReplaceAdded(front[1..], field, v, w);
    }
  }

  // ---- Other fields ------------------------------------------------------------------

  predicate IsBlank(line: string) { LeftStrip(line) == "" }

  predicate AllBlank(lines: seq<string>) {
    forall i :: 0 <= i < |lines| ==> IsBlank(lines[i])
  }

  /** The last line that is not blank is a line for the field with nothing after the colon. */
  predicate Waits(lines: seq<string>, field: string) {
    && lines != []
    && (Waits(lines[1..], field) || (AllBlank(lines[1..]) && HasField(lines[0], field) && IsBlank(AfterField(lines[0], field))))
  }

  function OrElse(a: Option<string>, b: Option<string>): Option<string> {
    if a.Some? then a else b
  }

  /** What a line gives to a field that waits for it. */
  function LineValue(line: string): Option<string> {
    ValueAt(LeftStrip(line))
  }

  lemma {:induction false} BlankIsSpace(line: string)
    requires IsBlank(line)
    ensures forall i :: 0 <= i < |line| ==> IsSpace(line[i])
  {
    if line != "" {
      BlankIsSpace(line[1..]);
      forall i | 0 <= i < |line| ensures IsSpace(line[i]) {
        assert i > 0 ==> line[i] == line[1..][i - 1];
      }
    }
  }

  lemma FieldNotBlank(line: string, field: string)
    requires HasField(line, field)
    ensures !IsBlank(line)
  {
    assert line[|field|] == (field + ":")[|field|] == ':';
    if IsBlank(line) {
      BlankIsSpace(line);
    }
  }

  /** A value after a colon is found in the same place when lines follow, unless there is none so far. */
  lemma {:induction false} ValueJoined(s: string, a: seq<string>, b: seq<string>)
    ensures ValueFrom(s, a + b)
            == if IsBlank(s) && AllBlank(a) then if b == [] then None else ValueFrom(b[0], b[1..]) else ValueFrom(s, a)
    decreases |a|
  {
    if IsBlank(s) {
      if a == [] {
        assert a + b == b;
      } else {
        assert (a + b)[0] == a[0] && (a + b)[1..] == a[1..] + b;
        ValueJoined(a[0], a[1..], b);
        assert AllBlank(a) <==> IsBlank(a[0]) && AllBlank(a[1..]) by { BlankParts(a); }
      }
    }
  }

  lemma BlankParts(a: seq<string>)
    requires a != []
    ensures AllBlank(a) <==> IsBlank(a[0]) && AllBlank(a[1..])
  {
    hide IsBlank;
    if IsBlank(a[0]) && AllBlank(a[1..]) {
      forall i | 0 <= i < |a| ensures IsBlank(a[i]) {
        assert i > 0 ==> a[i] == a[1..][i - 1];
      }
    }
  }

  lemma {:induction false} BlankGivesNothing(a: seq<string>, g: string)
    requires AllBlank(a)
    ensures Get(a, g) == None && !Waits(a, g)
  {
    if a != [] {
      BlankParts(a);
      BlankGivesNothing(a[1..], g);
      if HasField(a[0], g) {
        FieldNotBlank(a[0], g);
      }
    }
  }

  lemma BlankValue(s: string, below: seq<string>)
    requires IsBlank(s) && AllBlank(below)
    ensures ValueFrom(s, below) == None
  {
    ValueJoined(s, below, []);
    assert below + [] == below;
  }

  /** Reading past a line of another field: what is above decides, else the line itself if the field waits for it,
      else what is below. */
  lemma {:induction false} GetAround(a: seq<string>, x: string, b: seq<string>, g: string)
    requires !IsBlank(x) && !HasField(x, g)
    ensures Get(a + [x] + b, g)
            == OrElse(Get(a, g), if Waits(a, g) then OrElse(LineValue(x), Get(b, g)) else Get(b, g))
  {
    var all := a + [x] + b;
    if a == [] {
      assert all[0] == x && all[1..] == b;
    } else {
      var l, rest := a[0], a[1..];
      assert all[0] == l && all[1..] == rest + [x] + b;
      GetAround(rest, x, b, g);
      if AllBlank(rest) {
        BlankGivesNothing(rest, g);
      }
      if HasField(l, g) {
        var s := AfterField(l, g);
        assert rest + [x] + b == rest + ([x] + b) && ([x] + b)[0] == x && ([x] + b)[1..] == b;
        ValueJoined(s, rest, [x] + b);
        if IsBlank(s) && AllBlank(rest) {
          BlankValue(s, rest);
        }
      }
    }
  }

  /** An empty last line changes nothing. */
  lemma {:induction false} GetBeforeEnd(a: seq<string>, g: string)
    ensures Get(a + [""], g) == Get(a, g)
  {
    var all := a + [""];
    if a == [] {
      assert all[0] == "" && all[1..] == [];
    } else {
      assert all[0] == a[0] && all[1..] == a[1..] + [""];
      GetBeforeEnd(a[1..], g);
      if HasField(a[0], g) {
        var s := AfterField(a[0], g);
        ValueJoined(s, a[1..], [""]);
        if IsBlank(s) && AllBlank(a[1..]) {
          BlankValue(s, a[1..]);
          BlankValue("", []);
        }
      }
    }
  }

  /** The index of the line a put writes. */
  function Written(lines: seq<string>, field: string): (k: nat)
    ensures k <= |lines|
  {
    if lines == [] || lines == [""] || HasField(lines[0], field) then 0 else 1 + Written(lines[1..], field)
  }

  lemma {:induction false} WrittenIs(lines: seq<string>, field: string, value: string)
    requires |lines| >= 1
    ensures var k := Written(lines, field);
            && (forall i :: 0 <= i < k ==> !HasField(lines[i], field))
            && (Mentions(lines, field) <==> k < |lines| && HasField(lines[k], field))
            && (Mentions(lines, field) ==> Replace(lines, field, value) == lines[..k] + [field + ": " + value] + lines[k + 1..])
            && (!Mentions(lines, field) ==> k == if lines[|lines| - 1] == "" then |lines| - 1 else |lines|)
  {
    if !HasField(lines[0], field) && lines != [""] {
      var rest := lines[1..];
      if rest == [] {
        assert !Mentions(lines, field) && Written(rest, field) == 0;
      } else {
        WrittenIs(rest, field, value);
        var k := Written(rest, field);
        forall i | 0 <= i < k + 1 ensures !HasField(lines[i], field) {
          assert i > 0 ==> lines[i] == rest[i - 1];
        }
        assert Mentions(lines, field) <==> Mentions(rest, field) by {
          FirstLineIs(lines, field);
          FirstLineIs(rest, field);
        }
        if Mentions(rest, field) {
          assert lines[..k + 1] == [lines[0]] + rest[..k] && lines[k + 2..] == rest[k + 1..];
          assert [lines[0]] + (rest[..k] + [field + ": " + value] + rest[k + 1..])
                 == ([lines[0]] + rest[..k]) + [field + ": " + value] + rest[k + 1..];
        }
      }
    } else if lines == [""] {
      assert !Mentions(lines, field);
    }
  }

  /** What the line at `k`, if there is one, gives to a field that waits for it. */
  function ValueThere(lines: seq<string>, k: nat): Option<string> {
    if k < |lines| then LineValue(lines[k]) else None
  }

  function GetBelow(lines: seq<string>, k: nat, g: string): Option<string> {
    if k < |lines| then Get(lines[k + 1..], g) else None
  }

  lemma NewLine(field: string, value: string, g: string)
    requires IsField(field) && IsField(g) && g != field
    ensures !IsBlank(field + ": " + value) && !HasField(field + ": " + value, g)
  {
    OwnField(field, value);
    FieldNotBlank(field + ": " + value, field);
    OtherField(field, value, g);
  }

  /** The text with `line` at the place written, as another field reads it. */
  function ReadAround(lines: seq<string>, k: nat, there: Option<string>, g: string): Option<string>
    requires k <= |lines|
  {
    OrElse(Get(lines[..k], g), if Waits(lines[..k], g) then OrElse(there, GetBelow(lines, k, g)) else GetBelow(lines, k, g))
  }

  lemma ReplacedAround(lines: seq<string>, k: nat, line: string, g: string)
    requires k < |lines| && !IsBlank(line) && !HasField(line, g)
    ensures Get(lines[..k] + [line] + lines[k + 1..], g) == ReadAround(lines, k, LineValue(line), g)
  {
    hide Get, Waits, LineValue, HasField, IsBlank;
    GetAround(lines[..k], line, lines[k + 1..], g);
  }

  lemma AddedAround(lines: seq<string>, k: nat, line: string, g: string)
    requires !IsBlank(line) && !HasField(line, g)
    requires k == |lines| || (k == |lines| - 1 && lines[k] == "")
    ensures Get(lines, g) == ReadAround(lines, k, ValueThere(lines, k), g)
    ensures Get(lines[..k] + [line, ""], g) == ReadAround(lines, k, LineValue(line), g)
  {
    hide Get, Waits, LineValue, HasField, IsBlank;
    GetAround(lines[..k], line, [""], g);
    NoLines(g);
    assert lines[..k] + [line] + [""] == lines[..k] + [line, ""];
    if k < |lines| {
      assert lines == lines[..k] + [""] && lines[k + 1..] == [];
      GetBeforeEnd(lines[..k], g);
    } else {
      assert lines[..k] == lines;
    }
  }

  /** The text a put leaves, around the line it writes. */
  lemma PutIs(lines: seq<string>, field: string, value: string, k: nat, line: string)
    requires |lines| >= 1 && k == Written(lines, field) && line == field + ": " + value
    ensures Mentions(lines, field) ==>
              k < |lines| && HasField(lines[k], field) && Put(lines, field, value) == lines[..k] + [line] + lines[k + 1..]
    ensures !Mentions(lines, field) ==>
              (k == |lines| || (k == |lines| - 1 && lines[k] == "")) && Put(lines, field, value) == lines[..k] + [line, ""]
  {
    hide Mentions, Replace, HasField, Written;
    WrittenIs(lines, field, value);
    if !Mentions(lines, field) && k == |lines| {
      assert lines[..k] == lines;
    }
  }

  /** Both texts as other fields read them. */
  lemma PutAround(lines: seq<string>, field: string, value: string, g: string)
    requires |lines| >= 1 && IsField(field) && IsField(g) && g != field
    ensures var k := Written(lines, field);
            && Get(lines, g) == ReadAround(lines, k, ValueThere(lines, k), g)
            && Get(Put(lines, field, value), g) == ReadAround(lines, k, LineValue(field + ": " + value), g)
  {
    hide IsField, Get, ReadAround, Mentions, Put, HasField, Written, IsBlank, LineValue;
    var k, line := Written(lines, field), field + ": " + value;
    PutIs(lines, field, value, k, line);
    NewLine(field, value, g);
    if Mentions(lines, field) {
      NotBoth(lines[k], field, g);
      FieldNotBlank(lines[k], field);
      ReplacedAround(lines, k, lines[k], g);
      ReplacedAround(lines, k, line, g);
      assert lines == lines[..k] + [lines[k]] + lines[k + 1..];
    } else {
      AddedAround(lines, k, line, g);
    }
  }

  lemma NoLines(g: string)
    ensures Get([""], g) == None && Get([], g) == None && LineValue("") == None
  {
    GetBeforeEnd([], g);
    assert [] + [""] == [""];
  }

  /**
   Frame, for every text and all fields: a put leaves another field's value alone if and only if that field does not
   wait, without a value above, for the line written, or reads the same from the new line as from the old.
   */
  lemma PutOthersIff(lines: seq<string>, field: string, value: string, g: string)
    requires |lines| >= 1 && IsField(field) && IsField(g) && g != field
    ensures var k := Written(lines, field);
            Get(Put(lines, field, value), g) == Get(lines, g)
            <==> Get(lines[..k], g).Some? || !Waits(lines[..k], g)
                 || OrElse(LineValue(field + ": " + value), GetBelow(lines, k, g)) == OrElse(ValueThere(lines, k), GetBelow(lines, k, g))
  {
    hide IsField, Get, Waits, LineValue, Written, Put;
    PutAround(lines, field, value, g);
  }

  /** Every line for the field has something after the colon. */
  predicate OnOwnLines(lines: seq<string>, field: string) {
    forall i :: 0 <= i < |lines| && HasField(lines[i], field) ==> !IsBlank(AfterField(lines[i], field))
  }

  lemma {:induction false} OwnNeverWaits(lines: seq<string>, field: string)
    requires OnOwnLines(lines, field)
    ensures !Waits(lines, field)
  {
    if lines != [] {
      forall i | 0 <= i < |lines[1..]| ensures lines[1..][i] == lines[i + 1] { }
      OwnNeverWaits(lines[1..], field);
    }
  }

  /** In particular, when the other field has its values on its own lines, which it keeps. */
  lemma PutOthers(lines: seq<string>, field: string, value: string, g: string)
    requires |lines| >= 1 && IsField(field) && IsField(g) && g != field && OnOwnLines(lines, g)
    ensures OnOwnLines(Put(lines, field, value), g) && Get(Put(lines, field, value), g) == Get(lines, g)
  {
    hide IsField, Get, Waits, HasField, Written, IsBlank, Mentions, Replace, ValueAt, LeftStrip;
    var k := Written(lines, field);
    WrittenIs(lines, field, value);
    NewLine(field, value, g);
    NoField(g);
    PutOthersIff(lines, field, value, g);
    OwnNeverWaits(lines[..k], g);
  }

  lemma NoField(g: string)
    ensures !HasField("", g)
  {
  }

  /** A value that sits on the line below its field is lost when that line is replaced. */
  lemma ValueBelowIsLost()
    ensures var lines := ["a:", "b:x"];
            Get(lines, "a") == Some("b:x") && Get(Put(lines, "b", "y"), "a") == None
  {
    var lines := ["a:", "b:x"];
    assert HasField("a:", "a") && AfterField("a:", "a") == "";
    assert lines[1..] == ["b:x"] && ["b:x"][1..] == [];
    assert "b:x" + "" == "b:x";
    WholeValue("b:x", "");
    assert ValueAt("b:x") == Some("b:x");
    assert HasField("b:x", "b") && HasField(lines[1], "b") && !HasField("a:", "b");
    var after := Put(lines, "b", "y");
    assert "b" + ": " + "y" == "b: y";
    assert after == ["a:", "b: y"];
    assert after[1..] == ["b: y"] && ["b: y"][1..] == [];
    assert "b:" + " y" == "b: y";
    WholeValue("b:", " y");
    assert ("b: y")[2..] == " y" && " y"[1..] == "y";
    assert LeftStrip(" y") == "y";
    assert ValueAt("b: y") == None;
    assert !HasField("b: y", "a");
  }
}
