/** The comparison of a built installer with its template, up to the values a build puts in. */
module DriftCheck {
  import opened Basics
  import opened TextLines
  import opened Base64
  import opened Placeholders
  import opened Embedding
  import opened InstallerBuild

  const CANON := "<<SUBSTITUTED>>"

  predicate MarkerChar(c: char) { 'A' <= c <= 'Z' || c == '_' }

  /** `# __NAME__`. */
  predicate IsMarkerLine(s: string) {
    && |s| >= 7 && s[..4] == "# __" && s[|s| - 2..] == "__"
    && forall i :: 4 <= i < |s| - 2 ==> MarkerChar(s[i])
  }

  predicate IsDataMarker(s: string) { s == MEMORY_LINE || s == WHEEL_LINE }

  /** `FIELD = "..."`. */
  predicate IsAssignment(line: string, field: string) {
    field + " = \"" <= line && |line| >= |field| + 5 && line[|line| - 1] == '"'
  }

  function FieldAssigned(line: string, n: nat): Option<nat>
    requires n <= 5
    decreases 5 - n
  {
    if n == 5 then None else if IsAssignment(line, FIELDS[n]) then Some(n) else FieldAssigned(line, n + 1)
  }

  function Canonical(line: string): string {
    var k := FieldAssigned(line, 0);
    if k.Some? then (if k.value < 5 then FIELDS[k.value] + " = " + CANON else line)
    else if "Version: " <= line then "Version: " + CANON
    else line
  }

  /** Values become a sentinel; everything between a data marker and the next marker goes. */
  function Normalize(lines: seq<string>, inBlock: bool): seq<string>
    decreases |lines|
  {
    if lines == [] then []
    else
      var s, rest := Strip(lines[0]), lines[1..];
      if inBlock then
        if IsMarkerLine(s) then [s] + Normalize(rest, IsDataMarker(s)) else Normalize(rest, true)
      else if IsDataMarker(s) then [s] + Normalize(rest, true)
      else [Canonical(lines[0])] + Normalize(rest, false)
  }

  method NormalizeForDrift(lines: seq<string>) returns (out: seq<string>)
    ensures out == Normalize(lines, false)
  {
    hide Strip, Canonical, IsMarkerLine, IsDataMarker;
    out := [];
    var inBlock := false;
    for i := 0 to |lines|
      invariant out + Normalize(lines[i..], inBlock) == Normalize(lines, false)
    {
      assert lines[i..][1..] == lines[i + 1..];
      var s := Strip(lines[i]);
      if inBlock {
        if IsMarkerLine(s) {
          out := out + [s];
          inBlock := IsDataMarker(s);
        }
      } else if IsDataMarker(s) {
        inBlock := true;
        out := out + [s];
      } else {
        out := out + [Canonical(lines[i])];
      }
    }
  }

  // ---- Line by line ------------------------------------------------------------------

  /** The front of a template and of a built installer normalise alike. */
  lemma {:induction false} FrontAlike(a: seq<string>, b: seq<string>, restA: seq<string>, restB: seq<string>)
    requires |a| == |b|
    requires forall i :: 0 <= i < |a| ==> !IsDataMarker(Strip(a[i])) && !IsDataMarker(Strip(b[i])) && Canonical(a[i]) == Canonical(b[i])
    requires Normalize(restA, false) == Normalize(restB, false)
    ensures Normalize(a + restA, false) == Normalize(b + restB, false)
  {
    hide IsDataMarker, Strip, Canonical, IsMarkerLine;
    if a == [] {
      assert a + restA == restA && b + restB == restB;
    } else {
      assert (a + restA)[1..] == a[1..] + restA && (b + restB)[1..] == b[1..] + restB;
      assert (a + restA)[0] == a[0] && (b + restB)[0] == b[0];
      FrontAlike(a[1..], b[1..], restA, restB);
    }
  }

  /** Lines inside a block that are no marker lines are skipped. */
  lemma {:induction false} BlockSkipped(block: seq<string>, rest: seq<string>)
    requires forall i :: 0 <= i < |block| ==> !IsMarkerLine(Strip(block[i]))
    ensures Normalize(block + rest, true) == Normalize(rest, true)
  {
    hide IsMarkerLine, Strip, IsDataMarker, Canonical;
    if block == [] {
      assert block + rest == rest;
    } else {
      assert (block + rest)[1..] == block[1..] + rest && (block + rest)[0] == block[0];
      BlockSkipped(block[1..], rest);
    }
  }

  lemma NotAssigned(line: string, n: nat)
    requires n <= 5 && forall k :: n <= k < 5 ==> !IsAssignment(line, FIELDS[k])
    ensures FieldAssigned(line, n) == None
    decreases 5 - n
  {
    if n < 5 {
      NotAssigned(line, n + 1);
    }
  }

  lemma FirstAssigned(line: string, n: nat, k: nat)
    requires n <= k < 5 && IsAssignment(line, FIELDS[k]) && forall j :: n <= j < k ==> !IsAssignment(line, FIELDS[j])
    ensures FieldAssigned(line, n) == Some(k)
    decreases k - n
  {
    if n < k {
      FirstAssigned(line, n + 1, k);
    }
  }

  predicate NoSpaceIn(s: string) { forall i :: 0 <= i < |s| ==> s[i] != ' ' }

  lemma FieldWord(k: nat)
    requires k < 5
    ensures NoSpaceIn(FIELDS[k]) && FIELDS[k] != "" && FIELDS[k][0] != '#' && !IsSpace(FIELDS[k][0])
  {
    if k == 0 { } else if k == 1 { } else if k == 2 { } else if k == 3 { } else { }
  }

  /** An assignment of one field is none of another. */
  lemma OneAssigned(line: string, f: string, g: string)
    requires NoSpaceIn(f) && NoSpaceIn(g) && f + " = \"" <= line && g + " = \"" <= line
    ensures f == g
  {
    assert forall i :: 0 <= i < |f| ==> line[i] == (f + " = \"")[i] == f[i];
    assert forall i :: 0 <= i < |g| ==> line[i] == (g + " = \"")[i] == g[i];
    assert line[|f|] == (f + " = \"")[|f|] == ' ' && line[|g|] == (g + " = \"")[|g|] == ' ';
    assert |f| == |g|;
  }

  lemma FieldsDiffer(j: nat, k: nat)
    requires j < k < 5
    ensures FIELDS[j] != FIELDS[k]
  {
    assert |FIELDS[0]| == 11 && |FIELDS[1]| == 14 && |FIELDS[2]| == 21 && |FIELDS[3]| == 12 && |FIELDS[4]| == 19;
  }

  /** Whatever value a field has, its line normalises to the same. */
  lemma AssignmentCanonical(k: nat, value: string)
    requires k < 5
    ensures Canonical(FIELDS[k] + " = \"" + value + "\"") == FIELDS[k] + " = " + CANON
  {
    var line := FIELDS[k] + " = \"" + value + "\"";
    assert IsAssignment(line, FIELDS[k]) by { assert line == (FIELDS[k] + " = \"") + (value + "\""); }
    hide IsDataMarker, NoSpaceIn;
    forall j | 0 <= j < k ensures !IsAssignment(line, FIELDS[j]) {
      FieldWord(j);
      FieldWord(k);
      FieldsDiffer(j, k);
      if IsAssignment(line, FIELDS[j]) {
        OneAssigned(line, FIELDS[j], FIELDS[k]);
      }
    }
    FirstAssigned(line, 0, k);
  }

  lemma VersionCanonical(value: string)
    ensures Canonical("Version: " + value) == "Version: " + CANON
  {
    var line := "Version: " + value;
    forall k | 0 <= k < 5 ensures !IsAssignment(line, FIELDS[k]) {
      FieldInitial(k);
      assert line[0] == 'V';
    }
    NotAssigned(line, 0);
  }

  lemma FieldInitial(k: nat)
    requires k < 5
    ensures FIELDS[k] != "" && FIELDS[k][0] != 'V'
  {
  }

  lemma HoleText(k: nat)
    requires k < 5
    ensures Hole(FIELDS[k] + " = \"", NAMES[k], "\"") == FIELDS[k] + " = \"" + ("{{" + NAMES[k] + "}}") + "\""
  {
  }

  lemma DocText()
    ensures Hole("Version: ", NAMES[0], "") == "Version: " + ("{{" + (NAMES[0] + "}}"))
  {
  }

  /** One line of the template and what the build makes of it. */
  lemma LineAlike(t: TemplateLine, b: Build)
    requires WellPlaced([t], [], b)
    ensures !IsDataMarker(Strip(Render(t))) && !IsDataMarker(Strip(BuiltLine(t, b)))
    ensures Canonical(Render(t)) == Canonical(BuiltLine(t, b))
  {
    hide Plain, Fillings, Strip, OneLine, Braceless, Canonical, Hole;
    FrontUnmarked(t, b);
    assert [t][0] == t;
    match t
    case Ordinary(text) =>
    case Assign(k) =>
      HoleText(k);
      AssignmentCanonical(k, "{{" + NAMES[k] + "}}");
      AssignmentCanonical(k, ValueOf(b, k));
      FieldWord(k);
      StartKept(Render(t));
    case DocVersion =>
      DocText();
      VersionCanonical("{{" + (NAMES[0] + "}}"));
      VersionCanonical(b.version);
      StartKept(Render(t));
  }

  // ---- Blocks ------------------------------------------------------------------------

  lemma MarkerThird(s: string)
    ensures IsMarkerLine(s) ==> s[2] == '_'
  {
    if |s| >= 4 {
      assert s[..4][2] == s[2];
    }
  }

  lemma CodeNoMarker(chunk: string)
    requires CodeOnly(chunk)
    ensures !IsMarkerLine(Strip("# " + chunk))
  {
    CodeLine(chunk, MEMORY_MARKER);
    assert ("# " + chunk)[2] == chunk[0] && IsCode(chunk[0]) && !IsCode('_');
    MarkerThird("# " + chunk);
  }

  lemma BlockNoMarker(bytes: seq<Byte>)
    ensures forall i :: 0 <= i < |Block(bytes)| ==> !IsMarkerLine(Strip(Block(bytes)[i]))
  {
    CodeChunks(bytes);
    EmptyStripped();
    hide Chunks, Encode, CodeOnly, Strip, IsMarkerLine;
    EmptyNoMarker();
    if bytes != [] {
      var chunks := Chunks(Encode(bytes));
      forall i | 0 <= i < |chunks| ensures !IsMarkerLine(Strip("# " + chunks[i])) { CodeNoMarker(chunks[i]); }
    }
  }

  lemma EmptyNoMarker()
    ensures !IsMarkerLine("")
  {
  }

  /** A placeholder line is no marker line. */
  lemma PlaceholderNoMarker(name: string)
    ensures !IsMarkerLine(Strip(Hole("# ", name, "")))
  {
    var line := Hole("# ", name, "");
    assert line[0] == '#' && line[|line| - 1] == '}' && line[2] == '{';
    assert LeftStrip(line) == line && Strip(line) == line;
    MarkerThird(line);
  }

  lemma DataMarkers()
    ensures IsMarkerLine(MEMORY_LINE) && IsMarkerLine(WHEEL_LINE)
  {
    assert |MEMORY_LINE| == 23 && |WHEEL_LINE| == 16;
    assert MEMORY_LINE[..4] == "# __" && MEMORY_LINE[21..] == "__" && WHEEL_LINE[..4] == "# __" && WHEEL_LINE[14..] == "__";
  }

  /** From the first data marker on. */
  lemma BlocksAlike(first: seq<string>, second: seq<string>, first': seq<string>, second': seq<string>, back: seq<string>)
    requires forall i :: 0 <= i < |first| ==> !IsMarkerLine(Strip(first[i]))
    requires forall i :: 0 <= i < |second| ==> !IsMarkerLine(Strip(second[i]))
    requires forall i :: 0 <= i < |first'| ==> !IsMarkerLine(Strip(first'[i]))
    requires forall i :: 0 <= i < |second'| ==> !IsMarkerLine(Strip(second'[i]))
    ensures Normalize([MEMORY_LINE] + (first + ([WHEEL_LINE] + (second + back))), false)
            == Normalize([MEMORY_LINE] + (first' + ([WHEEL_LINE] + (second' + back))), false)
  {
    hide IsMarkerLine, Strip, Canonical;
    BothBlocks(first, second, back);
    BothBlocks(first', second', back);
  }

  lemma AfterMarker(marker: string, block: seq<string>, rest: seq<string>, inBlock: bool)
    requires marker == MEMORY_LINE || marker == WHEEL_LINE
    requires forall i :: 0 <= i < |block| ==> !IsMarkerLine(Strip(block[i]))
    ensures Normalize([marker] + (block + rest), inBlock) == [marker] + Normalize(rest, true)
  {
    MarkerTexts();
    DataMarkers();
    hide IsMarkerLine, Strip, Canonical;
    BlockSkipped(block, rest);
    var all := [marker] + (block + rest);
    assert all[0] == marker && all[1..] == block + rest;
  }

  lemma BothBlocks(first: seq<string>, second: seq<string>, back: seq<string>)
    requires forall i :: 0 <= i < |first| ==> !IsMarkerLine(Strip(first[i]))
    requires forall i :: 0 <= i < |second| ==> !IsMarkerLine(Strip(second[i]))
    ensures Normalize([MEMORY_LINE] + (first + ([WHEEL_LINE] + (second + back))), false)
            == [MEMORY_LINE] + ([WHEEL_LINE] + Normalize(back, true))
  {
    hide IsMarkerLine, Strip, Canonical, Normalize;
    AfterMarker(MEMORY_LINE, first, [WHEEL_LINE] + (second + back), false);
    AfterMarker(WHEEL_LINE, second, back, true);
  }

  /** A built installer and its template normalise to the same lines, whatever values and wheels went in. */
  lemma BuiltMatchesTemplate(front: seq<TemplateLine>, back: seq<string>, b: Build)
    requires WellPlaced(front, back, b)
    ensures Normalize(Split(Fill(Join(TemplateLines(front, back)), Fillings(b))), false)
            == Normalize(TemplateLines(front, back), false)
  {
    hide Fill, Strip, Normalize, Block, BuiltLine, Render, Canonical, Join, IsMarkerLine, IsDataMarker, Hole, OneLine, Plain, Braceless, Fillings;
    BuildIs(front, back, b);
    BlockNoMarker(b.memory);
    BlockNoMarker(b.wheel);
    PlaceholderNoMarker(MEMORY_BLOCK);
    PlaceholderNoMarker(WHEEL_BLOCK);
    var first, second := [Hole("# ", MEMORY_BLOCK, "")], [Hole("# ", WHEEL_BLOCK, "")];
    BlocksAlike(first, second, Block(b.memory), Block(b.wheel), back);
    forall i | 0 <= i < |front|
      ensures !IsDataMarker(Strip(Render(front[i]))) && !IsDataMarker(Strip(BuiltLine(front[i], b)))
              && Canonical(Render(front[i])) == Canonical(BuiltLine(front[i], b))
    {
      OnePlaced(front, back, b, i);
      LineAlike(front[i], b);
    }
    var restA := [MEMORY_LINE] + (first + ([WHEEL_LINE] + (second + back)));
    var restB := [MEMORY_LINE] + (Block(b.memory) + ([WHEEL_LINE] + (Block(b.wheel) + back)));
    FrontAlike(RenderAll(front), BuiltFront(front, b), restA, restB);
    Regrouped(RenderAll(front), MEMORY_LINE, Hole("# ", MEMORY_BLOCK, ""), WHEEL_LINE, Hole("# ", WHEEL_BLOCK, ""), back);
  }

  lemma Regrouped(front: seq<string>, a: string, b: string, c: string, d: string, back: seq<string>)
    ensures front + ([a, b, c, d] + back) == front + ([a] + ([b] + ([c] + ([d] + back))))
  {
  }

  // ---- What the comparison sees ------------------------------------------------------

  /** A text with its two blocks: lines up to the first data marker, the blocks, and all that follows. */
  function WithBlocks(front: seq<string>, memory: seq<string>, wheel: seq<string>): seq<string> {
    front + ([MEMORY_LINE] + (memory + ([WHEEL_LINE] + wheel)))
  }

  predicate NoMarkers(lines: seq<string>) {
    forall i :: 0 <= i < |lines| ==> !IsMarkerLine(Strip(lines[i]))
  }

  predicate NoDataMarkers(lines: seq<string>) {
    forall i :: 0 <= i < |lines| ==> !IsDataMarker(Strip(lines[i]))
  }

  lemma MarkersAreData()
    ensures Strip(MEMORY_LINE) == MEMORY_LINE && IsDataMarker(MEMORY_LINE) && IsDataMarker(WHEEL_LINE)
    ensures MEMORY_LINE[0] == '#' && WHEEL_LINE[0] == '#'
  {
    MarkerTexts();
  }

  /** A line that is no data marker does not become one. */
  lemma CanonicalNoMarker(line: string)
    requires !IsDataMarker(Strip(line))
    ensures !IsDataMarker(Canonical(line))
  {
    MarkerTexts();
    MarkersAreData();
    var k := FieldAssigned(line, 0);
    if k.Some? && k.value < 5 {
      FieldWord(k.value);
      assert Canonical(line)[0] == FIELDS[k.value][0];
    } else if k == None && "Version: " <= line {
      assert Canonical(line)[0] == 'V';
    }
  }

  /** The first line of a normal form says whether there were lines before the first data marker. */
  lemma FirstNormal(front: seq<string>, rest: seq<string>)
    requires NoDataMarkers(front) && rest != [] && IsDataMarker(Strip(rest[0]))
    ensures var n := Normalize(front + rest, false);
            && n != []
            && (front == [] ==> IsDataMarker(n[0]))
            && (front != [] ==> n[0] == Canonical(front[0]) && !IsDataMarker(n[0]) && n[1..] == Normalize(front[1..] + rest, false))
  {
    hide Canonical, IsDataMarker, Strip, IsMarkerLine;
    if front == [] {
      assert front + rest == rest;
    } else {
      assert (front + rest)[0] == front[0] && (front + rest)[1..] == front[1..] + rest;
      CanonicalNoMarker(front[0]);
    }
  }

  lemma {:induction false} EqualFronts(a: seq<string>, b: seq<string>, restA: seq<string>, restB: seq<string>)
    requires NoDataMarkers(a) && NoDataMarkers(b) && restA != [] && restB != []
    requires IsDataMarker(Strip(restA[0])) && IsDataMarker(Strip(restB[0]))
    requires Normalize(a + restA, false) == Normalize(b + restB, false)
    ensures |a| == |b| && forall i :: 0 <= i < |a| ==> Canonical(a[i]) == Canonical(b[i])
  {
    hide Canonical, IsDataMarker, Strip, Normalize;
    FirstNormal(a, restA);
    FirstNormal(b, restB);
    if a != [] {
      EqualFronts(a[1..], b[1..], restA, restB);
    }
  }

  lemma BlocksNormalize(memory: seq<string>, wheel: seq<string>)
    requires NoMarkers(memory) && NoMarkers(wheel)
    ensures Normalize([MEMORY_LINE] + (memory + ([WHEEL_LINE] + wheel)), false) == [MEMORY_LINE, WHEEL_LINE]
  {
    hide IsMarkerLine, Strip, Normalize;
    assert wheel == wheel + [];
    AfterMarker(MEMORY_LINE, memory, [WHEEL_LINE] + wheel, false);
    AfterMarker(WHEEL_LINE, wheel, [], true);
    assert Normalize([], true) == [] by { NothingLeft(); }
  }

  lemma NothingLeft()
    ensures Normalize([], true) == []
  {
  }

  /** The comparison finds two texts alike if and only if they agree line by line, up to the named values, before the
      first data marker; whatever is in the blocks, or after them, it does not see. */
  lemma AlikeIffFrontsAgree(a: seq<string>, b: seq<string>, memory: seq<string>, wheel: seq<string>, memory': seq<string>,
                            wheel': seq<string>)
    requires NoDataMarkers(a) && NoDataMarkers(b)
    requires NoMarkers(memory) && NoMarkers(wheel) && NoMarkers(memory') && NoMarkers(wheel')
    ensures Normalize(WithBlocks(a, memory, wheel), false) == Normalize(WithBlocks(b, memory', wheel'), false)
            <==> |a| == |b| && forall i :: 0 <= i < |a| ==> Canonical(a[i]) == Canonical(b[i])
  {
    hide Normalize, Canonical, IsMarkerLine, IsDataMarker, Strip;
    var restA := [MEMORY_LINE] + (memory + ([WHEEL_LINE] + wheel));
    var restB := [MEMORY_LINE] + (memory' + ([WHEEL_LINE] + wheel'));
    BlocksNormalize(memory, wheel);
    BlocksNormalize(memory', wheel');
    MarkersAreData();
    if Normalize(a + restA, false) == Normalize(b + restB, false) {
      EqualFronts(a, b, restA, restB);
    }
    if |a| == |b| && forall i :: 0 <= i < |a| ==> Canonical(a[i]) == Canonical(b[i]) {
      FrontAlike(a, b, restA, restB);
    }
  }
}
