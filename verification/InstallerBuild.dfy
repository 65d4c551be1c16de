/** Building the installer from its template, and reading the embedded wheels back from it. */
module InstallerBuild {
  import opened Basics
  import opened TextLines
  import opened Base64
  import opened Placeholders
  import opened Embedding

  /** What a build puts in: the values of the named fields and the two wheels. */
  datatype Build = Build(version: string, wheelName: string, memoryName: string, wheelSha: string, memorySha: string,
                         wheel: seq<Byte>, memory: seq<Byte>)

  const FIELDS: seq<string> := ["TRW_VERSION", "WHEEL_FILENAME", "MEMORY_WHEEL_FILENAME", "WHEEL_SHA256", "MEMORY_WHEEL_SHA256"]
  const NAMES: seq<string> := ["VERSION", "WHEEL_FILENAME", "MEMORY_WHEEL_FILENAME", "WHEEL_SHA256", "MEMORY_WHEEL_SHA256"]
  const MEMORY_BLOCK := "MEMORY_WHEEL_BASE64"
  const WHEEL_BLOCK := "WHEEL_BASE64"

  function ValueOf(b: Build, k: nat): string
    requires k < 5
  {
    if k == 0 then b.version else if k == 1 then b.wheelName else if k == 2 then b.memoryName
    else if k == 3 then b.wheelSha else b.memorySha
  }

  /** The replacements in the order the builder makes them. */
  function Fillings(b: Build): seq<Filling> {
    [Filling(false, NAMES[0], b.version), Filling(false, NAMES[1], b.wheelName), Filling(false, NAMES[2], b.memoryName),
     Filling(false, NAMES[3], b.wheelSha), Filling(false, NAMES[4], b.memorySha),
     Filling(true, MEMORY_BLOCK, Format(Encode(b.memory))), Filling(true, WHEEL_BLOCK, Format(Encode(b.wheel)))]
  }

  // ---- Templates ---------------------------------------------------------------------

  /** A line of the template: its own text, an assignment of a named field, or the docstring's version. */
  datatype TemplateLine = Ordinary(text: string) | Assign(k: nat) | DocVersion

  function Render(t: TemplateLine): string {
    match t
    case Ordinary(text) => text
    case Assign(k) => if k < 5 then Hole(FIELDS[k] + " = \"", NAMES[k], "\"") else ""
    case DocVersion => Hole("Version: ", NAMES[0], "")
  }

  function RenderAll(front: seq<TemplateLine>): (r: seq<string>)
    ensures |r| == |front|
  {
    seq(|front|, i requires 0 <= i < |front| => Render(front[i]))
  }

  const MEMORY_LINE := "# " + MEMORY_MARKER
  const WHEEL_LINE := "# " + WHEEL_MARKER

  function TemplateLines(front: seq<TemplateLine>, back: seq<string>): (r: seq<string>)
    ensures |r| >= 1
  {
    RenderAll(front) +
    ([MEMORY_LINE, Hole("# ", MEMORY_BLOCK, ""), WHEEL_LINE, Hole("# ", WHEEL_BLOCK, "")] + back)
  }

  /** Placeholders occur only in the named fields and blocks, and the markers only where the blocks are. */
  predicate WellPlaced(front: seq<TemplateLine>, back: seq<string>, b: Build) {
    && (forall i :: 0 <= i < |front| ==>
          match front[i]
          case Ordinary(text) => OneLine(text) && Plain(text, Fillings(b)) && Strip(text) != MEMORY_LINE && Strip(text) != WHEEL_LINE
          case Assign(k) => k < 5
          case DocVersion => true)
    && (forall i :: 0 <= i < |back| ==> OneLine(back[i]) && Plain(back[i], Fillings(b)))
    && (forall k :: 0 <= k < 5 ==> Braceless(ValueOf(b, k)) && OneLine(ValueOf(b, k)))
  }

  // ---- What the build makes of each line ---------------------------------------------

  function BuiltLine(t: TemplateLine, b: Build): string {
    match t
    case Ordinary(text) => text
    case Assign(k) => if k < 5 then FIELDS[k] + " = \"" + ValueOf(b, k) + "\"" else ""
    case DocVersion => "Version: " + b.version
  }

  function BuiltFront(front: seq<TemplateLine>, b: Build): (r: seq<string>)
    ensures |r| == |front|
  {
    seq(|front|, i requires 0 <= i < |front| => BuiltLine(front[i], b))
  }

  function Block(bytes: seq<Byte>): seq<string> {
    if bytes == [] then [""] else Commented(Chunks(Encode(bytes)))
  }

  /** The lines of the built installer. */
  function BuiltLines(front: seq<TemplateLine>, back: seq<string>, b: Build): seq<string> {
    BuiltFront(front, b) + ([MEMORY_LINE] + (Block(b.memory) + ([WHEEL_LINE] + (Block(b.wheel) + back))))
  }

  lemma FieldPlain(k: nat)
    requires k < 5
    ensures Braceless(FIELDS[k]) && OneLine(FIELDS[k])
  {
    if k == 0 { } else if k == 1 { } else if k == 2 { } else if k == 3 { } else { }
  }

  lemma NamePlain(k: nat)
    requires k < 5
    ensures Braceless(NAMES[k]) && OneLine(NAMES[k])
  {
    if k == 0 { } else if k == 1 { } else if k == 2 { } else if k == 3 { } else { }
  }

  lemma FieldsPlain(k: nat)
    requires k < 5
    ensures Braceless(FIELDS[k] + " = \"") && Braceless("\"") && OneLine(FIELDS[k] + " = \"")
    ensures Braceless(NAMES[k]) && OneLine(NAMES[k])
  {
    FieldPlain(k);
    NamePlain(k);
    assert Braceless(" = \"") && OneLine(" = \"");
  }

  lemma BlocksPlain()
    ensures Braceless(MEMORY_BLOCK) && OneLine(MEMORY_BLOCK) && Braceless(WHEEL_BLOCK) && OneLine(WHEEL_BLOCK)
  {
  }

  lemma NamesDiffer()
    ensures |NAMES[0]| == 7 && |NAMES[1]| == 14 && |NAMES[2]| == 21 && |NAMES[3]| == 12 && |NAMES[4]| == 19
    ensures |MEMORY_BLOCK| == 19 && |WHEEL_BLOCK| == 12 && NAMES[3] != WHEEL_BLOCK && NAMES[4] != MEMORY_BLOCK
  {
    assert NAMES[3][6] == 'S' && WHEEL_BLOCK[6] == 'B';
    assert NAMES[4][13] == 'S' && MEMORY_BLOCK[13] == 'B';
  }

  lemma CodeBraceless(code: string)
    requires forall i :: 0 <= i < |code| ==> IsCode(code[i])
    ensures Braceless(Format(code))
  {
    if code != "" {
      var chunks := Chunks(code);
      ChunksAreParts(code);
      ChunksNonempty(code);
      forall i | 0 <= i < |chunks| ensures Braceless(Commented(chunks)[i]) {
        forall j | 0 <= j < |chunks[i]| ensures IsCode(chunks[i][j]) { assert chunks[i][j] in code; }
      }
      JoinBraceless(Commented(chunks));
    }
  }

  lemma {:induction false} JoinBraceless(lines: seq<string>)
    requires |lines| >= 1 && forall i :: 0 <= i < |lines| ==> Braceless(lines[i])
    ensures Braceless(Join(lines))
  {
    if |lines| > 1 {
      JoinBraceless(lines[1..]);
    }
  }

  lemma ValuesBraceless(b: Build)
    requires forall k :: 0 <= k < 5 ==> Braceless(ValueOf(b, k))
    ensures forall i :: 0 <= i < 7 ==> Braceless(Fillings(b)[i].value)
  {
    EncodedCodes(b.memory);
    EncodedCodes(b.wheel);
    CodeBraceless(Encode(b.memory));
    CodeBraceless(Encode(b.wheel));
    hide Encode, Format, Braceless;
    ValuesAre(b);
  }

  lemma NamesBraceless(b: Build)
    ensures forall i :: 0 <= i < 7 ==> Braceless(Fillings(b)[i].name) && OneLine(Fillings(b)[i].name)
  {
    hide Encode, Format, Braceless, OneLine;
    BlocksPlain();
    NamePlain(0);
    NamePlain(1);
    NamePlain(2);
    NamePlain(3);
    NamePlain(4);
  }

  lemma NamesUnequal(b: Build)
    ensures forall i, j :: 0 <= i < j < 7 ==> Fillings(b)[i].name != Fillings(b)[j].name
  {
    hide Encode, Format;
    NamesDiffer();
  }

  lemma FillingsDistinct(b: Build)
    requires forall k :: 0 <= k < 5 ==> Braceless(ValueOf(b, k))
    ensures Distinct(Fillings(b))
  {
    ValuesBraceless(b);
    NamesBraceless(b);
    NamesUnequal(b);
    SevenFillings(b);
    hide Fillings, Braceless, OneLine;
  }

  lemma SevenFillings(b: Build)
    ensures |Fillings(b)| == 7
  {
  }

  lemma ValuesAre(b: Build)
    ensures ValueOf(b, 0) == b.version && ValueOf(b, 1) == b.wheelName && ValueOf(b, 2) == b.memoryName
    ensures ValueOf(b, 3) == b.wheelSha && ValueOf(b, 4) == b.memorySha
  {
  }

  lemma FillLine(t: TemplateLine, b: Build)
    requires WellPlaced([t], [], b)
    ensures Fill(Render(t), Fillings(b)) == BuiltLine(t, b)
  {
    hide Fill, Format, Encode, Hole, Braceless, OneLine, Plain, Strip, ValueOf;
    assert [t][0] == t;
    FillingsDistinct(b);
    match t
    case Ordinary(text) => PlainStays(text, Fillings(b));
    case Assign(k) =>
      FieldsPlain(k);
      ValuesAre(b);
      FillHole(FIELDS[k] + " = \"", "\"", Fillings(b), k);
    case DocVersion =>
      DocPlain();
      FillHole("Version: ", "", Fillings(b), 0);
      assert "Version: " + b.version + "" == "Version: " + b.version;
  }

  lemma DocPlain()
    ensures Braceless("Version: ") && Braceless("")
  {
  }

  lemma HashPlain()
    ensures Braceless("# ") && Braceless("") && Braceless(MEMORY_LINE) && Braceless(WHEEL_LINE)
  {
  }

  lemma FillMarkers(b: Build)
    requires forall k :: 0 <= k < 5 ==> Braceless(ValueOf(b, k))
    ensures var f := Fillings(b);
            && Fill(MEMORY_LINE, f) == MEMORY_LINE && Fill(WHEEL_LINE, f) == WHEEL_LINE
            && Fill(Hole("# ", MEMORY_BLOCK, ""), f) == Format(Encode(b.memory))
            && Fill(Hole("# ", WHEEL_BLOCK, ""), f) == Format(Encode(b.wheel))
  {
    hide Fill, Format, Encode, Hole, Braceless, Occurs, Pattern;
    var f := Fillings(b);
    FillingsDistinct(b);
    HashPlain();
    forall i | 0 <= i < |f| ensures !Occurs(MEMORY_LINE, Pattern(f[i])) && !Occurs(WHEEL_LINE, Pattern(f[i])) {
      BracelessPlain(MEMORY_LINE, f[i]);
      BracelessPlain(WHEEL_LINE, f[i]);
    }
    PlainStays(MEMORY_LINE, f);
    PlainStays(WHEEL_LINE, f);
    FillHole("# ", "", f, 5);
    FillHole("# ", "", f, 6);
    assert "" + Format(Encode(b.memory)) + "" == Format(Encode(b.memory));
    assert "" + Format(Encode(b.wheel)) + "" == Format(Encode(b.wheel));
  }

  // ---- The whole text ----------------------------------------------------------------

  lemma {:induction false} JoinJoined(a: seq<string>, b: seq<string>)
    requires |a| >= 1 && |b| >= 1
    ensures Join(a + b) == Join(a) + "\n" + Join(b)
  {
    if |a| == 1 {
      assert (a + b)[1..] == b;
    } else {
      assert (a + b)[1..] == a[1..] + b;
      JoinJoined(a[1..], b);
    }
  }

  /** A line that holds several is those lines. */
  lemma Unfold(a: seq<string>, lines: seq<string>, b: seq<string>)
    requires |lines| >= 1
    ensures Join(a + ([Join(lines)] + b)) == Join(a + (lines + b))
  {
    hide Join;
    if b != [] {
      JoinJoined([Join(lines)], b);
      JoinJoined(lines, b);
      Alone(Join(lines));
    } else {
      Alone(Join(lines));
      assert [Join(lines)] + b == [Join(lines)] && lines + b == lines;
    }
    if a != [] {
      JoinJoined(a, [Join(lines)] + b);
      JoinJoined(a, lines + b);
    } else {
      assert a + ([Join(lines)] + b) == [Join(lines)] + b && a + (lines + b) == lines + b;
    }
  }

  lemma Alone(s: string)
    ensures Join([s]) == s
  {
  }

  lemma FormatIsBlock(bytes: seq<Byte>)
    ensures |Block(bytes)| >= 1 && Format(Encode(bytes)) == Join(Block(bytes))
  {
    EncodedCodes(bytes);
    ChunksNonempty(Encode(bytes));
  }

  lemma FilledEach(front: seq<TemplateLine>, back: seq<string>, b: Build)
    requires WellPlaced(front, back, b)
    ensures FillEach(TemplateLines(front, back), Fillings(b))
            == BuiltFront(front, b) +
               ([MEMORY_LINE] + ([Join(Block(b.memory))] + ([WHEEL_LINE] + ([Join(Block(b.wheel))] + back))))
  {
    hide Fill, Format, Encode, Hole, Block, OneLine, Braceless, Plain, Strip, Render, BuiltLine, Fillings;
    FillMarkers(b);
    FormatIsBlock(b.memory);
    FormatIsBlock(b.wheel);
    var f := Fillings(b);
    forall i | 0 <= i < |front| ensures Fill(Render(front[i]), f) == BuiltLine(front[i], b) {
      OnePlaced(front, back, b, i);
      FillLine(front[i], b);
    }
    forall i | 0 <= i < |back| ensures Fill(back[i], f) == back[i] { PlainStays(back[i], f); }
  }

  lemma OnePlaced(front: seq<TemplateLine>, back: seq<string>, b: Build, i: nat)
    requires WellPlaced(front, back, b) && i < |front|
    ensures WellPlaced([front[i]], [], b)
  {
    hide OneLine, Braceless, Plain, Strip, Fillings;
  }

  /** Every line of the built text is one line. */
  lemma BuiltOneLine(front: seq<TemplateLine>, back: seq<string>, b: Build)
    requires WellPlaced(front, back, b)
    ensures forall i :: 0 <= i < |BuiltLines(front, back, b)| ==> OneLine(BuiltLines(front, back, b)[i])
  {
    hide Fill, Format, Encode, Plain, Strip, OneLine, Block, Fillings, BuiltLine, Braceless;
    BlockOneLine(b.memory);
    BlockOneLine(b.wheel);
    MarkersOneLine();
    forall i | 0 <= i < |front| ensures OneLine(BuiltLine(front[i], b)) {
      OnePlaced(front, back, b, i);
      LineOneLine(front[i], b);
    }
  }

  lemma MarkersOneLine()
    ensures OneLine(MEMORY_LINE) && OneLine(WHEEL_LINE)
  {
  }

  lemma LineOneLine(t: TemplateLine, b: Build)
    requires WellPlaced([t], [], b)
    ensures OneLine(BuiltLine(t, b))
  {
    hide Plain, Strip, Fillings, Braceless;
    assert [t][0] == t;
    ValuesAre(b);
    match t
    case Ordinary(text) =>
    case Assign(k) => FieldsPlain(k);
    case DocVersion => assert OneLine("Version: "); assert OneLine(ValueOf(b, 0));
  }

  lemma BlockOneLine(bytes: seq<Byte>)
    ensures forall i :: 0 <= i < |Block(bytes)| ==> OneLine(Block(bytes)[i])
  {
    CodeChunks(bytes);
    hide Chunks, Encode;
    if bytes != [] {
      var chunks := Chunks(Encode(bytes));
      forall i | 0 <= i < |chunks| ensures OneLine("# " + chunks[i]) {
        assert CodeOnly(chunks[i]) && !IsCode('\n');
      }
    }
  }

  /** Filling the whole template gives exactly the built lines. */
  lemma BuildIs(front: seq<TemplateLine>, back: seq<string>, b: Build)
    requires WellPlaced(front, back, b)
    ensures Split(Fill(Join(TemplateLines(front, back)), Fillings(b))) == BuiltLines(front, back, b)
  {
    hide Fill, Block, Join, OneLine, WellPlaced, TemplateLines, Braceless;
    FillingsOneLine(front, back, b);
    FillLines(TemplateLines(front, back), Fillings(b));
    FilledEach(front, back, b);
    FormatIsBlock(b.memory);
    FormatIsBlock(b.wheel);
    var f := BuiltFront(front, b);
    Unfold(f + [MEMORY_LINE], Block(b.memory), [WHEEL_LINE] + ([Join(Block(b.wheel))] + back));
    Unfold(f + [MEMORY_LINE] + Block(b.memory) + [WHEEL_LINE], Block(b.wheel), back);
    Regroup(f, [MEMORY_LINE], [Join(Block(b.memory))], [WHEEL_LINE] + ([Join(Block(b.wheel))] + back));
    Regroup(f, [MEMORY_LINE], Block(b.memory), [WHEEL_LINE] + ([Join(Block(b.wheel))] + back));
    Regroup4(f, [MEMORY_LINE], Block(b.memory), [WHEEL_LINE], [Join(Block(b.wheel))] + back);
    Regroup4(f, [MEMORY_LINE], Block(b.memory), [WHEEL_LINE], Block(b.wheel) + back);
    BuiltOneLine(front, back, b);
    SplitJoin(BuiltLines(front, back, b));
  }

  lemma Regroup(a: seq<string>, b: seq<string>, c: seq<string>, d: seq<string>)
    ensures a + (b + (c + d)) == (a + b) + (c + d)
  {
  }

  lemma Regroup4(a: seq<string>, b: seq<string>, c: seq<string>, d: seq<string>, e: seq<string>)
    ensures (a + b) + (c + (d + e)) == (a + b + c + d) + e && a + (b + (c + (d + e))) == (a + b + c + d) + e
  {
  }

  lemma FillingsOneLine(front: seq<TemplateLine>, back: seq<string>, b: Build)
    requires WellPlaced(front, back, b)
    ensures forall i :: 0 <= i < |Fillings(b)| ==> OneLine(Fillings(b)[i].name)
  {
    hide Format, Encode;
    FillingsDistinct(b);
  }

  // ---- Reading the wheels back -------------------------------------------------------

  lemma MarkerTexts()
    ensures "_" <= MEMORY_MARKER && "_" <= WHEEL_MARKER && MEMORY_LINE != WHEEL_LINE
    ensures Strip(MEMORY_LINE) == MEMORY_LINE && Strip(WHEEL_LINE) == WHEEL_LINE
    ensures IsMarkerEnd(WHEEL_LINE) && IsMarkerEnd(MEMORY_LINE)
  {
    assert |MEMORY_LINE| == 23 && |WHEEL_LINE| == 16;
    assert !IsSpace(MEMORY_LINE[0]) && !IsSpace(MEMORY_LINE[22]) && !IsSpace(WHEEL_LINE[0]) && !IsSpace(WHEEL_LINE[15]);
  }

  /** No line of the front is taken for a marker. */
  lemma FrontUnmarked(t: TemplateLine, b: Build)
    requires WellPlaced([t], [], b)
    ensures Strip(BuiltLine(t, b)) != MEMORY_LINE && Strip(BuiltLine(t, b)) != WHEEL_LINE
  {
    assert [t][0] == t;
    hide Plain, Fillings, Braceless, OneLine;
    match t
    case Ordinary(text) =>
    case Assign(k) =>
      FieldStarts(k);
      StartKept(BuiltLine(t, b));
    case DocVersion =>
      StartKept(BuiltLine(t, b));
  }

  lemma FieldStarts(k: nat)
    requires k < 5
    ensures FIELDS[k] != "" && FIELDS[k][0] != '#' && !IsSpace(FIELDS[k][0])
  {
  }

  lemma StartKept(s: string)
    requires s != "" && s[0] != '#' && !IsSpace(s[0])
    ensures Strip(s) != MEMORY_LINE && Strip(s) != WHEEL_LINE
  {
    RightStripped(s);
    assert LeftStrip(s) == s;
    assert MEMORY_LINE[0] == '#' && WHEEL_LINE[0] == '#';
  }

  /** The lines give the bytes back after the marker: some data, that decodes to them. */
  predicate GivesBack(lines: seq<string>, marker: string, bytes: seq<Byte>) {
    var data := ExtractFrom(lines, marker, false);
    data != [] && Decode(Concat(data)) == Some(bytes)
  }

  lemma BlockGivesBack(front: seq<string>, marker: string, bytes: seq<Byte>, rest: seq<string>)
    requires (forall i :: 0 <= i < |front| ==> Strip(front[i]) != "# " + marker) && Strip("# " + marker) == "# " + marker
    requires "_" <= marker && (bytes != [] ==> Stops(rest, marker))
    ensures var lines := front + (["# " + marker] + (Block(bytes) + rest));
            && (bytes == [] ==> ExtractFrom(lines, marker, false) == [])
            && (GivesBack(lines, marker, bytes) <==> bytes != [])
  {
    hide Strip, Encode, Decode, Chunks, Commented;
    if bytes == [] {
      Before(front, ["# " + marker] + ([""] + rest), marker);
      assert (["# " + marker] + ([""] + rest))[1..] == [""] + rest;
      EmptyStripped();
      assert ([""] + rest)[0] == "";
    } else {
      EmbeddedReadBack(front, marker, bytes, rest);
    }
  }

  lemma EmptyStripped()
    ensures Strip("") == "" && !IsMarkerEnd("")
  {
  }

  lemma BlockUnmarked(bytes: seq<Byte>)
    ensures forall i :: 0 <= i < |Block(bytes)| ==> Strip(Block(bytes)[i]) != WHEEL_LINE
  {
    CodeChunks(bytes);
    MarkerTexts();
    EmptyStripped();
    hide Chunks, Encode, Strip, CodeOnly, IsMarkerEnd;
    var chunks := Chunks(Encode(bytes));
    forall i | 0 <= i < |chunks| ensures Strip("# " + chunks[i]) != WHEEL_LINE {
      CodeLine(chunks[i], WHEEL_MARKER);
    }
  }

  /** No line before the two blocks is taken for their markers. */
  lemma FrontsUnmarked(front: seq<TemplateLine>, back: seq<string>, b: Build)
    requires WellPlaced(front, back, b)
    ensures var f := BuiltFront(front, b);
            && (forall i :: 0 <= i < |f| ==> Strip(f[i]) != MEMORY_LINE)
            && (forall i :: 0 <= i < |f + ([MEMORY_LINE] + Block(b.memory))| ==>
                  Strip((f + ([MEMORY_LINE] + Block(b.memory)))[i]) != WHEEL_LINE)
  {
    hide Strip, OneLine, WellPlaced, Fillings, BuiltLine, Encode, Chunks, Commented;
    MarkerTexts();
    var f := BuiltFront(front, b);
    forall i | 0 <= i < |f| ensures Strip(f[i]) != MEMORY_LINE && Strip(f[i]) != WHEEL_LINE {
      OnePlaced(front, back, b, i);
      FrontUnmarked(front[i], b);
    }
    var before := f + ([MEMORY_LINE] + Block(b.memory));
    BlockUnmarked(b.memory);
    forall i | 0 <= i < |before| ensures Strip(before[i]) != WHEEL_LINE {
      if i > |f| {
        assert before[i] == Block(b.memory)[i - |f| - 1];
      }
    }
  }

  /** Each marker of the built installer gives back its wheel, byte for byte, if and only if the wheel is not empty. */
  lemma WheelsReadBack(front: seq<TemplateLine>, back: seq<string>, b: Build)
    requires WellPlaced(front, back, b) && Stops(back, WHEEL_MARKER)
    ensures var lines := Split(Fill(Join(TemplateLines(front, back)), Fillings(b)));
            && (GivesBack(lines, MEMORY_MARKER, b.memory) <==> b.memory != [])
            && (GivesBack(lines, WHEEL_MARKER, b.wheel) <==> b.wheel != [])
  {
    hide Fill, Strip, OneLine, WellPlaced, TemplateLines, Fillings, BuiltLine, Block, Join, GivesBack;
    MarkersRead(front, back, b);
  }

  /** An empty wheel's marker is followed by no data at all, whatever follows the block. */
  lemma EmptyWheelIsLost(front: seq<TemplateLine>, back: seq<string>, b: Build)
    requires WellPlaced(front, back, b)
    ensures var lines := Split(Fill(Join(TemplateLines(front, back)), Fillings(b)));
            && (b.memory == [] ==> ExtractFrom(lines, MEMORY_MARKER, false) == [])
            && (b.wheel == [] ==> ExtractFrom(lines, WHEEL_MARKER, false) == [])
  {
    hide Fill, Strip, OneLine, WellPlaced, TemplateLines, Fillings, BuiltLine, Block, Join, ExtractFrom;
    MarkersRead(front, back, b);
  }

  lemma MarkersRead(front: seq<TemplateLine>, back: seq<string>, b: Build)
    requires WellPlaced(front, back, b)
    ensures var lines := Split(Fill(Join(TemplateLines(front, back)), Fillings(b)));
            && (b.memory == [] ==> ExtractFrom(lines, MEMORY_MARKER, false) == [])
            && (GivesBack(lines, MEMORY_MARKER, b.memory) <==> b.memory != [])
            && (b.wheel == [] ==> ExtractFrom(lines, WHEEL_MARKER, false) == [])
            && (b.wheel == [] || Stops(back, WHEEL_MARKER) ==> (GivesBack(lines, WHEEL_MARKER, b.wheel) <==> b.wheel != []))
  {
    hide Fill, Strip, OneLine, WellPlaced, TemplateLines, Fillings, BuiltLine, Block, Join, ExtractFrom, GivesBack;
    BuildIs(front, back, b);
    MarkerTexts();
    FrontsUnmarked(front, back, b);
    var f := BuiltFront(front, b);
    var before := f + ([MEMORY_LINE] + Block(b.memory));
    BlockGivesBack(f, MEMORY_MARKER, b.memory, [WHEEL_LINE] + (Block(b.wheel) + back));
    if b.wheel == [] || Stops(back, WHEEL_MARKER) {
      BlockGivesBack(before, WHEEL_MARKER, b.wheel, back);
    }
    Shift(f, [MEMORY_LINE], Block(b.memory), [WHEEL_LINE] + (Block(b.wheel) + back));
  }

  lemma Shift(a: seq<string>, b: seq<string>, c: seq<string>, d: seq<string>)
    ensures a + (b + (c + d)) == (a + (b + c)) + d
  {
  }
}
