/** Embedding bytes in a text as comment lines, and reading them back. */
module Embedding {
  import opened Basics
  import opened TextLines
  import opened Base64
  import opened Placeholders

  const WIDTH: nat := 76
  const MEMORY_MARKER := "__MEMORY_WHEEL_DATA__"
  const WHEEL_MARKER := "__WHEEL_DATA__"

  // ---- Writing -----------------------------------------------------------------------

  function Chunks(s: string): seq<string>
    decreases |s|
  {
    if s == "" then []
    else if |s| <= WIDTH then [s]
    else [s[..WIDTH]] + Chunks(s[WIDTH..])
  }

  function Commented(chunks: seq<string>): (r: seq<string>)
    ensures |r| == |chunks|
  {
    seq(|chunks|, i requires 0 <= i < |chunks| => "# " + chunks[i])
  }

  /** Encoded text as comment lines. */
  function Format(code: string): string {
    if code == "" then "" else Join(Commented(Chunks(code)))
  }

  lemma {:induction false} ChunksNonempty(s: string)
    ensures (s != "" ==> |Chunks(s)| >= 1) && forall i :: 0 <= i < |Chunks(s)| ==> Chunks(s)[i] != ""
    decreases |s|
  {
    if |s| > WIDTH {
      ChunksNonempty(s[WIDTH..]);
    }
  }

  function Concat(chunks: seq<string>): string {
    if chunks == [] then "" else chunks[0] + Concat(chunks[1..])
  }

  lemma {:induction false} ConcatChunks(s: string)
    ensures Concat(Chunks(s)) == s
    decreases |s|
  {
    if s == "" {
    } else if |s| <= WIDTH {
      assert [s][1..] == [];
      assert s + "" == s;
    } else {
      ConcatChunks(s[WIDTH..]);
      assert ([s[..WIDTH]] + Chunks(s[WIDTH..]))[1..] == Chunks(s[WIDTH..]);
      assert s[..WIDTH] + s[WIDTH..] == s;
    }
  }

  lemma {:induction false} ChunksAreParts(s: string)
    ensures forall i, j :: 0 <= i < |Chunks(s)| && 0 <= j < |Chunks(s)[i]| ==> Chunks(s)[i][j] in s
    decreases |s|
  {
    if |s| > WIDTH {
      ChunksAreParts(s[WIDTH..]);
      assert forall c :: c in s[WIDTH..] ==> c in s;
    }
  }

  // ---- Reading -----------------------------------------------------------------------

  predicate IsMarkerEnd(stripped: string) {
    "# __" <= stripped && |stripped| >= 2 && stripped[|stripped| - 2..] == "__"
  }

  /** The comment lines after the marker's line, up to the first line that is neither comment nor blank comment, or a marker. */
  function ExtractFrom(lines: seq<string>, marker: string, collecting: bool): seq<string>
    decreases |lines|
  {
    if lines == [] then []
    else
      var s, rest := Strip(lines[0]), lines[1..];
      if s == "# " + marker then ExtractFrom(rest, marker, true)
      else if !collecting then ExtractFrom(rest, marker, false)
      else if IsMarkerEnd(s) then []
      else if "# " <= s then [s[2..]] + ExtractFrom(rest, marker, true)
      else if s == "#" then ExtractFrom(rest, marker, true)
      else []
  }

  /** The embedded bytes, or nothing when there is no data or it does not decode. */
  method Extract(lines: seq<string>, marker: string) returns (data: Option<seq<Byte>>)
    ensures var chunks := ExtractFrom(lines, marker, false);
            data == if chunks == [] then None else Decode(Concat(chunks))
  {
    var collecting, chunks, i := false, [], 0;
    while i < |lines|
      invariant 0 <= i <= |lines|
      invariant chunks + ExtractFrom(lines[i..], marker, collecting) == ExtractFrom(lines, marker, false)
    {
      assert lines[i..][1..] == lines[i + 1..];
      var s := Strip(lines[i]);
      if s == "# " + marker {
        collecting := true;
      } else if collecting {
        if IsMarkerEnd(s) {
          break;
        }
        if "# " <= s {
          chunks := chunks + [s[2..]];
        } else if s != "#" {
          break;
        }
      }
      i := i + 1;
    }
    assert chunks == ExtractFrom(lines, marker, false);
    data := if chunks == [] then None else Decode(Concat(chunks));
  }

  lemma {:induction false} Before(front: seq<string>, rest: seq<string>, marker: string)
    requires forall i :: 0 <= i < |front| ==> Strip(front[i]) != "# " + marker
    ensures ExtractFrom(front + rest, marker, false) == ExtractFrom(rest, marker, false)
  {
    if front == [] {
      assert front + rest == rest;
    } else {
      assert (front + rest)[1..] == front[1..] + rest;
      Before(front[1..], rest, marker);
    }
  }

  predicate CodeOnly(chunk: string) { chunk != "" && forall i :: 0 <= i < |chunk| ==> IsCode(chunk[i]) }

  /** A line of encoded text is read back whole and ends nothing. */
  lemma CodeLine(chunk: string, marker: string)
    requires CodeOnly(chunk) && "_" <= marker
    ensures var line := "# " + chunk;
            && Strip(line) == line && line != "# " + marker && !IsMarkerEnd(line) && "# " <= line && line[2..] == chunk
  {
    var line := "# " + chunk;
    assert line[2] == chunk[0] && IsCode(chunk[0]) && !IsCode('_');
    assert line[|line| - 1] == chunk[|chunk| - 1] && IsCode(chunk[|chunk| - 1]);
    assert !IsSpace(line[0]) && !IsSpace(line[|line| - 1]);
    assert ("# " + marker)[2] == marker[0] == '_';
    assert "# __"[2] == '_';
  }

  /** The line after a block stops the reader. */
  predicate Stops(lines: seq<string>, marker: string) {
    lines == [] ||
    var s := Strip(lines[0]);
    s != "# " + marker && (IsMarkerEnd(s) || (!("# " <= s) && s != "#"))
  }

  lemma {:induction false} BlockRead(chunks: seq<string>, rest: seq<string>, marker: string)
    requires "_" <= marker && (forall i :: 0 <= i < |chunks| ==> CodeOnly(chunks[i])) && Stops(rest, marker)
    ensures ExtractFrom(Commented(chunks) + rest, marker, true) == chunks
  {
    var lines := Commented(chunks) + rest;
    if chunks == [] {
      assert lines == rest;
    } else {
      CodeLine(chunks[0], marker);
      assert lines[0] == "# " + chunks[0];
      assert lines[1..] == Commented(chunks[1..]) + rest;
      hide CodeOnly, IsMarkerEnd, Strip, Stops;
      BlockRead(chunks[1..], rest, marker);
      assert chunks == [chunks[0]] + chunks[1..];
    }
  }

  lemma CodeChunks(bytes: seq<Byte>)
    ensures forall i :: 0 <= i < |Chunks(Encode(bytes))| ==> CodeOnly(Chunks(Encode(bytes))[i])
  {
    var s := Encode(bytes);
    EncodedCodes(bytes);
    ChunksNonempty(s);
    ChunksAreParts(s);
    hide IsCode, Encode, Chunks;
    forall i | 0 <= i < |Chunks(s)| ensures CodeOnly(Chunks(s)[i]) {
      forall j | 0 <= j < |Chunks(s)[i]| ensures IsCode(Chunks(s)[i][j]) {
        assert Chunks(s)[i][j] in s;
      }
    }
  }

  /** A block between its marker and the next thing is read back to the exact bytes. */
  lemma EmbeddedReadBack(front: seq<string>, marker: string, bytes: seq<Byte>, rest: seq<string>)
    requires "_" <= marker && bytes != [] && Stops(rest, marker)
    requires forall i :: 0 <= i < |front| ==> Strip(front[i]) != "# " + marker
    requires Strip("# " + marker) == "# " + marker
    ensures var lines := front + (["# " + marker] + (Commented(Chunks(Encode(bytes))) + rest));
            var chunks := ExtractFrom(lines, marker, false);
            chunks != [] && Decode(Concat(chunks)) == Some(bytes)
  {
    var chunks := Chunks(Encode(bytes));
    var block := Commented(chunks) + rest;
    hide Encode, Decode, Stops, Strip, Commented, Chunks;
    Before(front, ["# " + marker] + block, marker);
    assert (["# " + marker] + block)[1..] == block;
    CodeChunks(bytes);
    BlockRead(chunks, rest, marker);
    EncodedCodes(bytes);
    ChunksNonempty(Encode(bytes));
    ConcatChunks(Encode(bytes));
    DecodeEncode(bytes);
  }
}
