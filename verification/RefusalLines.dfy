/** What the installer shows of a failed project command, within one character budget. */
module RefusalLines {
  import opened Basics
  import opened VersionKeys
  import opened VersionText

  const LINE_CHARS: nat := 1200
  const TOTAL_CHARS: nat := 8000
  const PATHS_SHOWN: nat := 15
  const COMMAND_CHARS: nat := 1500

  const CLIENTS := "Clients affected:"
  const FIX := "Fix:"
  const ARROW := " -> "

  function Total(lines: seq<string>): nat {
    if lines == [] then 0 else Total(lines[..|lines| - 1]) + |lines[|lines| - 1]|
  }

  predicate Contains(s: string, part: string) {
    part <= s || (s != "" && Contains(s[1..], part))
  }

  predicate StartsWithError(line: string) { "error" <= LowerCase(line) }

  predicate IsPath(line: string) { Contains(line, ARROW) }

  predicate IsLabelled(line: string) { CLIENTS <= line || FIX <= line }

  /** A line made safe to print, at most `limit` characters of it; `safe` drops and masks characters. */
  function Clip(safe: string -> string, text: string, limit: nat): (r: string)
    requires limit >= 6
    ensures |r| <= limit
  {
    var s := safe(text[..if |text| < 4 * limit then |text| else 4 * limit]);
    if |s| <= limit then s else s[..limit - 6] + " [...]"
  }

  /** `kept` is how `lines` ends. */
  predicate IsEnd(kept: seq<string>, lines: seq<string>) {
    |kept| <= |lines| && kept == lines[|lines| - |kept|..]
  }

  /** The last lines that fit in `budget` characters together. */
  method Within(lines: seq<string>, budget: nat) returns (kept: seq<string>)
    ensures Total(kept) <= budget
    ensures IsEnd(kept, lines) && (|kept| < |lines| ==> Total(kept) + |lines[|lines| - |kept| - 1]| > budget)
  {
    var i: nat, left: nat := |lines|, budget;
    kept := [];
    while i > 0 && |lines[i - 1]| <= left
      invariant i <= |lines| && kept == lines[i..] && Total(kept) + left == budget
      decreases i
    {
      TotalAdd(lines[i - 1], kept);
      i, left, kept := i - 1, left - |lines[i - 1]|, [lines[i - 1]] + kept;
    }
  }

  lemma {:induction false} TotalJoined(a: seq<string>, b: seq<string>)
    ensures Total(a + b) == Total(a) + Total(b)
  {
    if b == [] {
      assert a + b == a;
    } else {
      assert (a + b)[..|a + b| - 1] == a + b[..|b| - 1];
      TotalJoined(a, b[..|b| - 1]);
    }
  }

  lemma TotalAdd(x: string, rest: seq<string>)
    ensures Total([x] + rest) == |x| + Total(rest)
  {
    TotalJoined([x], rest);
    assert Total([x]) == Total([]) + |x|;
  }

  // ---- The closing line --------------------------------------------------------------

  /** The line that says how many paths are not shown and how to see them all; `command` is the quoted recovery command. */
  function Closing(command: string, omitted: nat): string {
    if command != "" && |command| <= COMMAND_CHARS
    then "...and " + Decimal(omitted) + " more; `" + command + "` lists them all"
    else "...and " + Decimal(omitted) + " more; run update-project --dry-run in the project directory to list them all"
  }

  lemma {:induction false} DigitsGrow(m: nat, n: nat)
    requires m <= n
    ensures |Decimal(m)| <= |Decimal(n)|
  {
    if m >= 10 {
      DigitsGrow(m / 10, n / 10);
    }
  }

  lemma ClosingLength(command: string, omitted: nat)
    ensures |Closing(command, omitted)| == |Closing(command, 0)| - 1 + |Decimal(omitted)|
    ensures |Closing(command, 0)| <= 1540
  {
    assert |Decimal(0)| == 1;
  }

  // ---- The selection -----------------------------------------------------------------

  /** The first line labelled with the clients, and the last labelled with the fix. */
  function ClientsLine(lines: seq<string>): Option<string> {
    if lines == [] then None else if CLIENTS <= lines[0] then Some(lines[0]) else ClientsLine(lines[1..])
  }

  function FixLine(lines: seq<string>): Option<string> {
    if lines == [] then None
    else if FIX <= lines[|lines| - 1] then Some(lines[|lines| - 1])
    else FixLine(lines[..|lines| - 1])
  }

  function Optional(line: Option<string>): seq<string> {
    if line.Some? then [line.value] else []
  }

  function Paths(lines: seq<string>): seq<string> {
    if lines == [] then []
    else Paths(lines[..|lines| - 1]) + (if IsPath(lines[|lines| - 1]) then [lines[|lines| - 1]] else [])
  }

  function Others(lines: seq<string>): seq<string> {
    if lines == [] then []
    else Others(lines[..|lines| - 1]) +
         (if !IsPath(lines[|lines| - 1]) && !IsLabelled(lines[|lines| - 1]) then [lines[|lines| - 1]] else [])
  }

  function ClipAll(safe: string -> string, lines: seq<string>): seq<string> {
    seq(|lines|, i requires 0 <= i < |lines| => Clip(safe, lines[i], LINE_CHARS))
  }

  function Tail(safe: string -> string, rest: seq<string>): seq<string> {
    ClipAll(safe, Optional(ClientsLine(rest)) + Optional(FixLine(rest)))
  }

  function FirstFew(lines: seq<string>, n: nat): seq<string> {
    lines[..if |lines| < n then |lines| else n]
  }

  /** Clipped a second time, as the loop over the shown lines does. */
  function Candidates(safe: string -> string, rest: seq<string>): seq<string> {
    ClipAll(safe, ClipAll(safe, FirstFew(Others(rest), 3)) + FirstFew(Paths(rest), PATHS_SHOWN))
  }

  function CountPaths(lines: seq<string>): nat {
    if lines == [] then 0 else CountPaths(lines[..|lines| - 1]) + if IsPath(lines[|lines| - 1]) then 1 else 0
  }

  lemma {:induction false} TotalClipped(safe: string -> string, lines: seq<string>)
    ensures Total(ClipAll(safe, lines)) <= |lines| * LINE_CHARS
  {
    if lines != [] {
      var k := |lines| - 1;
      assert ClipAll(safe, lines)[..k] == ClipAll(safe, lines[..k]);
      TotalClipped(safe, lines[..k]);
    }
  }

  lemma TailFits(safe: string -> string, rest: seq<string>)
    ensures Total(Tail(safe, rest)) <= 2 * LINE_CHARS
  {
    TotalClipped(safe, Optional(ClientsLine(rest)) + Optional(FixLine(rest)));
  }

  /** The index of the first line that starts with an error. */
  method FindError(output: seq<string>) returns (i: nat)
    ensures i <= |output| && (i < |output| ==> StartsWithError(output[i]))
    ensures forall j :: 0 <= j < i ==> !StartsWithError(output[j])
  {
    i := 0;
    while i < |output| && !StartsWithError(output[i])
      invariant i <= |output| && forall j :: 0 <= j < i ==> !StartsWithError(output[j])
    {
      i := i + 1;
    }
  }

  /** The candidates that fit, in order, up to the first that does not. */
  method Fill(candidates: seq<string>, budget: int) returns (shown: seq<string>)
    ensures shown <= candidates && (budget >= 0 ==> Total(shown) <= budget)
    ensures |shown| < |candidates| ==> Total(shown) + |candidates[|shown|]| > budget
  {
    shown := [];
    var left := budget;
    while |shown| < |candidates| && |candidates[|shown|]| <= left
      invariant shown <= candidates && Total(shown) + left == budget
      invariant budget >= 0 ==> left >= 0
      decreases |candidates| - |shown|
    {
      ghost var before := shown;
      left := left - |candidates[|shown|]|;
      shown := shown + [candidates[|shown|]];
      assert shown[..|shown| - 1] == before;
    }
  }

  predicate HasErrorLine(output: seq<string>) {
    exists i :: 0 <= i < |output| && StartsWithError(output[i])
  }

  predicate MentionsError(line: string) { Contains(LowerCase(line), "error") }

  function Mentioning(lines: seq<string>): seq<string> {
    if lines == [] then []
    else Mentioning(lines[..|lines| - 1]) + if MentionsError(lines[|lines| - 1]) then [lines[|lines| - 1]] else []
  }

  function LastFew(lines: seq<string>, n: nat): seq<string> {
    lines[if |lines| < n then 0 else |lines| - n..]
  }

  /** The header and the labelled lines of an error block are in `lines`, clipped but never left out. */
  ghost predicate ShowsBlock(safe: string -> string, output: seq<string>, start: nat, lines: seq<string>)
    requires start < |output|
  {
    var rest := output[start + 1..];
    && lines != [] && lines[0] == Clip(safe, output[start], LINE_CHARS)
    && (ClientsLine(rest).Some? ==> Clip(safe, ClientsLine(rest).value, LINE_CHARS) in lines)
    && (FixLine(rest).Some? ==> Clip(safe, FixLine(rest).value, LINE_CHARS) in lines)
  }

  /** The header, the lines shown, how many paths are not shown if any, and the labelled lines. */
  function Layout(safe: string -> string, output: seq<string>, start: nat, command: string, shown: seq<string>): seq<string>
    requires start < |output|
  {
    var rest := output[start + 1..];
    var omitted := |Paths(rest)| - CountPaths(shown);
    [Clip(safe, output[start], LINE_CHARS)] +
    (shown + ((if omitted > 0 then [Closing(command, omitted)] else []) + Tail(safe, rest)))
  }

  /** What is left for the lines shown once the others are reserved, the closing line at its widest. */
  function Left(safe: string -> string, output: seq<string>, start: nat, command: string): int
    requires start < |output|
  {
    var rest := output[start + 1..];
    TOTAL_CHARS - (Total([Clip(safe, output[start], LINE_CHARS)]) + Total(Tail(safe, rest)) + |Closing(command, |Paths(rest)|)|)
  }

  /** Nothing is left out that the budget allows: the lines shown stop at the first candidate that does not fit. */
  ghost predicate ShowsAll(safe: string -> string, output: seq<string>, start: nat, command: string, lines: seq<string>)
    requires start < |output|
  {
    var candidates := Candidates(safe, output[start + 1..]);
    exists n :: 0 <= n <= |candidates| && lines == Layout(safe, output, start, command, candidates[..n])
                && (n < |candidates| ==> Total(candidates[..n]) + |candidates[n]| > Left(safe, output, start, command))
  }

  /** Fewer than 10^1000 lines show a path. */
  predicate FewPaths(output: seq<string>) { |Decimal(|Paths(output)|)| <= 1000 }

  /** `lines` are the last of `all` that fit in the budget, as many as do. */
  ghost predicate LastFitting(lines: seq<string>, all: seq<string>) {
    && IsEnd(lines, all) && Total(lines) <= TOTAL_CHARS
    && (|lines| < |all| ==> Total(lines) + |all[|all| - |lines| - 1]| > TOTAL_CHARS)
  }

  /** The block of the error that starts at `start`. */
  method ShowBlock(safe: string -> string, output: seq<string>, start: nat, command: string) returns (lines: seq<string>)
    requires start < |output|
    ensures FewPaths(output) ==> Total(lines) <= TOTAL_CHARS
    ensures ShowsBlock(safe, output, start, lines) && ShowsAll(safe, output, start, command, lines)
  {
    hide ClientsLine, FixLine, Paths, Others, Clip, CountPaths, Decimal, Closing;
    var rest := output[start + 1..];
    var paths, head, tail := Paths(rest), [Clip(safe, output[start], LINE_CHARS)], Tail(safe, rest);
    var reserved := Total(head) + Total(tail) + |Closing(command, |paths|)|;
    var shown := Fill(Candidates(safe, rest), TOTAL_CHARS - reserved);
    assert shown == Candidates(safe, rest)[..|shown|];
    var omitted := |paths| - CountPaths(shown);
    var closing := if omitted > 0 then [Closing(command, omitted)] else [];
    if FewPaths(output) {
      BudgetHolds(safe, output, start, command);
      Budget(safe, rest, head, shown, tail, command, omitted);
    }
    InTail(safe, rest);
    lines := head + (shown + (closing + tail));
    assert forall l :: l in tail ==> l in lines;
    assert lines == Layout(safe, output, start, command, shown);
  }

  /** Within the budget whatever the command printed, and never without the header, the clients and the fix. */
  method Show(safe: string -> string, output: seq<string>, command: string) returns (lines: seq<string>)
    ensures HasErrorLine(output) ==>
              && (FewPaths(output) ==> Total(lines) <= TOTAL_CHARS)
              && exists start :: 0 <= start < |output| && StartsWithError(output[start])
                   && (forall j :: 0 <= j < start ==> !StartsWithError(output[j])) && ShowsBlock(safe, output, start, lines)
                   && ShowsAll(safe, output, start, command, lines)
    ensures !HasErrorLine(output) ==> LastFitting(lines, ClipAll(safe, LastFew(Mentioning(output), 10)))
  {
    hide StartsWithError, ShowsBlock, ShowsAll, Total, Mentioning, ClipAll, FewPaths;
    var start := FindError(output);
    if start == |output| {
      lines := Within(ClipAll(safe, LastFew(Mentioning(output), 10)), TOTAL_CHARS);
    } else {
      lines := ShowBlock(safe, output, start, command);
    }
  }

  lemma {:induction false} LaterPaths(lines: seq<string>, i: nat)
    requires i <= |lines|
    ensures |Paths(lines[i..])| <= |Paths(lines)|
  {
    if i < |lines| {
      var k := |lines| - 1;
      assert lines[i..][..k - i] == lines[..k][i..];
      LaterPaths(lines[..k], i);
    }
  }

  /** What is reserved leaves room. */
  lemma BudgetHolds(safe: string -> string, output: seq<string>, start: nat, command: string)
    requires start < |output| && FewPaths(output)
    ensures var rest := output[start + 1..];
            Total([Clip(safe, output[start], LINE_CHARS)]) + Total(Tail(safe, rest)) + |Closing(command, |Paths(rest)|)| <= TOTAL_CHARS
  {
    hide Clip, Paths, Closing, Decimal, Tail;
    var rest := output[start + 1..];
    LaterPaths(output, start + 1);
    DigitsGrow(|Paths(rest)|, |Paths(output)|);
    ClosingLength(command, |Paths(rest)|);
    TailFits(safe, rest);
    var head := Clip(safe, output[start], LINE_CHARS);
    assert [head][..0] == [];
    assert Total([head]) == |head|;
  }

  lemma Budget(safe: string -> string, rest: seq<string>, head: seq<string>, shown: seq<string>, tail: seq<string>,
               command: string, omitted: int)
    requires omitted <= |Paths(rest)|
    requires Total(head) + Total(tail) + |Closing(command, |Paths(rest)|)| + Total(shown) <= TOTAL_CHARS
    ensures var closing := if omitted > 0 then [Closing(command, omitted)] else [];
            Total(head + (shown + (closing + tail))) <= TOTAL_CHARS
  {
    hide Clip, Paths, Closing, Decimal;
    var closing := if omitted > 0 then [Closing(command, omitted)] else [];
    if omitted > 0 {
      DigitsGrow(omitted, |Paths(rest)|);
      ClosingLength(command, omitted);
      ClosingLength(command, |Paths(rest)|);
      assert closing[..0] == [];
      assert Total(closing) == |Closing(command, omitted)|;
    }
    TotalJoined(closing, tail);
    TotalJoined(shown, closing + tail);
    TotalJoined(head, shown + (closing + tail));
  }

  lemma InTail(safe: string -> string, rest: seq<string>)
    ensures ClientsLine(rest).Some? ==> Clip(safe, ClientsLine(rest).value, LINE_CHARS) in Tail(safe, rest)
    ensures FixLine(rest).Some? ==> Clip(safe, FixLine(rest).value, LINE_CHARS) in Tail(safe, rest)
  {
    hide ClientsLine, FixLine, Clip;
    var chosen := Optional(ClientsLine(rest)) + Optional(FixLine(rest));
    forall i | 0 <= i < |chosen| ensures Tail(safe, rest)[i] == Clip(safe, chosen[i], LINE_CHARS) { }
    if FixLine(rest).Some? {
      assert chosen[|chosen| - 1] == FixLine(rest).value;
      assert Tail(safe, rest)[|chosen| - 1] in Tail(safe, rest);
    }
    if ClientsLine(rest).Some? {
      assert chosen[0] == ClientsLine(rest).value;
      assert Tail(safe, rest)[0] in Tail(safe, rest);
    }
  }
}
