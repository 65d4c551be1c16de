/** Which requirement markers the installer drops, against the markers of PEP 508, section "Environment Markers". */
module Markers {
  import opened Basics
  import opened TextLines

  predicate IsQuote(c: char) { c == '\'' || c == '"' }

  function Quotes(s: string): nat {
    if s == "" then 0 else (if IsQuote(s[0]) then 1 else 0) + Quotes(s[1..])
  }

  lemma {:induction false} QuotesJoined(a: string, b: string)
    ensures Quotes(a + b) == Quotes(a) + Quotes(b)
  {
    if a == "" {
      assert a + b == b;
    } else {
      assert (a + b)[1..] == a[1..] + b;
      QuotesJoined(a[1..], b);
    }
  }

  // ---- The marker as PEP 508 reads it ------------------------------------------------

  function Flush(word: string): seq<string> {
    if word == "" then [] else [word]
  }

  /** Words separated by white space outside quoted strings; `open` is the quote a string began with. */
  function Tokens(s: string, word: string, open: Option<char>): seq<string>
    decreases |s|
  {
    if s == "" then Flush(word)
    else if open == None && IsSpace(s[0]) then Flush(word) + Tokens(s[1..], "", None)
    else if open == None && IsQuote(s[0]) then Tokens(s[1..], word + [s[0]], Some(s[0]))
    else if open == Some(s[0]) then Tokens(s[1..], word + [s[0]], None)
    else Tokens(s[1..], word + [s[0]], open)
  }

  /** Quoted strings hold no quote characters of the other kind. */
  predicate PlainQuotes(s: string, open: Option<char>)
    decreases |s|
  {
    s == ""
    || (if open == None then PlainQuotes(s[1..], if IsQuote(s[0]) then Some(s[0]) else None)
        else if open == Some(s[0]) then PlainQuotes(s[1..], None)
        else !IsQuote(s[0]) && PlainQuotes(s[1..], open))
  }

  /** The runs of words between occurrences of `sep`. */
  function SplitAt(words: seq<string>, sep: string): (r: seq<seq<string>>)
    ensures |r| >= 1
  {
    if words == [] then [[]]
    else
      var front, last := SplitAt(words[..|words| - 1], sep), words[|words| - 1];
      if last == sep then front + [[]] else front[..|front| - 1] + [front[|front| - 1] + [last]]
  }

  function Flat(atom: seq<string>): string {
    if atom == [] then "" else atom[0] + Flat(atom[1..])
  }

  /** `extra == "name"`, with `before` the text up to the name and any matching quotes. */
  predicate Names(s: string, before: string) {
    && |s| >= |before| + 3 && s[..|before|] == before && IsQuote(s[|before|]) && IsQuote(s[|s| - 1])
    && forall i :: |before| < i < |s| - 1 ==> !IsQuote(s[i])
  }

  /** The text up to the name, with or without a space on either side of the operator. */
  function UpToName(left: bool, right: bool): string {
    "extra" + ((if left then " " else "") + ("==" + (if right then " " else "")))
  }

  /** A comparison of `extra` with a name; white space between its words does not matter. */
  predicate ComparesExtra(atom: seq<string>) { Names(Flat(atom), UpToName(false, false)) }

  /** Whether each comparison holds in some environment. */
  type Environment = seq<string> -> bool

  ghost predicate NoExtras(env: Environment) {
    forall atom: seq<string> :: ComparesExtra(atom) ==> !env(atom)
  }

  /** `or` of `and`s of comparisons. */
  predicate Evaluates(words: seq<string>, env: Environment) {
    exists i :: 0 <= i < |SplitAt(words, "or")| && AllHold(SplitAt(SplitAt(words, "or")[i], "and"), env)
  }

  predicate AllHold(atoms: seq<seq<string>>, env: Environment) {
    forall j :: 0 <= j < |atoms| ==> env(atoms[j])
  }

  // ---- The installer's reader --------------------------------------------------------

  /** `str.split()`. */
  function Words(s: string, word: string): seq<string>
    decreases |s|
  {
    if s == "" then Flush(word)
    else if IsSpace(s[0]) then Flush(word) + Words(s[1..], "")
    else Words(s[1..], word + [s[0]])
  }

  function Spaced(atom: seq<string>): string {
    if atom == [] then "" else if |atom| == 1 then atom[0] else atom[0] + " " + Spaced(atom[1..])
  }

  predicate IsExtraTest(s: string) {
    exists left, right :: Names(s, UpToName(left, right))
  }

  predicate WholeQuotes(words: seq<string>) {
    forall i :: 0 <= i < |words| ==> Quotes(words[i]) == 0 || Quotes(words[i]) == 2
  }

  predicate AllNamed(atoms: seq<seq<string>>) {
    forall i :: 0 <= i < |atoms| ==> atoms[i] != []
  }

  predicate TestsExtra(atoms: seq<seq<string>>) {
    exists i :: 0 <= i < |atoms| && IsExtraTest(Spaced(atoms[i]))
  }

  /** Every alternative is well-formed and holds a plain test of an extra. */
  predicate NeedsExtra(words: seq<string>) {
    forall i :: 0 <= i < |SplitAt(words, "or")| ==>
      AllNamed(SplitAt(SplitAt(words, "or")[i], "and")) && TestsExtra(SplitAt(SplitAt(words, "or")[i], "and"))
  }

  predicate Dropped(marker: string) {
    var words := Words(marker, "");
    words != [] && '(' !in marker && ')' !in marker && WholeQuotes(words) && NeedsExtra(words)
  }

  method SplitWords(words: seq<string>, sep: string) returns (r: seq<seq<string>>)
    ensures r == SplitAt(words, sep)
  {
    r := [[]];
    for i := 0 to |words|
      invariant r == SplitAt(words[..i], sep) && |r| >= 1
    {
      assert words[..i + 1][..i] == words[..i];
      if words[i] == sep {
        r := r + [[]];
      } else {
        r := r[..|r| - 1] + [r[|r| - 1] + [words[i]]];
      }
    }
    assert words[..|words|] == words;
  }

  /** Whether a requirement stays in play when no extras are selected. */
  method MarkerIsActive(marker: string) returns (active: bool)
    ensures active <==> !Dropped(marker)
  {
    hide IsExtraTest, Spaced, Quotes, Words, SplitAt;
    var words := Words(marker, "");
    if words == [] || '(' in marker || ')' in marker {
      return true;
    }
    if exists i :: 0 <= i < |words| && Quotes(words[i]) != 0 && Quotes(words[i]) != 2 {
      return true;
    }
    var alternatives := SplitWords(words, "or");
    for i := 0 to |alternatives|
      invariant forall j :: 0 <= j < i ==>
                  AllNamed(SplitAt(alternatives[j], "and")) && TestsExtra(SplitAt(alternatives[j], "and"))
    {
      var atoms := SplitWords(alternatives[i], "and");
      if exists j :: 0 <= j < |atoms| && atoms[j] == [] {
        assert !AllNamed(SplitAt(alternatives[i], "and"));
        return true;
      }
      if !exists j :: 0 <= j < |atoms| && IsExtraTest(Spaced(atoms[j])) {
        assert !TestsExtra(SplitAt(alternatives[i], "and"));
        return true;
      }
    }
    return false;
  }

  // ---- Both read the same words ------------------------------------------------------

  /** A word so far and the quote state agree. */
  predicate InStep(word: string, open: Option<char>) {
    (open == None) <==> Quotes(word) % 2 == 0
  }

  lemma {:induction false} SameWords(s: string, word: string, open: Option<char>)
    requires PlainQuotes(s, open) && InStep(word, open) && (open.Some? ==> IsQuote(open.value))
    requires WholeQuotes(Words(s, word))
    ensures Tokens(s, word, open) == Words(s, word)
    decreases |s|
  {
    if s != "" {
      QuotesJoined(word, [s[0]]);
      assert Quotes([s[0]]) == if IsQuote(s[0]) then 1 else 0;
      if IsSpace(s[0]) {
        var rest := Words(s[1..], "");
        assert Words(s, word) == Flush(word) + rest;
        if word != "" {
          assert Words(s, word)[0] == word;
        }
        assert open == None;
        forall i | 0 <= i < |rest| ensures Quotes(rest[i]) == 0 || Quotes(rest[i]) == 2 {
          assert rest[i] == Words(s, word)[|Flush(word)| + i];
        }
        SameWords(s[1..], "", None);
      } else {
        var next := if open == None && IsQuote(s[0]) then Some(s[0]) else if open == Some(s[0]) then None else open;
        SameWords(s[1..], word + [s[0]], next);
      }
    }
  }

  // ---- A plain test is a comparison of `extra` ---------------------------------------

  function WithoutSpaces(s: string): string {
    if s == "" then "" else (if s[0] == ' ' then "" else [s[0]]) + WithoutSpaces(s[1..])
  }

  lemma {:induction false} WithoutSpacesJoined(a: string, b: string)
    ensures WithoutSpaces(a + b) == WithoutSpaces(a) + WithoutSpaces(b)
  {
    if a == "" {
      assert a + b == b;
    } else {
      assert (a + b)[1..] == a[1..] + b;
      WithoutSpacesJoined(a[1..], b);
    }
  }

  lemma {:induction false} NoSpacesLeft(s: string)
    requires ' ' !in s
    ensures WithoutSpaces(s) == s
  {
    if s != "" {
      NoSpacesLeft(s[1..]);
      assert s == [s[0]] + s[1..];
    }
  }

  predicate Spaceless(words: seq<string>) {
    forall i :: 0 <= i < |words| ==> ' ' !in words[i]
  }

  lemma SpacelessTail(atom: seq<string>)
    requires Spaceless(atom) && atom != []
    ensures Spaceless(atom[1..]) && WithoutSpaces(atom[0]) == atom[0]
  {
    NoSpacesLeft(atom[0]);
  }

  lemma SpacedStep(first: string, rest: string)
    requires WithoutSpaces(first) == first
    ensures WithoutSpaces(first + " " + rest) == first + WithoutSpaces(rest)
  {
    Literals();
    hide WithoutSpaces;
    WithoutSpacesJoined(first + " ", rest);
    WithoutSpacesJoined(first, " ");
  }

  lemma {:induction false} FlatIsSpaced(atom: seq<string>)
    requires Spaceless(atom)
    ensures WithoutSpaces(Spaced(atom)) == Flat(atom)
  {
    hide Spaceless, WithoutSpaces;
    Literals();
    if atom != [] {
      SpacelessTail(atom);
      if |atom| == 1 {
        assert Flat(atom[1..]) == "";
      } else {
        FlatIsSpaced(atom[1..]);
        SpacedStep(atom[0], Spaced(atom[1..]));
      }
    }
  }

  /** A space in the joined words comes after an even number of quotes. */
  lemma {:induction false} SpacesOutside(atom: seq<string>, i: nat)
    requires Spaceless(atom) && WholeQuotes(atom) && i < |Spaced(atom)|
    ensures Spaced(atom)[i] == ' ' ==> Quotes(Spaced(atom)[..i]) % 2 == 0
  {
    if |atom| == 1 {
      assert atom[0][i] in atom[0];
    } else {
      var first, rest := atom[0] + " ", Spaced(atom[1..]);
      assert Spaced(atom) == first + rest;
      QuotesJoined(atom[0], " ");
      if i < |atom[0]| {
        assert atom[0][i] in atom[0];
      } else if i == |atom[0]| {
        assert Spaced(atom)[..i] == atom[0];
      } else {
        assert forall k :: 0 <= k < |atom[1..]| ==> atom[1..][k] == atom[k + 1];
        SpacesOutside(atom[1..], i - |first|);
        assert Spaced(atom)[..i] == first + rest[..i - |first|];
        QuotesJoined(first, rest[..i - |first|]);
      }
    }
  }

  lemma {:induction false} NoQuotes(s: string)
    requires forall i :: 0 <= i < |s| ==> !IsQuote(s[i])
    ensures Quotes(s) == 0
  {
    if s != "" {
      NoQuotes(s[1..]);
    }
  }

  predicate Quoteless(s: string) { forall i :: 0 <= i < |s| ==> !IsQuote(s[i]) }

  lemma InsideName(s: string, before: string, k: nat)
    requires Names(s, before) && Quoteless(before) && |before| < k < |s| - 1
    ensures Quotes(s[..k]) == 1
  {
    var mid := s[|before| + 1..k];
    assert s[..k] == before + ([s[|before|]] + mid);
    NoQuotes(before);
    NoQuotes(mid);
    assert ([s[|before|]] + mid)[1..] == mid;
    QuotesJoined(before, [s[|before|]] + mid);
  }

  lemma NameSpaceless(atom: seq<string>, before: string)
    requires Spaceless(atom) && WholeQuotes(atom) && Names(Spaced(atom), before) && Quoteless(before)
    ensures ' ' !in Spaced(atom)[|before|..]
  {
    hide Quotes, Spaced, Spaceless, WholeQuotes;
    var s := Spaced(atom);
    forall k | |before| <= k < |s| ensures s[k] != ' ' {
      if |before| < k < |s| - 1 {
        InsideName(s, before, k);
        SpacesOutside(atom, k);
      }
    }
  }

  lemma TestComparesExtra(atom: seq<string>, before: string, plain: string)
    requires Spaceless(atom) && WholeQuotes(atom) && Names(Spaced(atom), before) && Quoteless(before)
    requires WithoutSpaces(before) == plain
    ensures Names(Flat(atom), plain)
  {
    hide Spaced, Spaceless, WholeQuotes, WithoutSpaces, Flat;
    var s := Spaced(atom);
    var quoted := s[|before|..];
    NameSpaceless(atom, before);
    NoSpacesLeft(quoted);
    assert s == before + quoted;
    WithoutSpacesJoined(before, quoted);
    FlatIsSpaced(atom);
    assert Flat(atom) == plain + quoted;
  }

  lemma QuotelessJoined(a: string, b: string)
    requires Quoteless(a) && Quoteless(b)
    ensures Quoteless(a + b)
  {
  }

  lemma Extra()
    ensures WithoutSpaces("extra") == "extra" && Quoteless("extra")
  {
    assert forall i :: 0 <= i < 5 ==> "extra"[i] != ' ' && !IsQuote("extra"[i]);
    hide WithoutSpaces;
    NoSpacesLeft("extra");
  }

  lemma Literals()
    ensures WithoutSpaces("==") == "==" && Quoteless("==")
    ensures WithoutSpaces(" ") == "" && Quoteless(" ") && WithoutSpaces("") == "" && Quoteless("")
  {
    NoSpacesLeft("==");
    assert " "[1..] == "";
  }

  lemma PlainUpToName(left: bool, right: bool)
    ensures WithoutSpaces(UpToName(left, right)) == UpToName(false, false) && Quoteless(UpToName(left, right))
  {
    Extra();
    Literals();
    hide WithoutSpaces, Quoteless;
    var l, r := if left then " " else "", if right then " " else "";
    WithoutSpacesJoined("==", r);
    WithoutSpacesJoined(l, "==" + r);
    WithoutSpacesJoined("extra", l + ("==" + r));
    QuotelessJoined("==", r);
    QuotelessJoined(l, "==" + r);
    QuotelessJoined("extra", l + ("==" + r));
    assert "==" + "" == "==" && "" + "==" == "==";
  }

  lemma TestIsComparison(atom: seq<string>)
    requires Spaceless(atom) && WholeQuotes(atom) && IsExtraTest(Spaced(atom))
    ensures ComparesExtra(atom)
  {
    hide Names, WithoutSpaces, Spaced, WholeQuotes, UpToName;
    var left, right :| Names(Spaced(atom), UpToName(left, right));
    PlainUpToName(left, right);
    TestComparesExtra(atom, UpToName(left, right), UpToName(false, false));
  }

  // ---- Parts of the words keep their properties --------------------------------------

  lemma {:induction false} WordsSpaceless(s: string, word: string)
    requires ' ' !in word
    ensures Spaceless(Words(s, word))
    decreases |s|
  {
    if s != "" {
      if IsSpace(s[0]) {
        WordsSpaceless(s[1..], "");
      } else {
        WordsSpaceless(s[1..], word + [s[0]]);
      }
    }
  }

  /** Each run consists of words of the whole. */
  lemma {:induction false} RunsAreParts(words: seq<string>, sep: string)
    ensures forall i, j :: 0 <= i < |SplitAt(words, sep)| && 0 <= j < |SplitAt(words, sep)[i]| ==>
              SplitAt(words, sep)[i][j] in words
  {
    if words != [] {
      RunsAreParts(words[..|words| - 1], sep);
      assert words[|words| - 1] in words;
    }
  }

  lemma PartsKeep(words: seq<string>, part: seq<string>)
    requires Spaceless(words) && WholeQuotes(words) && forall j :: 0 <= j < |part| ==> part[j] in words
    ensures Spaceless(part) && WholeQuotes(part)
  {
  }

  lemma AlternativeFails(words: seq<string>, env: Environment)
    requires Spaceless(words) && WholeQuotes(words) && NoExtras(env) && TestsExtra(SplitAt(words, "and"))
    ensures !AllHold(SplitAt(words, "and"), env)
  {
    hide IsExtraTest, ComparesExtra, Spaced;
    var atoms := SplitAt(words, "and");
    var i :| 0 <= i < |atoms| && IsExtraTest(Spaced(atoms[i]));
    RunsAreParts(words, "and");
    PartsKeep(words, atoms[i]);
    TestIsComparison(atoms[i]);
  }

  /** Reading fails closed: a marker is dropped only if it is false in every environment without extras. */
  lemma DroppedIsFalse(marker: string, env: Environment)
    requires PlainQuotes(marker, None) && Dropped(marker) && NoExtras(env)
    ensures !Evaluates(Tokens(marker, "", None), env)
  {
    hide TestsExtra, AllNamed, AllHold, NoExtras, SplitAt, PlainQuotes, Words, Tokens;
    var words := Words(marker, "");
    assert InStep("", None);
    SameWords(marker, "", None);
    WordsSpaceless(marker, "");
    RunsAreParts(words, "or");
    forall i | 0 <= i < |SplitAt(words, "or")| ensures !AllHold(SplitAt(SplitAt(words, "or")[i], "and"), env) {
      PartsKeep(words, SplitAt(words, "or")[i]);
      AlternativeFails(SplitAt(words, "or")[i], env);
    }
  }
}
