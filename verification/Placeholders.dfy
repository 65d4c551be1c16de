/** Filling a template by successive replacements of its placeholders. */
module Placeholders {
  import opened Basics
  import opened TextLines

  /** `s.replace(old, new)`. */
  function ReplaceAll(s: string, pattern: string, value: string): string
    requires pattern != ""
    decreases |s|
  {
    if s == "" then ""
    else if pattern <= s then value + ReplaceAll(s[|pattern|..], pattern, value)
    else [s[0]] + ReplaceAll(s[1..], pattern, value)
  }

  /** One replacement: the pattern is `{{name}}`, after `# ` for a whole commented line. */
  datatype Filling = Filling(commented: bool, name: string, value: string)

  function Pattern(f: Filling): (p: string)
    ensures p != ""
  {
    (if f.commented then "# " else "") + ("{{" + (f.name + "}}"))
  }

  function Fill(s: string, fillings: seq<Filling>): string {
    if fillings == [] then s
    else
      var k := |fillings| - 1;
      ReplaceAll(Fill(s, fillings[..k]), Pattern(fillings[k]), fillings[k].value)
  }

  // ---- Where a pattern occurs --------------------------------------------------------

  predicate OccursAt(s: string, p: string, i: nat)
    requires i <= |s|
  {
    p <= s[i..]
  }

  predicate Occurs(s: string, p: string) {
    exists i :: 0 <= i <= |s| && OccursAt(s, p, i)
  }

  lemma {:induction false} Unmatched(s: string, p: string, value: string)
    requires p != "" && !Occurs(s, p)
    ensures ReplaceAll(s, p, value) == s
    decreases |s|
  {
    if s != "" {
      assert s[0..] == s;
      assert !OccursAt(s, p, 0);
      forall i | 0 <= i <= |s[1..]| ensures !OccursAt(s[1..], p, i) {
        assert s[1..][i..] == s[i + 1..];
        assert !OccursAt(s, p, i + 1);
      }
      Unmatched(s[1..], p, value);
      assert s == [s[0]] + s[1..];
    }
  }

  /** Text before the first occurrence is kept. */
  lemma {:induction false} Skipped(pre: string, rest: string, p: string, value: string)
    requires p != "" && forall i :: 0 <= i < |pre| ==> !OccursAt(pre + rest, p, i)
    ensures ReplaceAll(pre + rest, p, value) == pre + ReplaceAll(rest, p, value)
    decreases |pre|
  {
    if pre == "" {
      assert pre + rest == rest;
    } else {
      var s := pre + rest;
      assert s[0..] == s && !OccursAt(s, p, 0);
      assert s[1..] == pre[1..] + rest;
      forall i | 0 <= i < |pre[1..]| ensures !OccursAt(pre[1..] + rest, p, i) {
        assert (pre[1..] + rest)[i..] == s[i + 1..];
        assert !OccursAt(s, p, i + 1);
      }
      Skipped(pre[1..], rest, p, value);
      assert [s[0]] + pre[1..] == pre;
    }
  }

  lemma OnThisLine(a: string, b: string, p: string)
    requires OneLine(p)
    ensures p <= a + "\n" + b <==> p <= a
  {
    var s := a + "\n" + b;
    if p <= s {
      forall j | 0 <= j < |p| ensures j != |a| && p[j] == s[j] { assert p[j] in p && s[|a|] == '\n'; }
      assert forall j :: 0 <= j < |p| ==> p[j] == s[j] == a[j];
    }
  }

  lemma LineStep(a: string, b: string, n: nat)
    requires n <= |a|
    ensures (a + "\n" + b)[n..] == a[n..] + "\n" + b
  {
  }

  lemma NewlineKept(b: string, p: string, value: string)
    requires p != "" && OneLine(p)
    ensures ReplaceAll("\n" + b, p, value) == "\n" + ReplaceAll(b, p, value)
  {
    assert p[0] in p;
    assert ("\n" + b)[1..] == b;
  }

  /** A pattern on one line does not reach over the end of a line. */
  lemma {:induction false} LineByLine(a: string, b: string, p: string, value: string)
    requires p != "" && OneLine(p)
    ensures ReplaceAll(a + "\n" + b, p, value) == ReplaceAll(a, p, value) + "\n" + ReplaceAll(b, p, value)
    decreases |a|
  {
    hide OneLine;
    if a == "" {
      assert a + "\n" + b == "\n" + b && ReplaceAll(a, p, value) == "";
      NewlineKept(b, p, value);
    } else {
      OnThisLine(a, b, p);
      if p <= a {
        LineStep(a, b, |p|);
        LineByLine(a[|p|..], b, p, value);
      } else {
        LineStep(a, b, 1);
        LineByLine(a[1..], b, p, value);
      }
    }
  }

  predicate Braceless(s: string) { forall i :: 0 <= i < |s| ==> s[i] != '{' && s[i] != '}' }

  /** `pre{{name}}post`. */
  function Hole(pre: string, name: string, post: string): string {
    pre + ("{{" + (name + ("}}" + post)))
  }

  lemma CharAt(pre: string, name: string, post: string, k: nat)
    requires k < |Hole(pre, name, post)|
    ensures var m := |pre| + 2;
            Hole(pre, name, post)[k] == if k < |pre| then pre[k] else if k < m then '{'
                                        else if k < m + |name| then name[k - m]
                                        else if k < m + |name| + 2 then '}' else post[k - m - |name| - 2]
  {
  }

  /** The character of a pattern at `j`. */
  lemma PatternAt(f: Filling, j: nat)
    requires j < |Pattern(f)|
    ensures var q := if f.commented then 2 else 0;
            && |Pattern(f)| == q + |f.name| + 4
            && (j >= q ==> Pattern(f)[j] == if j < q + 2 then '{' else if j < q + 2 + |f.name| then f.name[j - q - 2] else '}')
  {
  }

  lemma OccursMeans(line: string, p: string, i: nat, j: nat)
    requires i <= |line| && OccursAt(line, p, i) && j < |p|
    ensures i + j < |line| && line[i + j] == p[j]
  {
    assert line[i..][j] == line[i + j];
  }

  /** The only two braces in a row that open are the placeholder's. */
  lemma PlaceThere(pre: string, name: string, post: string, f: Filling, i: nat)
    requires Braceless(pre) && Braceless(name) && Braceless(post)
    requires i <= |Hole(pre, name, post)| && OccursAt(Hole(pre, name, post), Pattern(f), i)
    ensures i + (if f.commented then 2 else 0) == |pre|
  {
    var line, q := Hole(pre, name, post), if f.commented then 2 else 0;
    PatternAt(f, q);
    PatternAt(f, q + 1);
    OccursMeans(line, Pattern(f), i, q);
    OccursMeans(line, Pattern(f), i, q + 1);
    hide Hole, Pattern, OccursAt;
    CharAt(pre, name, post, i + q);
    CharAt(pre, name, post, i + q + 1);
  }

  lemma NameThere(pre: string, name: string, post: string, f: Filling, i: nat)
    requires Braceless(name) && Braceless(f.name) && i + (if f.commented then 2 else 0) == |pre|
    requires i <= |Hole(pre, name, post)| && OccursAt(Hole(pre, name, post), Pattern(f), i)
    ensures f.name == name
  {
    var line, q, m := Hole(pre, name, post), if f.commented then 2 else 0, |pre| + 2;
    PatternAt(f, q);
    forall j | 0 <= j <= |f.name|
      ensures m + j < |line| && line[m + j] == if j < |f.name| then f.name[j] else '}'
    {
      PatternAt(f, q + 2 + j);
      OccursMeans(line, Pattern(f), i, q + 2 + j);
    }
    CharAt(pre, name, post, m + |name|);
    hide Hole, Pattern, OccursAt;
    assert line[m + |name|] == '}';
    assert |f.name| <= |name|;
    CharAt(pre, name, post, m + |f.name|);
    assert |f.name| == |name|;
    forall j | 0 <= j < |name| ensures name[j] == f.name[j] {
      CharAt(pre, name, post, m + j);
    }
  }

  /** A pattern that occurs in `pre{{name}}post`, with no other braces, is that placeholder's. */
  lemma OnlyThere(pre: string, name: string, post: string, f: Filling, i: nat)
    requires Braceless(pre) && Braceless(name) && Braceless(post) && Braceless(f.name)
    requires i <= |Hole(pre, name, post)| && OccursAt(Hole(pre, name, post), Pattern(f), i)
    ensures i + (if f.commented then 2 else 0) == |pre| && f.name == name
  {
    hide Hole, Pattern, OccursAt, Braceless;
    PlaceThere(pre, name, post, f, i);
    NameThere(pre, name, post, f, i);
  }

  // ---- Filling one line --------------------------------------------------------------

  predicate Distinct(fillings: seq<Filling>) {
    && (forall i :: 0 <= i < |fillings| ==> Braceless(fillings[i].name) && OneLine(fillings[i].name) && Braceless(fillings[i].value))
    && (forall i, j :: 0 <= i < j < |fillings| ==> fillings[i].name != fillings[j].name)
  }

  predicate Plain(s: string, fillings: seq<Filling>) {
    forall i :: 0 <= i < |fillings| ==> !Occurs(s, Pattern(fillings[i]))
  }

  /** A text that mentions no placeholder stays as it is. */
  lemma {:induction false} PlainStays(s: string, fillings: seq<Filling>)
    requires Plain(s, fillings)
    ensures Fill(s, fillings) == s
  {
    hide Occurs, Pattern, ReplaceAll;
    if fillings != [] {
      var k := |fillings| - 1;
      PlainStays(s, fillings[..k]);
      Unmatched(s, Pattern(fillings[k]), fillings[k].value);
    }
  }

  lemma BracelessPlain(s: string, f: Filling)
    requires Braceless(s)
    ensures !Occurs(s, Pattern(f))
  {
    var q := if f.commented then 2 else 0;
    PatternAt(f, q);
    forall i | 0 <= i <= |s| ensures !OccursAt(s, Pattern(f), i) {
      assert forall t :: 0 <= t < |s[i..]| ==> s[i..][t] != '{';
    }
  }

  /** A replacement for another name passes over a placeholder. */
  lemma PassesOver(pre: string, name: string, post: string, f: Filling)
    requires Braceless(pre) && Braceless(name) && Braceless(post) && Braceless(f.name) && f.name != name
    ensures ReplaceAll(Hole(pre, name, post), Pattern(f), f.value) == Hole(pre, name, post)
  {
    hide Pattern, Hole, Braceless, ReplaceAll;
    forall i | 0 <= i <= |Hole(pre, name, post)| ensures !OccursAt(Hole(pre, name, post), Pattern(f), i) {
      if OccursAt(Hole(pre, name, post), Pattern(f), i) {
        OnlyThere(pre, name, post, f, i);
      }
    }
    Unmatched(Hole(pre, name, post), Pattern(f), f.value);
  }

  /** A replacement for its name fills it, commented placeholders only on a line of their own. */
  lemma FillsIn(pre: string, name: string, post: string, f: Filling)
    requires Braceless(pre) && Braceless(name) && Braceless(post) && f.name == name
    requires f.commented ==> pre == "# "
    ensures ReplaceAll(Hole(pre, name, post), Pattern(f), f.value) == (if f.commented then "" else pre) + f.value + post
  {
    var kept := if f.commented then "" else pre;
    var line, p := Hole(pre, name, post), Pattern(f);
    var rest := p + post;
    assert line == kept + rest;
    forall i | 0 <= i < |kept| ensures !OccursAt(kept + rest, p, i) {
      if OccursAt(line, p, i) {
        OnlyThere(pre, name, post, f, i);
      }
    }
    hide Hole, Pattern;
    Skipped(kept, rest, p, f.value);
    assert p <= rest && rest[|p|..] == post;
    assert rest != "";
    BracelessPlain(post, f);
    Unmatched(post, p, f.value);
    assert ReplaceAll(rest, p, f.value) == f.value + post;
    assert kept + (f.value + post) == kept + f.value + post;
  }

  /** What filling makes of a line with one placeholder. */
  function Filled(pre: string, post: string, f: Filling): string {
    (if f.commented then "" else pre) + f.value + post
  }

  lemma {:induction false} FillHole(pre: string, post: string, fillings: seq<Filling>, j: nat)
    requires Distinct(fillings) && j < |fillings| && Braceless(pre) && Braceless(post)
    requires fillings[j].commented ==> pre == "# "
    ensures Fill(Hole(pre, fillings[j].name, post), fillings) == Filled(pre, post, fillings[j])
    decreases |fillings|
  {
    hide Pattern, Hole, Braceless, ReplaceAll, Occurs, OneLine;
    var k, f := |fillings| - 1, fillings[j];
    if j < k {
      FillHole(pre, post, fillings[..k], j);
      FilledBraceless(pre, post, f);
      BracelessPlain(Filled(pre, post, f), fillings[k]);
      Unmatched(Filled(pre, post, f), Pattern(fillings[k]), fillings[k].value);
    } else {
      StillHole(pre, post, fillings, k, f.name);
      FillsIn(pre, f.name, post, f);
    }
  }

  lemma FilledBraceless(pre: string, post: string, f: Filling)
    requires Braceless(pre) && Braceless(post) && Braceless(f.value)
    ensures Braceless(Filled(pre, post, f))
  {
  }

  lemma {:induction false} StillHole(pre: string, post: string, fillings: seq<Filling>, n: nat, name: string)
    requires Distinct(fillings) && n <= |fillings| && Braceless(pre) && Braceless(post) && Braceless(name)
    requires forall i :: 0 <= i < n ==> fillings[i].name != name
    ensures Fill(Hole(pre, name, post), fillings[..n]) == Hole(pre, name, post)
    decreases n
  {
    hide Pattern, Hole, Braceless, ReplaceAll, OneLine;
    if n > 0 {
      StillHole(pre, post, fillings, n - 1, name);
      assert fillings[..n][..n - 1] == fillings[..n - 1] && fillings[..n][n - 1] == fillings[n - 1];
      PassesOver(pre, name, post, fillings[n - 1]);
    }
  }

  // ---- Filling line by line ----------------------------------------------------------

  lemma {:induction false} FillLineByLine(a: string, b: string, fillings: seq<Filling>)
    requires forall i :: 0 <= i < |fillings| ==> OneLine(fillings[i].name)
    ensures Fill(a + "\n" + b, fillings) == Fill(a, fillings) + "\n" + Fill(b, fillings)
  {
    hide ReplaceAll, OneLine, Pattern;
    if fillings != [] {
      var k := |fillings| - 1;
      FillLineByLine(a, b, fillings[..k]);
      PatternOneLine(fillings[k]);
      LineByLine(Fill(a, fillings[..k]), Fill(b, fillings[..k]), Pattern(fillings[k]), fillings[k].value);
    }
  }

  lemma PatternOneLine(f: Filling)
    requires OneLine(f.name)
    ensures OneLine(Pattern(f))
  {
  }

  function FillEach(lines: seq<string>, fillings: seq<Filling>): (r: seq<string>)
    ensures |r| == |lines|
  {
    seq(|lines|, i requires 0 <= i < |lines| => Fill(lines[i], fillings))
  }

  /** Filling a text is filling its lines. */
  lemma {:induction false} FillLines(lines: seq<string>, fillings: seq<Filling>)
    requires |lines| >= 1 && forall i :: 0 <= i < |fillings| ==> OneLine(fillings[i].name)
    ensures Fill(Join(lines), fillings) == Join(FillEach(lines, fillings))
  {
    hide Fill, OneLine;
    if |lines| > 1 {
      FillLines(lines[1..], fillings);
      FillLineByLine(lines[0], Join(lines[1..]), fillings);
      assert FillEach(lines, fillings)[1..] == FillEach(lines[1..], fillings);
    }
  }
}
