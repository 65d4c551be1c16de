/** Versions and clauses as text: what the installer reads, and what it refuses to judge. */
module VersionText {
  import opened Basics
  import opened TextLines
  import opened VersionKeys
  import opened Pep440

  function Lower(c: char): char {
    if 'A' <= c <= 'Z' then c - 'A' + 'a' else c
  }

  function LowerCase(s: string): string {
    seq(|s|, i requires 0 <= i < |s| => Lower(s[i]))
  }

  // ---- Reading -----------------------------------------------------------------------

  /** A release segment: its components, whether it is plain (at most 16 components of at most nine digits), the rest. */
  datatype Release = Release(parts: seq<nat>, short: bool, rest: string)

  function ReadRelease(s: string): Option<Release>
    decreases |s|
  {
    var n := DigitRun(s);
    if n == 0 then None
    else if n + 1 < |s| && s[n] == '.' && IsDigit(s[n + 1]) then
      match ReadRelease(s[n + 1..])
      case None => None
      case Some(more) => Some(Release([Number(s[..n])] + more.parts, n <= 9 && more.short, more.rest))
    else Some(Release([Number(s[..n])], n <= 9, s[n..]))
  }

  predicate IsSeparator(c: char) { c == '.' || c == '_' || c == '-' }

  function AfterSeparator(s: string): string {
    if s != "" && IsSeparator(s[0]) then s[1..] else s
  }

  /** `word`, perhaps after a separator, and a number that is zero when it is left out. */
  function ReadTag(s: string, word: string): Option<(nat, string)> {
    var t := AfterSeparator(s);
    if !(word <= t) then None
    else
      var u := t[|word|..];
      Some((Number(u[..DigitRun(u)]), u[DigitRun(u)..]))
  }

  function ReadPre(s: string): (Option<(Stage, nat)>, string) {
    if ReadTag(s, "alpha").Some? then (Some((Alpha, ReadTag(s, "alpha").value.0)), ReadTag(s, "alpha").value.1)
    else if ReadTag(s, "a").Some? then (Some((Alpha, ReadTag(s, "a").value.0)), ReadTag(s, "a").value.1)
    else if ReadTag(s, "beta").Some? then (Some((Beta, ReadTag(s, "beta").value.0)), ReadTag(s, "beta").value.1)
    else if ReadTag(s, "b").Some? then (Some((Beta, ReadTag(s, "b").value.0)), ReadTag(s, "b").value.1)
    else if ReadTag(s, "rc").Some? then (Some((Candidate, ReadTag(s, "rc").value.0)), ReadTag(s, "rc").value.1)
    else if ReadTag(s, "c").Some? then (Some((Candidate, ReadTag(s, "c").value.0)), ReadTag(s, "c").value.1)
    else (None, s)
  }

  function ReadCount(s: string, word: string): (Option<nat>, string) {
    if ReadTag(s, word).Some? then (Some(ReadTag(s, word).value.0), ReadTag(s, word).value.1) else (None, s)
  }

  function ReadSuffixes(release: Release): Option<Version> {
    var (pre, afterPre) := ReadPre(release.rest);
    var (post, afterPost) := ReadCount(afterPre, "post");
    var (dev, afterDev) := ReadCount(afterPost, "dev");
    if afterDev == "" then Some(Version(release.parts, pre, post, dev)) else None
  }

  function WithoutV(s: string): string {
    if s != "" && s[0] == 'v' then s[1..] else s
  }

  function ReadVersion(text: string): Option<Version> {
    match ReadRelease(WithoutV(LowerCase(Strip(text))))
    case None => None
    case Some(release) => ReadSuffixes(release)
  }

  /** The version, if it is short and plain enough to be judged. */
  function Judged(text: string): Option<Version> {
    if |text| > 100 then None
    else match ReadRelease(WithoutV(LowerCase(Strip(text))))
      case None => None
      case Some(release) => if release.short && |release.parts| <= 16 then ReadSuffixes(release) else None
  }

  // ---- Clauses -----------------------------------------------------------------------

  predicate EndsWith(s: string, end: string) {
    |end| <= |s| && s[|s| - |end|..] == end
  }

  function BeforePlus(s: string): string {
    if s == "" || s[0] == '+' then "" else [s[0]] + BeforePlus(s[1..])
  }

  predicate LabelChar(c: char) { 'a' <= c <= 'z' || '0' <= c <= '9' }

  /** A local label: runs of letters and digits with single separators between. */
  predicate IsLabel(s: string) {
    && s != "" && LabelChar(s[0]) && LabelChar(s[|s| - 1])
    && (forall i :: 0 <= i < |s| ==> LabelChar(s[i]) || IsSeparator(s[i]))
    && (forall i :: 0 <= i < |s| - 1 ==> LabelChar(s[i]) || LabelChar(s[i + 1]))
  }

  predicate LabelOk(version: string) {
    BeforePlusIs(version);
    '+' in version ==> IsLabel(LowerCase(version[|BeforePlus(version)| + 1..]))
  }

  lemma {:induction false} BeforePlusIs(s: string)
    ensures |BeforePlus(s)| <= |s| && BeforePlus(s) == s[..|BeforePlus(s)|]
    ensures '+' in s ==> |BeforePlus(s)| < |s|
    ensures '+' !in s ==> BeforePlus(s) == s
  {
    if s != "" && s[0] != '+' {
      BeforePlusIs(s[1..]);
    }
  }

  /** Whether a version satisfies a clause, or `None` when that cannot be judged; bounds with wildcards apart. */
  function Holds(op: Op, bound: string, version: string): Option<bool>
    requires !EndsWith(bound, ".*")
  {
    BeforePlusIs(version);
    if !LabelOk(version) || '+' in bound then None
    else if Judged(BeforePlus(version)) == None || Judged(bound) == None then None
    else Some(ClauseHolds(op, Judged(bound).value, Judged(BeforePlus(version)).value))
  }

  lemma {:induction false} ReleaseParts(s: string)
    ensures ReadRelease(s).Some? ==> |ReadRelease(s).value.parts| >= 1
    decreases |s|
  {
    var n := DigitRun(s);
    if n > 0 && n + 1 < |s| && s[n] == '.' && IsDigit(s[n + 1]) {
      ReleaseParts(s[n + 1..]);
    }
  }

  lemma JudgedIsRead(text: string)
    ensures Judged(text).Some? ==> Judged(text) == ReadVersion(text) && |Judged(text).value.release| >= 1
  {
    ReleaseParts(WithoutV(LowerCase(Strip(text))));
  }

  /** Every clause that is judged at all is judged as PEP 440 says. */
  lemma HoldsFollowsPep440(op: Op, bound: string, version: string)
    requires !EndsWith(bound, ".*") && Holds(op, bound, version).Some?
    ensures ReadVersion(bound).Some? && ReadVersion(BeforePlus(version)).Some?
    ensures Holds(op, bound, version).value
            <==> Allows(op, ReadVersion(bound).value, ReadVersion(BeforePlus(version)).value)
  {
    hide ReadVersion, Judged, ClauseHolds, Allows, LabelOk;
    BeforePlusIs(version);
    JudgedIsRead(bound);
    JudgedIsRead(BeforePlus(version));
    ClausesFollowPep440(op, Judged(bound).value, Judged(BeforePlus(version)).value);
  }

  // ---- Writing -----------------------------------------------------------------------

  function Decimal(n: nat): (s: string)
    ensures s != "" && forall i :: 0 <= i < |s| ==> IsDigit(s[i])
  {
    if n < 10 then ['0' + n as char] else Decimal(n / 10) + ['0' + (n % 10) as char]
  }

  lemma {:induction false} NumberDecimal(n: nat)
    ensures Number(Decimal(n)) == n
  {
    if n >= 10 {
      NumberDecimal(n / 10);
      assert Decimal(n)[..|Decimal(n)| - 1] == Decimal(n / 10);
    } else {
      assert Decimal(n)[..0] == "";
    }
  }

  lemma {:induction false} RunOver(digits: string, tail: string)
    requires (forall i :: 0 <= i < |digits| ==> IsDigit(digits[i])) && (tail == "" || !IsDigit(tail[0]))
    ensures DigitRun(digits + tail) == |digits|
  {
    if digits == "" {
      assert digits + tail == tail;
    } else {
      assert (digits + tail)[1..] == digits[1..] + tail;
      RunOver(digits[1..], tail);
    }
  }

  /** A number read back, whatever follows that is no digit. */
  lemma DecimalRead(n: nat, tail: string)
    requires tail == "" || !IsDigit(tail[0])
    ensures var s := Decimal(n) + tail; DigitRun(s) == |Decimal(n)| && Number(s[..DigitRun(s)]) == n && s[DigitRun(s)..] == tail
  {
    RunOver(Decimal(n), tail);
    NumberDecimal(n);
    assert (Decimal(n) + tail)[..|Decimal(n)|] == Decimal(n);
  }

  function ShowRelease(parts: seq<nat>): string
    requires |parts| >= 1
  {
    if |parts| == 1 then Decimal(parts[0]) else Decimal(parts[0]) + "." + ShowRelease(parts[1..])
  }

  function ShowStage(s: Stage): string {
    match s case Alpha => "a" case Beta => "b" case Candidate => "rc"
  }

  function ShowPre(v: Version): string {
    if v.pre.Some? then ShowStage(v.pre.value.0) + Decimal(v.pre.value.1) else ""
  }

  function ShowCount(n: Option<nat>, word: string): string {
    if n.Some? then "." + word + Decimal(n.value) else ""
  }

  /** The normal form of a version. */
  function Show(v: Version): string
    requires |v.release| >= 1
  {
    ShowRelease(v.release) + (ShowPre(v) + (ShowCount(v.post, "post") + ShowCount(v.dev, "dev")))
  }

  /** What may follow a release segment without being read into it. */
  predicate Ends(tail: string) {
    tail == "" || (!IsDigit(tail[0]) && (tail[0] == '.' ==> |tail| >= 2 && !IsDigit(tail[1])))
  }

  lemma ComponentRead(n: nat, rest: string)
    requires rest != "" && IsDigit(rest[0])
    ensures var s, k := Decimal(n) + ("." + rest), |Decimal(n)|;
            DigitRun(s) == k && Number(s[..k]) == n && k + 1 < |s| && s[k] == '.' && s[k + 1..] == rest
  {
    hide Decimal, Number, DigitRun;
    DecimalRead(n, "." + rest);
    var s, k := Decimal(n) + ("." + rest), |Decimal(n)|;
    assert s[k..] == "." + rest;
    assert s[k + 1..] == s[k..][1..];
  }

  lemma ReleaseStep(n: nat, rest: string)
    requires rest != "" && IsDigit(rest[0]) && ReadRelease(rest).Some?
    ensures var r := ReadRelease(Decimal(n) + ("." + rest));
            r.Some? && r.value.parts == [n] + ReadRelease(rest).value.parts && r.value.rest == ReadRelease(rest).value.rest
  {
    hide Decimal, Number, DigitRun;
    ComponentRead(n, rest);
    var s, k := Decimal(n) + ("." + rest), |Decimal(n)|;
    assert s[k + 1] == s[k + 1..][0];
  }

  lemma Regroup(a: string, b: string, tail: string)
    ensures (a + "." + b) + tail == a + ("." + (b + tail))
  {
  }

  lemma {:induction false} ReleaseRead(parts: seq<nat>, tail: string)
    requires |parts| >= 1 && Ends(tail)
    ensures var r := ReadRelease(ShowRelease(parts) + tail);
            r.Some? && r.value.parts == parts && r.value.rest == tail
    decreases |parts|
  {
    hide Decimal, ReadRelease, IsDigit, Ends;
    if |parts| == 1 {
      EndRead(parts[0], tail);
      assert parts == [parts[0]];
    } else {
      ReleaseRead(parts[1..], tail);
      StartsWithDigit(parts[1..], tail);
      ReleaseStep(parts[0], ShowRelease(parts[1..]) + tail);
      Regroup(Decimal(parts[0]), ShowRelease(parts[1..]), tail);
      assert parts == [parts[0]] + parts[1..];
    }
  }

  lemma EndRead(n: nat, tail: string)
    requires Ends(tail)
    ensures var r := ReadRelease(Decimal(n) + tail); r.Some? && r.value.parts == [n] && r.value.rest == tail
  {
    DecimalRead(n, tail);
    var s, k := Decimal(n) + tail, |Decimal(n)|;
    assert forall i :: 0 <= i < |tail| ==> s[k + i] == tail[i];
  }

  lemma StartsWithDigit(parts: seq<nat>, tail: string)
    requires |parts| >= 1
    ensures var s := ShowRelease(parts) + tail; s != "" && IsDigit(s[0])
  {
    assert IsDigit(Decimal(parts[0])[0]);
    assert (ShowRelease(parts) + tail)[0] == Decimal(parts[0])[0];
  }

  lemma TagHit(s: string, word: string, n: nat, tail: string)
    requires AfterSeparator(s) == word + (Decimal(n) + tail) && (tail == "" || !IsDigit(tail[0]))
    ensures ReadTag(s, word) == Some((n, tail))
  {
    hide Decimal, Number, DigitRun, AfterSeparator;
    DecimalRead(n, tail);
    var t := AfterSeparator(s);
    assert word <= t && t[|word|..] == Decimal(n) + tail;
  }

  lemma TagMiss(s: string, word: string, i: nat)
    requires i < |word| && i < |AfterSeparator(s)| && AfterSeparator(s)[i] != word[i]
    ensures ReadTag(s, word) == None
  {
  }

  lemma CountRead(n: Option<nat>, word: string, tail: string)
    requires word != "" && !IsSeparator(word[0]) && (tail == "" || !IsDigit(tail[0]))
    requires n == None ==> ReadTag(tail, word) == None
    ensures ReadCount(ShowCount(n, word) + tail, word) == (n, tail)
  {
    hide Decimal, ReadTag, IsDigit;
    if n.Some? {
      var s, t := ShowCount(n, word) + tail, word + (Decimal(n.value) + tail);
      assert s == "." + t;
      assert AfterSeparator(s) == t;
      TagHit(s, word, n.value, tail);
    } else {
      assert ShowCount(n, word) + tail == tail;
    }
  }

  /** What follows the pre-release in a normal form. */
  function Tail(v: Version): string {
    ShowCount(v.post, "post") + ShowCount(v.dev, "dev")
  }

  lemma TailStarts(v: Version)
    ensures var t := Tail(v); Ends(t) && (t == "" || (t[0] == '.' && (t[1] == 'p' || t[1] == 'd')))
  {
    if v.post.Some? {
      assert Tail(v)[0] == '.' && Tail(v)[1] == 'p';
    } else if v.dev.Some? {
      assert Tail(v) == ShowCount(v.dev, "dev");
    }
  }

  lemma NoPreHere(t: string)
    requires t == "" || (t[0] == '.' && |t| >= 2 && (t[1] == 'p' || t[1] == 'd'))
    ensures ReadPre(t) == (None, t)
  {
    var u := AfterSeparator(t);
    assert u == "" || u[0] == 'p' || u[0] == 'd';
  }

  lemma StageRead(stage: Stage, n: nat, tail: string)
    requires tail == "" || !IsDigit(tail[0])
    ensures ReadPre(ShowStage(stage) + Decimal(n) + tail) == (Some((stage, n)), tail)
  {
    hide Decimal, ReadTag;
    var s, rest := ShowStage(stage) + Decimal(n) + tail, Decimal(n) + tail;
    assert s == ShowStage(stage) + rest && rest[0] == Decimal(n)[0] && IsDigit(rest[0]);
    assert AfterSeparator(s) == s;
    TagHit(s, ShowStage(stage), n, tail);
    match stage
    case Alpha =>
      assert s[1] == rest[0];
      TagMiss(s, "alpha", 1);
    case Beta =>
      assert s[0] == 'b' && s[1] == rest[0];
      TagMiss(s, "alpha", 0);
      TagMiss(s, "a", 0);
      TagMiss(s, "beta", 1);
    case Candidate =>
      assert s[0] == 'r';
      TagMiss(s, "alpha", 0);
      TagMiss(s, "a", 0);
      TagMiss(s, "beta", 0);
      TagMiss(s, "b", 0);
  }

  lemma PreRead(v: Version)
    ensures ReadPre(ShowPre(v) + Tail(v)) == (v.pre, Tail(v))
  {
    TailStarts(v);
    if v.pre.Some? {
      StageRead(v.pre.value.0, v.pre.value.1, Tail(v));
    } else {
      assert ShowPre(v) + Tail(v) == Tail(v);
      NoPreHere(Tail(v));
    }
  }

  lemma TailRead(v: Version)
    ensures ReadCount(Tail(v), "post") == (v.post, ShowCount(v.dev, "dev"))
    ensures ReadCount(ShowCount(v.dev, "dev"), "dev") == (v.dev, "")
  {
    var d := ShowCount(v.dev, "dev");
    if v.dev.Some? {
      assert d[0] == '.' && d[1] == 'd';
      assert AfterSeparator(d)[0] == 'd' && "post"[0] == 'p';
    }
    CountRead(v.post, "post", d);
    assert d + "" == d;
    CountRead(v.dev, "dev", "");
  }

  /** The suffixes of a normal form begin neither with a digit nor with white space. */
  lemma SuffixStarts(v: Version)
    ensures Ends(ShowPre(v) + Tail(v))
  {
    TailStarts(v);
    if v.pre.Some? {
      assert (ShowPre(v) + Tail(v))[0] == ShowStage(v.pre.value.0)[0];
    } else {
      assert ShowPre(v) + Tail(v) == Tail(v);
    }
  }

  predicate Normal(c: char) { IsDigit(c) || 'a' <= c <= 'z' || c == '.' }

  predicate AllNormal(s: string) { forall i :: 0 <= i < |s| ==> Normal(s[i]) }

  lemma {:induction false} ReleaseNormal(parts: seq<nat>)
    requires |parts| >= 1
    ensures AllNormal(ShowRelease(parts)) && ShowRelease(parts) != "" && IsDigit(ShowRelease(parts)[0])
  {
    if |parts| > 1 {
      ReleaseNormal(parts[1..]);
    }
  }

  lemma NormalStripped(s: string)
    requires AllNormal(s)
    ensures Strip(s) == s && LowerCase(s) == s
  {
    if s != "" {
      assert Normal(s[0]) && Normal(s[|s| - 1]);
    }
  }

  lemma ShowNormal(v: Version)
    requires |v.release| >= 1
    ensures AllNormal(Show(v)) && Show(v) != "" && IsDigit(Show(v)[0])
  {
    ReleaseNormal(v.release);
    assert AllNormal(ShowPre(v)) && AllNormal(ShowCount(v.post, "post")) && AllNormal(ShowCount(v.dev, "dev"));
  }

  /** Reading undoes writing, for every version. */
  lemma ReadShow(v: Version)
    requires |v.release| >= 1
    ensures ReadVersion(Show(v)) == Some(v)
  {
    ShowNormal(v);
    NormalStripped(Show(v));
    SuffixStarts(v);
    ReleaseRead(v.release, ShowPre(v) + Tail(v));
    PreRead(v);
    TailRead(v);
  }
}
