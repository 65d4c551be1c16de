/** The installer's own version keys against the order of PEP 440, and its version clauses against PEP 440's. */
module Pep440 {
  import opened Basics
  import opened VersionKeys

  datatype Stage = Alpha | Beta | Candidate

  /** A version without epoch or local label. */
  datatype Version = Version(release: seq<nat>, pre: Option<(Stage, nat)>, post: Option<nat>, dev: Option<nat>)

  // ---- PEP 440, "Summary of permitted suffixes and relative ordering" ----------------

  /** One suffix in the order of the summary; having none ranks after every pre-release and before a post-release. */
  datatype Suffix = Dev(n: nat) | Pre(stage: Stage, n: nat) | NoMore | Post(n: nat)

  function Rank(s: Suffix): nat {
    match s
    case Dev(_) => 0
    case Pre(Alpha, _) => 1
    case Pre(Beta, _) => 2
    case Pre(Candidate, _) => 3
    case NoMore => 4
    case Post(_) => 5
  }

  function Count(s: Suffix): nat {
    if s == NoMore then 0 else s.n
  }

  /** The suffixes of a version from left to right, and the end. */
  function Suffixes(v: Version): seq<Suffix> {
    (if v.pre.Some? then [Pre(v.pre.value.0, v.pre.value.1)] else []) +
    (if v.post.Some? then [Post(v.post.value)] else []) +
    (if v.dev.Some? then [Dev(v.dev.value)] else []) + [NoMore]
  }

  predicate SuffixBefore(a: Suffix, b: Suffix) {
    Rank(a) < Rank(b) || (Rank(a) == Rank(b) && Count(a) < Count(b))
  }

  /** The first differing suffix decides. */
  predicate SuffixesBefore(a: seq<Suffix>, b: seq<Suffix>) {
    a != [] && b != [] && (SuffixBefore(a[0], b[0]) || (a[0] == b[0] && SuffixesBefore(a[1..], b[1..])))
  }

  /** Release segments compared numerically, zero-padded; then the suffixes. */
  ghost predicate Before(v: Version, w: Version) {
    PaddedLess(v.release, w.release)
    || (PaddedEqual(v.release, w.release) && SuffixesBefore(Suffixes(v), Suffixes(w)))
  }

  ghost predicate Same(v: Version, w: Version) {
    PaddedEqual(v.release, w.release) && v.pre == w.pre && v.post == w.post && v.dev == w.dev
  }

  // ---- The fallback key --------------------------------------------------------------

  datatype Key = Key(release: seq<nat>, pre: (int, nat, nat), post: (nat, nat), dev: (nat, nat))

  function StageOrder(s: Stage): nat {
    match s case Alpha => 0 case Beta => 1 case Candidate => 2
  }

  function KeyOf(v: Version): Key {
    var pre := if v.pre.Some? then (0, StageOrder(v.pre.value.0), v.pre.value.1)
               else if v.dev.Some? && v.post == None then (-1, 0, 0)
               else (1, 0, 0);
    Key(Trim(v.release), pre,
        if v.post.Some? then (1, v.post.value) else (0, 0),
        if v.dev.Some? then (0, v.dev.value) else (1, 0))
  }

  predicate TripleLess(a: (int, nat, nat), b: (int, nat, nat)) {
    a.0 < b.0 || (a.0 == b.0 && (a.1 < b.1 || (a.1 == b.1 && a.2 < b.2)))
  }

  predicate PairLess(a: (nat, nat), b: (nat, nat)) {
    a.0 < b.0 || (a.0 == b.0 && a.1 < b.1)
  }

  /** Tuple order on keys. */
  predicate KeyLess(a: Key, b: Key) {
    TupleLess(a.release, b.release)
    || (a.release == b.release
        && (TripleLess(a.pre, b.pre) || (a.pre == b.pre && (PairLess(a.post, b.post) || (a.post == b.post && PairLess(a.dev, b.dev))))))
  }

  lemma TrimNotLonger(x: seq<nat>, y: seq<nat>)
    requires Trimmed(x) && |y| >= 1 && PaddedEqual(x, y)
    ensures |x| <= |y|
  {
    assert Component(x, |x| - 1) == Component(y, |x| - 1);
  }

  lemma TrimEqual(a: seq<nat>, b: seq<nat>)
    requires |a| >= 1 && |b| >= 1
    ensures Trim(a) == Trim(b) <==> PaddedEqual(a, b)
  {
    TrimSame(a);
    TrimSame(b);
    var x, y := Trim(a), Trim(b);
    if PaddedEqual(a, b) {
      assert forall i: nat :: Component(x, i) == Component(a, i) == Component(b, i) == Component(y, i);
      TrimNotLonger(x, y);
      TrimNotLonger(y, x);
      assert forall i :: 0 <= i < |x| ==> x[i] == Component(x, i) == Component(y, i) == y[i];
    } else {
      var i: nat :| Component(a, i) != Component(b, i);
      assert Component(x, i) != Component(y, i);
    }
  }

  /** A version's suffixes, unrolled. */
  lemma SuffixesStart(v: Version)
    ensures var s := Suffixes(v);
            && s != []
            && s[0] == (if v.pre.Some? then Pre(v.pre.value.0, v.pre.value.1) else if v.post.Some? then Post(v.post.value)
                        else if v.dev.Some? then Dev(v.dev.value) else NoMore)
            && s[1..] == if v.pre.Some? then Suffixes(v.(pre := None))
                         else if v.post.Some? then Suffixes(v.(post := None))
                         else if v.dev.Some? then [NoMore] else []
  {
  }

  predicate AfterStage(v: Version, w: Version) {
    var a, b := KeyOf(v), KeyOf(w);
    PairLess(a.post, b.post) || (a.post == b.post && PairLess(a.dev, b.dev))
  }

  lemma SameDev(v: Version, w: Version)
    requires v.pre == None && w.pre == None && v.post == None && w.post == None
    ensures SuffixesBefore(Suffixes(v), Suffixes(w)) <==> PairLess(KeyOf(v).dev, KeyOf(w).dev)
  {
    SuffixesStart(v);
    SuffixesStart(w);
    hide Suffixes, Trim;
    assert !SuffixesBefore([NoMore], [NoMore]) && !SuffixesBefore([], []);
  }

  lemma SamePost(v: Version, w: Version)
    requires v.pre == None && w.pre == None && v.post.Some? && w.post.Some?
    ensures SuffixesBefore(Suffixes(v), Suffixes(w)) <==> AfterStage(v, w)
  {
    SuffixesStart(v);
    SuffixesStart(w);
    hide Suffixes, Trim;
    SameDev(v.(post := None), w.(post := None));
  }

  lemma FirstDiffers(a: seq<Suffix>, b: seq<Suffix>)
    requires a != [] && b != [] && a[0] != b[0]
    ensures SuffixesBefore(a, b) <==> SuffixBefore(a[0], b[0])
  {
  }

  /** Without pre-releases: development releases, the thing itself, then its post-releases. */
  lemma NoPreOrder(v: Version, w: Version)
    requires v.pre == None && w.pre == None
    ensures SuffixesBefore(Suffixes(v), Suffixes(w)) <==> AfterStage(v, w)
  {
    if v.post.Some? && w.post.Some? {
      SamePost(v, w);
    } else if v.post == None && w.post == None {
      SameDev(v, w);
    } else {
      SuffixesStart(v);
      SuffixesStart(w);
      hide Suffixes, SuffixesBefore;
      FirstDiffers(Suffixes(v), Suffixes(w));
    }
  }

  lemma WithoutPre(v: Version, w: Version)
    requires v.pre == None && w.pre == None
    ensures SuffixesBefore(Suffixes(v), Suffixes(w)) <==>
              TripleLess(KeyOf(v).pre, KeyOf(w).pre) || (KeyOf(v).pre == KeyOf(w).pre && AfterStage(v, w))
  {
    hide Suffixes, SuffixesBefore, Trim;
    NoPreOrder(v, w);
  }

  /** After equal pre-releases what follows decides, as it would without them. */
  lemma AfterEqualPre(v: Version, w: Version)
    requires v.pre.Some? && w.pre == v.pre
    ensures SuffixesBefore(Suffixes(v), Suffixes(w)) <==> AfterStage(v, w)
  {
    SuffixesStart(v);
    SuffixesStart(w);
    hide Suffixes, Trim;
    NoPreOrder(v.(pre := None), w.(pre := None));
  }

  lemma DifferentPre(v: Version, w: Version)
    requires v.pre != w.pre
    ensures SuffixesBefore(Suffixes(v), Suffixes(w)) <==> TripleLess(KeyOf(v).pre, KeyOf(w).pre)
    ensures KeyOf(v).pre != KeyOf(w).pre
  {
    SuffixesStart(v);
    SuffixesStart(w);
    hide Suffixes, SuffixesBefore, Trim;
    FirstDiffers(Suffixes(v), Suffixes(w));
  }

  lemma SuffixOrder(v: Version, w: Version)
    ensures SuffixesBefore(Suffixes(v), Suffixes(w)) <==>
              TripleLess(KeyOf(v).pre, KeyOf(w).pre) || (KeyOf(v).pre == KeyOf(w).pre && AfterStage(v, w))
  {
    hide Suffixes, SuffixesBefore, KeyOf, AfterStage;
    if v.pre != w.pre {
      DifferentPre(v, w);
    } else if v.pre == None {
      WithoutPre(v, w);
    } else {
      AfterEqualPre(v, w);
      SamePreKey(v, w);
    }
  }

  lemma SamePreKey(v: Version, w: Version)
    requires v.pre.Some? && v.pre == w.pre
    ensures KeyOf(v).pre == KeyOf(w).pre
  {
  }

  /** The keys compare as the versions do under PEP 440. */
  lemma KeysFollowPep440(v: Version, w: Version)
    requires |v.release| >= 1 && |w.release| >= 1
    ensures KeyLess(KeyOf(v), KeyOf(w)) <==> Before(v, w)
    ensures KeyOf(v) == KeyOf(w) <==> Same(v, w)
  {
    hide Suffixes, SuffixesBefore, PaddedLess, PaddedEqual, Trim, TupleLess;
    KeyOrder(v.release, w.release);
    TrimEqual(v.release, w.release);
    SuffixOrder(v, w);
    KeyParts(v, w);
  }

  /** Equal keys come only from equal suffixes. */
  lemma KeyParts(v: Version, w: Version)
    ensures KeyOf(v).pre == KeyOf(w).pre && KeyOf(v).post == KeyOf(w).post && KeyOf(v).dev == KeyOf(w).dev
            <==> v.pre == w.pre && v.post == w.post && v.dev == w.dev
  {
    hide Trim;
  }

  /** The comparison is total: one of before, same, after. */
  lemma Trichotomy(a: Key, b: Key)
    ensures KeyLess(a, b) || a == b || KeyLess(b, a)
    ensures !(KeyLess(a, b) && KeyLess(b, a)) && !(KeyLess(a, b) && a == b)
  {
    TupleOrder(a.release, b.release, a.release);
    TupleOrder(b.release, a.release, b.release);
  }

  function Compare(v: Version, w: Version): int {
    if KeyLess(KeyOf(v), KeyOf(w)) then -1 else if KeyOf(v) == KeyOf(w) then 0 else 1
  }

  // ---- Clauses -----------------------------------------------------------------------

  datatype Op = Equal | NotEqual | Less | LessOrEqual | Greater | GreaterOrEqual

  predicate IsPre(v: Version) { v.pre.Some? || v.dev.Some? }

  predicate IsPost(v: Version) { v.post.Some? }

  /** `_clause_holds` on a version and a bound that were both understood. */
  function ClauseHolds(op: Op, bound: Version, v: Version): bool {
    var cmp := Compare(v, bound);
    if Trim(v.release) == Trim(bound.release) && op == Less && cmp < 0 && IsPre(v) && !IsPre(bound) then false
    else if Trim(v.release) == Trim(bound.release) && op == Greater && cmp > 0 && IsPost(v) && !IsPost(bound) then false
    else match op
      case Equal => cmp == 0
      case NotEqual => cmp != 0
      case Less => cmp < 0
      case LessOrEqual => cmp <= 0
      case Greater => cmp > 0
      case GreaterOrEqual => cmp >= 0
  }

  /** PEP 440's clauses; "Exclusive ordered comparison" keeps a pre-release of the bound out of `<` and a
      post-release of it out of `>`, unless the bound is one itself. */
  ghost predicate Allows(op: Op, bound: Version, v: Version) {
    match op
    case Equal => Same(v, bound)
    case NotEqual => !Same(v, bound)
    case LessOrEqual => Before(v, bound) || Same(v, bound)
    case GreaterOrEqual => Before(bound, v) || Same(v, bound)
    case Less => Before(v, bound) && !(PaddedEqual(v.release, bound.release) && IsPre(v) && !IsPre(bound))
    case Greater => Before(bound, v) && !(PaddedEqual(v.release, bound.release) && IsPost(v) && !IsPost(bound))
  }

  lemma ClausesFollowPep440(op: Op, bound: Version, v: Version)
    requires |bound.release| >= 1 && |v.release| >= 1
    ensures ClauseHolds(op, bound, v) <==> Allows(op, bound, v)
  {
    hide KeyOf, KeyLess, Before, PaddedEqual, Same, Trim;
    KeysFollowPep440(v, bound);
    KeysFollowPep440(bound, v);
    Trichotomy(KeyOf(v), KeyOf(bound));
    TrimEqual(v.release, bound.release);
  }

  /** The exclusions matter: without them `1.0rc1` would pass `<1.0` and `1.0.post1` would pass `>1.0`. */
  lemma ExclusionsMatter()
    ensures var final := Version([1, 0], None, None, None);
            var candidate, post := final.(pre := Some((Candidate, 1))), final.(post := Some(1));
            && Before(candidate, final) && !ClauseHolds(Less, final, candidate)
            && Before(final, post) && !ClauseHolds(Greater, final, post)
  {
    var final := Version([1, 0], None, None, None);
    var candidate, post := final.(pre := Some((Candidate, 1))), final.(post := Some(1));
    SuffixesStart(final);
    SuffixesStart(candidate);
    SuffixesStart(post);
    KeysFollowPep440(candidate, final);
    KeysFollowPep440(final, post);
    KeysFollowPep440(post, final);
  }
}
