/** Framework versions as numeric keys, and what comparing the keys means. */
module VersionKeys {
  import opened Basics
  import opened TextLines

  // ---- Keys --------------------------------------------------------------------------

  predicate IsDigit(c: char) { '0' <= c <= '9' }

  function DigitRun(s: string): (n: nat)
    ensures n <= |s| && forall i :: 0 <= i < n ==> IsDigit(s[i])
  {
    if s != "" && IsDigit(s[0]) then 1 + DigitRun(s[1..]) else 0
  }

  function Number(digits: string): nat
    requires forall i :: 0 <= i < |digits| ==> IsDigit(digits[i])
  {
    if digits == "" then 0
    else
      assert IsDigit(digits[|digits| - 1]);
      10 * Number(digits[..|digits| - 1]) + (digits[|digits| - 1] - '0') as nat
  }

  /** One to four digits, then a dot and more, or the end with or without `_TRW`. */
  function Parts(s: string): Option<seq<nat>>
    decreases |s|
  {
    var n := DigitRun(s);
    if n == 0 || n > 4 then None
    else if s[n..] == "" || s[n..] == "_TRW" then Some([Number(s[..n])])
    else if s[n] == '.' then
      match Parts(s[n + 1..])
      case Some(rest) => Some([Number(s[..n])] + rest)
      case None => None
    else None
  }

  /** Components without insignificant zeros at the end; one is always kept. */
  function Trim(parts: seq<nat>): (r: seq<nat>)
    ensures |r| <= |parts| && r == parts[..|r|]
    ensures forall i :: |r| <= i < |parts| ==> parts[i] == 0
    ensures |r| <= 1 || r[|r| - 1] != 0
    ensures |parts| >= 1 ==> |r| >= 1
  {
    if |parts| > 1 && parts[|parts| - 1] == 0 then Trim(parts[..|parts| - 1]) else parts
  }

  function VersionKey(version: Option<string>): Option<seq<nat>> {
    if version == None then None
    else
      var s := Strip(version.value);
      match Parts(if s != "" && s[0] == 'v' then s[1..] else s)
      case Some(parts) => Some(Trim(parts))
      case None => None
  }

  /** The loop that drops the zeros. */
  method PopZeros(parts: seq<nat>) returns (key: seq<nat>)
    ensures key == Trim(parts)
  {
    key := parts;
    while |key| > 1 && key[|key| - 1] == 0
      invariant Trim(key) == Trim(parts)
      decreases |key|
    {
      key := key[..|key| - 1];
    }
  }

  // ---- Order -------------------------------------------------------------------------

  /** The order of Python tuples: the first difference decides, a proper prefix comes first. */
  predicate TupleLess(a: seq<nat>, b: seq<nat>) {
    if b == [] then false
    else if a == [] then true
    else a[0] < b[0] || (a[0] == b[0] && TupleLess(a[1..], b[1..]))
  }

  function Component(parts: seq<nat>, i: nat): nat {
    if i < |parts| then parts[i] else 0
  }

  /** Versions compared component by component, as if both went on with zeros. */
  ghost predicate PaddedLess(a: seq<nat>, b: seq<nat>) {
    exists i: nat :: Component(a, i) < Component(b, i) && forall j: nat :: j < i ==> Component(a, j) == Component(b, j)
  }

  ghost predicate PaddedEqual(a: seq<nat>, b: seq<nat>) {
    forall i: nat :: Component(a, i) == Component(b, i)
  }

  lemma {:induction false} TupleLessAt(a: seq<nat>, b: seq<nat>, i: nat)
    requires i < |a| && i < |b| && a[i] < b[i] && forall j :: 0 <= j < i ==> a[j] == b[j]
    ensures TupleLess(a, b)
  {
    if i > 0 {
      TupleLessAt(a[1..], b[1..], i - 1);
    }
  }

  lemma {:induction false} TupleLessPrefix(a: seq<nat>, b: seq<nat>)
    requires |a| < |b| && forall j :: 0 <= j < |a| ==> a[j] == b[j]
    ensures TupleLess(a, b)
  {
    if a != [] {
      TupleLessPrefix(a[1..], b[1..]);
    }
  }

  /** A tuple below another differs from it first at a smaller component, or stops where the other goes on. */
  lemma {:induction false} TupleLessWhere(a: seq<nat>, b: seq<nat>) returns (i: nat)
    requires TupleLess(a, b)
    ensures i < |b| && i <= |a| && (forall j :: 0 <= j < i ==> a[j] == b[j]) && (i < |a| ==> a[i] < b[i])
  {
    if a == [] || a[0] < b[0] {
      i := 0;
    } else {
      i := TupleLessWhere(a[1..], b[1..]);
      i := i + 1;
    }
  }

  lemma TrimSame(parts: seq<nat>)
    ensures PaddedEqual(Trim(parts), parts)
  {
  }

  lemma {:induction false} PaddedThrough(a: seq<nat>, a': seq<nat>, b: seq<nat>, b': seq<nat>)
    requires PaddedEqual(a, a') && PaddedEqual(b, b') && PaddedLess(a, b)
    ensures PaddedLess(a', b')
  {
    var i: nat :| Component(a, i) < Component(b, i) && forall j: nat :: j < i ==> Component(a, j) == Component(b, j);
    assert Component(a', i) < Component(b', i);
  }

  /** Trimmed keys compare as tuples exactly as the versions compare numerically, zero-padded. */
  lemma KeyOrder(a: seq<nat>, b: seq<nat>)
    requires |a| >= 1 && |b| >= 1
    ensures TupleLess(Trim(a), Trim(b)) <==> PaddedLess(a, b)
  {
    TrimSame(a);
    TrimSame(b);
    if TupleLess(Trim(a), Trim(b)) {
      TrimmedBelow(Trim(a), Trim(b));
      PaddedThrough(Trim(a), a, Trim(b), b);
    }
    if PaddedLess(a, b) {
      PaddedThrough(a, Trim(a), b, Trim(b));
      BelowTrimmed(Trim(a), Trim(b));
    }
  }

  predicate Trimmed(a: seq<nat>) { |a| >= 1 && (|a| == 1 || a[|a| - 1] != 0) }

  lemma TrimmedBelow(a: seq<nat>, b: seq<nat>)
    requires Trimmed(a) && Trimmed(b) && TupleLess(a, b)
    ensures PaddedLess(a, b)
  {
    var i := TupleLessWhere(a, b);
    if i < |a| {
      assert Component(a, i) < Component(b, i);
    } else {
      var k := Positive(b, i);
      assert Component(a, k) < Component(b, k);
      forall j: nat | j < k ensures Component(a, j) == Component(b, j) { }
    }
  }

  predicate FirstPositive(b: seq<nat>, i: nat, k: nat) {
    i <= k < |b| && b[k] > 0 && forall j :: i <= j < k ==> b[j] == 0
  }

  /** From `i` on, a trimmed key longer than `i >= 1` has a first positive component. */
  lemma {:induction false} Positive(b: seq<nat>, i: nat) returns (k: nat)
    requires Trimmed(b) && 1 <= i < |b|
    ensures FirstPositive(b, i, k)
    decreases |b| - i
  {
    k := i;
    if b[i] == 0 {
      k := Positive(b, i + 1);
    }
  }

  lemma BelowTrimmed(a: seq<nat>, b: seq<nat>)
    requires Trimmed(a) && Trimmed(b) && PaddedLess(a, b)
    ensures TupleLess(a, b)
  {
    var i: nat :| Component(a, i) < Component(b, i) && forall j: nat :: j < i ==> Component(a, j) == Component(b, j);
    forall j | 0 <= j < i ensures Component(a, j) == Component(b, j) { }
    assert i < |b|;
    if i < |a| {
      forall j | 0 <= j < i ensures a[j] == b[j] { assert Component(a, j) == Component(b, j); }
      TupleLessAt(a, b, i);
    } else {
      forall j | 0 <= j < |a| ensures a[j] == b[j] { assert Component(a, j) == Component(b, j); }
      TupleLessPrefix(a, b);
    }
  }

  // ---- At most -----------------------------------------------------------------------

  /** No higher, as Python's `not a > b` on tuples. */
  predicate AtMost(a: seq<nat>, b: seq<nat>) { !TupleLess(b, a) }

  lemma {:induction false} TupleOrder(a: seq<nat>, b: seq<nat>, c: seq<nat>)
    ensures !TupleLess(a, a)
    ensures TupleLess(a, b) ==> !TupleLess(b, a)
    ensures TupleLess(a, b) || TupleLess(b, a) || a == b
    ensures TupleLess(a, b) && TupleLess(b, c) ==> TupleLess(a, c)
  {
    if a != [] && b != [] {
      TupleOrder(a[1..], b[1..], if c == [] then [] else c[1..]);
      assert a == [a[0]] + a[1..] && b == [b[0]] + b[1..];
    } else if a != [] {
      TupleOrder(a[1..], [], []);
    }
  }

  lemma AtMostTransitive(a: seq<nat>, b: seq<nat>, c: seq<nat>)
    requires AtMost(a, b) && AtMost(b, c)
    ensures AtMost(a, c)
  {
    TupleOrder(a, b, c);
    TupleOrder(c, a, b);
    TupleOrder(b, c, a);
  }
}
