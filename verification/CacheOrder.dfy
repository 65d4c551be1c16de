/** The read order: eviction closes the least recently used descriptor it may close. */
module CacheOrder {
  import opened Basics
  import opened CacheModel
  import opened CacheInvariant
  import opened CacheRetirement
  import opened CacheSystem
  import opened SystemInvariant
  import opened SystemSteps
  import opened ThreadSteps
  import opened HoldSteps
  import opened CacheRuns
  import opened CacheSafety
  import opened CacheReaders

  // ---- Orders ------------------------------------------------------------------------

  ghost predicate Precedes(o: seq<Key>, x: Key, y: Key) {
    exists i, j :: 0 <= i < j < |o| && o[i] == x && o[j] == y
  }

  /** `x` may come before `y`: it did, or `y` has just been used. */
  ghost predicate Ranks(o: seq<Key>, used: set<Key>, x: Key, y: Key) {
    x !in used && (y in used || Precedes(o, x, y))
  }

  /** `p` keeps the order of `o`, except that a key in `used` has come last. */
  ghost predicate KeepsOrder(o: seq<Key>, p: seq<Key>, used: set<Key>) {
    forall i, j :: 0 <= i < j < |p| ==> Ranks(o, used, p[i], p[j])
  }

  lemma SameOrder(o: seq<Key>)
    ensures KeepsOrder(o, o, {})
  {
    forall i, j | 0 <= i < j < |o| ensures Ranks(o, {}, o[i], o[j]) { assert Precedes(o, o[i], o[j]); }
  }

  lemma {:induction false} WithoutOrder(o: seq<Key>, x: Key)
    ensures KeepsOrder(o, Without(o, x), {})
  {
    if o != [] {
      WithoutOrder(o[1..], x);
      var p := Without(o, x);
      forall i, j | 0 <= i < j < |p| ensures Ranks(o, {}, p[i], p[j]) {
        if o[0] == x {
          assert Ranks(o[1..], {}, p[i], p[j]);
          LaterPrecedes(o, p[i], p[j]);
        } else if i == 0 {
          assert p[j] in Without(o[1..], x) && p[j] in o[1..];
          var k :| 0 <= k < |o[1..]| && o[1..][k] == p[j];
          assert o[0] == p[i] && o[k + 1] == p[j];
        } else {
          assert Ranks(o[1..], {}, Without(o[1..], x)[i - 1], Without(o[1..], x)[j - 1]);
          LaterPrecedes(o, p[i], p[j]);
        }
      }
    }
  }

  lemma LaterPrecedes(o: seq<Key>, x: Key, y: Key)
    requires o != [] && Precedes(o[1..], x, y)
    ensures Precedes(o, x, y)
  {
    var i, j :| 0 <= i < j < |o[1..]| && o[1..][i] == x && o[1..][j] == y;
    assert o[i + 1] == x && o[j + 1] == y;
  }

  lemma AddedOrder(o: seq<Key>, p: seq<Key>, k: Key)
    requires KeepsOrder(o, p, {}) && k !in p
    ensures KeepsOrder(o, p + [k], {k})
  {
    var q := p + [k];
    forall i, j | 0 <= i < j < |q| ensures Ranks(o, {k}, q[i], q[j]) {
      assert q[i] == p[i] && p[i] in p;
      if j < |p| {
        assert q[j] == p[j] && Ranks(o, {}, p[i], p[j]);
      }
    }
  }

  lemma OrderThrough(o: seq<Key>, p: seq<Key>, q: seq<Key>, used: set<Key>)
    requires KeepsOrder(o, p, used) && KeepsOrder(p, q, {})
    ensures KeepsOrder(o, q, used)
  {
    forall i, j | 0 <= i < j < |q| ensures Ranks(o, used, q[i], q[j]) {
      assert Ranks(p, {}, q[i], q[j]);
      var a, b :| 0 <= a < b < |p| && p[a] == q[i] && p[b] == q[j];
      assert Ranks(o, used, p[a], p[b]);
    }
  }

  // ---- What a step does to the order -------------------------------------------------

  /** The step reads the inode's descriptor, or pins one. */
  ghost predicate Uses(s: State, e: Event, u: State, k: Key) {
    k in u.c.fds &&
    (k !in s.c.fds
     || (e.Revalidate? && e.t in u.threads && u.threads[e.t].phase.Reading? && u.threads[e.t].phase.pin.key == k))
  }

  ghost function Used(s: State, e: Event, u: State): set<Key> {
    set k | k in u.c.fds && Uses(s, e, u, k)
  }

  ghost predicate OrderStep(s: State, e: Event, u: State) {
    KeepsOrder(s.c.useOrder, u.c.useOrder, Used(s, e, u))
  }

  /** A step that pins nothing, reads nothing and drops some entries. */
  lemma QuietStep(s: State, e: Event, u: State)
    requires KeepsOrder(s.c.useOrder, u.c.useOrder, {}) && !e.Revalidate? && forall k :: k in u.c.fds ==> k in s.c.fds
    ensures OrderStep(s, e, u)
  {
    assert Used(s, e, u) == {};
  }

  lemma StillStep(s: State, e: Event, u: State)
    requires u.c.useOrder == s.c.useOrder && u.c.fds == s.c.fds && !e.Revalidate?
    ensures OrderStep(s, e, u)
  {
    hide KeepsOrder;
    SameOrder(s.c.useOrder);
    QuietStep(s, e, u);
  }

  /** A step that pins one inode. */
  lemma PinStep(s: State, e: Event, u: State, key: Key)
    requires KeepsOrder(s.c.useOrder, u.c.useOrder, {key}) && !e.Revalidate? && key in u.c.fds && key !in s.c.fds
    requires forall k :: k in u.c.fds ==> k in s.c.fds || k == key
    ensures OrderStep(s, e, u)
  {
    assert Used(s, e, u) == {key};
  }

  lemma RetireOrder(c: Cache, path: Path, current: Key)
    ensures var d := Retire(c, path, current).0; KeepsOrder(c.useOrder, d.useOrder, {})
  {
    hide KeepsOrder, Without, Drain;
    SameOrder(c.useOrder);
    if path in c.pathInode && c.pathInode[path] != current {
      DrainFrame(c.(inodePaths := c.inodePaths - {c.pathInode[path]}));
      WithoutOrder(c.useOrder, c.pathInode[path]);
    }
  }

  lemma SettleOrder(c: Cache, path: Path, fd: nat, key: Key)
    ensures KeepsOrder(c.useOrder, Settle(c, path, fd, key).cache.useOrder, {})
  {
    hide KeepsOrder, Retire;
    RetireOrder(c, path, key);
  }

  lemma StatOrder(s: State, e: Event, t: nat)
    requires MapsAgree(s.c) && NamesNumbered(s) && t in s.threads && !e.Revalidate?
    ensures OrderStep(s, e, DoStat(s, t))
  {
    hide MapsAgree, Settle, OrderStep, KeepsOrder;
    var path := s.threads[t].path;
    if path in s.names && s.num[s.names[path]] in s.c.fds {
      var key := s.num[s.names[path]];
      SettleShape(s.c, path, s.c.fds[key], key);
      SettleOrder(s.c, path, s.c.fds[key], key);
      QuietStep(s, e, DoStat(s, t));
    } else {
      StillStep(s, e, DoStat(s, t));
    }
  }

  lemma OpenOrder(s: State, e: Event, t: nat, fd: nat)
    requires MapsAgree(s.c) && NamesNumbered(s) && t in s.threads && !e.Revalidate?
    ensures OrderStep(s, e, DoOpen(s, t, fd))
  {
    hide MapsAgree, PinOpened, KeepsOrder, OrderStep;
    var path, u := s.threads[t].path, DoOpen(s, t, fd);
    if path in s.names {
      var key := s.num[s.names[path]];
      PinOpenedOrder(s.c, path, fd, key);
      assert u.c == PinOpened(s.c, path, fd, key).cache;
      if key in s.c.fds {
        QuietStep(s, e, u);
      } else {
        PinStep(s, e, u, key);
      }
    } else {
      StillStep(s, e, u);
    }
  }

  lemma PinOpenedOrder(c: Cache, path: Path, fd: nat, key: Key)
    requires MapsAgree(c)
    ensures var d := PinOpened(c, path, fd, key).cache;
            && KeepsOrder(c.useOrder, d.useOrder, if key in c.fds then {} else {key})
            && key in d.fds && (forall k :: k in d.fds ==> k in c.fds || k == key)
  {
    hide MapsAgree, Settle, KeepsOrder, Admit;
    AdmitAgrees(c, fd, key);
    AdmitOrder(c, fd, key);
    var (d, used) := Admit(c, fd, key);
    SettleShape(d, path, used, key);
    SettleAgrees(d, path, used, key);
    SettleOrder(d, path, used, key);
    OrderThrough(c.useOrder, d.useOrder, Settle(d, path, used, key).cache.useOrder, if key in c.fds then {} else {key});
  }

  lemma AdmitOrder(c: Cache, fd: nat, key: Key)
    requires MapsAgree(c)
    ensures var d := Admit(c, fd, key).0;
            && KeepsOrder(c.useOrder, d.useOrder, if key in c.fds then {} else {key})
            && forall k :: k in d.fds ==> k in c.fds || k == key
  {
    hide KeepsOrder;
    SameOrder(c.useOrder);
    if key !in c.fds {
      AddedOrder(c.useOrder, c.useOrder, key);
    }
  }

  /** A step that reads one inode's descriptor. */
  lemma ReadStep(s: State, t: nat, u: State, key: Key)
    requires KeepsOrder(s.c.useOrder, u.c.useOrder, {key}) && u.c.fds == s.c.fds && key in s.c.fds
    requires t in u.threads && u.threads[t].phase.Reading? && u.threads[t].phase.pin.key == key
    ensures OrderStep(s, Revalidate(t), u)
  {
    assert Used(s, Revalidate(t), u) == {key};
  }

  lemma FailedStep(s: State, t: nat, u: State)
    requires u.c == s.c && t in u.threads && !u.threads[t].phase.Reading?
    ensures OrderStep(s, Revalidate(t), u)
  {
    SameOrder(s.c.useOrder);
    assert Used(s, Revalidate(t), u) == {};
  }

  lemma RevalidateOrder(s: State, t: nat)
    requires t in s.threads && s.threads[t].phase.Check?
    ensures OrderStep(s, Revalidate(t), DoRevalidate(s, t))
  {
    hide KeepsOrder, Without, OrderStep;
    var pin, u := s.threads[t].phase.pin, DoRevalidate(s, t);
    if u.threads[t].phase.Reading? {
      WithoutOrder(s.c.useOrder, pin.key);
      AddedOrder(s.c.useOrder, Without(s.c.useOrder, pin.key), pin.key);
      ReadStep(s, t, u, pin.key);
    } else {
      FailedStep(s, t, u);
    }
  }

  lemma CloseStaleOrder(c: Cache, x: Stale)
    requires MapsAgree(c)
    ensures var d := CloseStale(c, x);
            if StaleFate(c, x) == Kept then
              KeepsOrder(c.useOrder, d.useOrder, {x.key}) && x.key !in c.fds && d.fds == c.fds[x.key := x.fd]
            else d.useOrder == c.useOrder && d.fds == c.fds
  {
    hide KeepsOrder;
    SameOrder(c.useOrder);
    if x.key !in c.fds {
      AddedOrder(c.useOrder, c.useOrder, x.key);
    }
  }

  lemma DecideOrder(s: State, e: Event, t: nat)
    requires MapsAgree(s.c) && t in s.threads && s.threads[t].stale != [] && s.threads[t].closing.Locked? && !e.Revalidate?
    ensures OrderStep(s, e, DoCloseDecide(s, t))
  {
    hide KeepsOrder, OrderStep, MapsAgree, CloseStale, StaleFate;
    var x, u := s.threads[t].stale[0], DoCloseDecide(s, t);
    CloseStaleOrder(s.c, x);
    assert u.c == CloseStale(s.c, x);
    if StaleFate(s.c, x) == Kept {
      PinStep(s, e, u, x.key);
    } else {
      StillStep(s, e, u);
    }
  }

  lemma {:induction false} ForgetDeadOrder(c: Cache, dead: seq<(Path, Key)>)
    ensures KeepsOrder(c.useOrder, ForgetDead(c, dead).cache.useOrder, {})
    decreases |dead|
  {
    hide KeepsOrder, Retire;
    SameOrder(c.useOrder);
    if dead != [] {
      var (path, key) := dead[0];
      if path !in c.pathInode || c.pathInode[path] != key {
        ForgetDeadOrder(c, dead[1..]);
      } else {
        RetireOrder(c, path, NO_INODE);
        var d := Retire(c, path, NO_INODE).0;
        ForgetDeadOrder(d.(pathInode := d.pathInode - {path}), dead[1..]);
        OrderThrough(c.useOrder, d.useOrder, ForgetDead(c, dead).cache.useOrder, {});
      }
    }
  }

  lemma EvictOrder(c: Cache, named: map<Path, Key>, taken: set<nat>)
    requires MapsAgree(c) && forall l :: l in taken ==> l < c.nextLock
    ensures KeepsOrder(c.useOrder, EvictIdle(c, named, taken).cache.useOrder, {})
  {
    hide KeepsOrder, Without, Drain;
    DrainFrame(c);
    SameOrder(c.useOrder);
    var d := Drain(c);
    if |d.fds| >= MAX_PINNED_FDS && d.uncertain <= 0 {
      ScanResult(d, d.useOrder, HeldNow(d, named), taken, false);
      var e := EvictScan(d, d.useOrder, HeldNow(d, named), taken, false);
      if e.outcome == Evicted {
        WithoutOrder(c.useOrder, e.closed.value.key);
      }
    }
  }

  lemma CloseOrder(s: State, e: Event)
    requires Inv(s) && CloseEnabled(s, e) && IsCloseStep(e)
    ensures OrderStep(s, e, ApplyClose(s, e))
  {
    hide MapsAgree, Accounted, HoldsCounted, WorldOk, ConnsOk, LocksOk, PinsOk, StalesDistinct, EvictIdle, ForgetDead,
      DoCloseDecide, KeepsOrder, OrderStep;
    match e
    case CloseLookUp(t) => StillStep(s, e, ApplyClose(s, e));
    case CloseTakeLock(t) => StillStep(s, e, ApplyClose(s, e));
    case CloseDecide(t) => DecideOrder(s, e, t);
    case ForgetPaths(t) =>
      NoSentinel(s);
      ForgetDeadOrder(s.c, s.threads[t].phase.dead);
      ForgetDeadShape(s.c, s.threads[t].phase.dead);
      QuietStep(s, e, ApplyClose(s, e));
    case EvictNow(t, named) =>
      ThreadFacts(s, t);
      EvictOrder(s.c, named, s.owner.Keys);
      EvictShape(s.c, named, s.owner.Keys);
      DrainFrame(s.c);
      QuietStep(s, e, ApplyClose(s, e));
  }

  lemma ReadOrder(s: State, e: Event)
    requires Inv(s) && NamesNumbered(s) && ReadEnabled(s, e) && IsReadStep(e)
    ensures OrderStep(s, e, ApplyRead(s, e))
  {
    hide MapsAgree, Accounted, HoldsCounted, WorldOk, ConnsOk, LocksOk, PinsOk, StalesDistinct, DoStat, DoOpen,
      DoRevalidate, OrderStep;
    match e
    case StatPath(t) => StatOrder(s, e, t);
    case OpenPath(t, fd) => OpenOrder(s, e, t, fd);
    case TakeLock(t) => StillStep(s, e, ApplyRead(s, e));
    case Revalidate(t) => RevalidateOrder(s, t);
    case FinishRead(t) => StillStep(s, e, ApplyRead(s, e));
  }

  lemma ConnectOrder(s: State, e: Event)
    requires Inv(s) && NamesNumbered(s) && ConnectEnabled(s, e)
    requires IsConnectStep(e)
    ensures OrderStep(s, e, ApplyConnect(s, e))
  {
    hide MapsAgree, Accounted, HoldsCounted, WorldOk, ConnsOk, LocksOk, PinsOk, StalesDistinct, OrderStep, TakeHold,
      CompleteHold, DoTakeHold, DoCount, Drain;
    match e
    case TakeHoldNow(t, h) =>
      TakeHoldShape(s, t, h);
      TakeHoldUse(s.c, s.threads[t].path, NamedKey(s, s.threads[t].path));
      StillStep(s, e, ApplyConnect(s, e));
    case ConnectOk(t) => StillStep(s, e, ApplyConnect(s, e));
    case ConnectFails(t) => StillStep(s, e, ApplyConnect(s, e));
    case LookAgain(t) => StillStep(s, e, ApplyConnect(s, e));
    case CountAfter(t) =>
      CountShape(s, t);
      CompleteUse(s.c, s.threads[t].phase.before, s.threads[t].phase.after);
      StillStep(s, e, ApplyConnect(s, e));
  }

  lemma TakeHoldUse(c: Cache, path: Path, before: Option<Key>)
    ensures TakeHold(c, path, before).useOrder == c.useOrder && TakeHold(c, path, before).fds == c.fds
  {
    DrainFrame(c);
  }

  lemma CompleteUse(c: Cache, before: Option<Key>, after: Option<Key>)
    ensures CompleteHold(c, before, after).useOrder == c.useOrder && CompleteHold(c, before, after).fds == c.fds
  {
  }

  /** The inodes used in a step have come last, the others are in the order they were. */
  lemma StepOrder(s: State, e: Event)
    requires Inv(s) && Enabled(s, e)
    ensures OrderStep(s, e, Apply(s, e))
  {
    hide Inv, OrderStep, FileEnabled, PlainEnabled, ReadEnabled, CloseEnabled, ConnectEnabled, ApplyFile, ApplyPlain,
      ApplyRead, ApplyClose, ApplyConnect;
    if IsFileEvent(e) {
      FileUse(s, e);
      StillStep(s, e, Apply(s, e));
    } else if IsPlainStep(e) {
      PlainFields(s, e);
      StillStep(s, e, Apply(s, e));
    } else if IsReadStep(e) {
      ReadOrder(s, e);
    } else if IsCloseStep(e) {
      CloseOrder(s, e);
    } else {
      ConnectOrder(s, e);
    }
  }

  lemma FileUse(s: State, e: Event)
    requires FileEnabled(s, e) && IsFileEvent(e)
    ensures ApplyFile(s, e).c.useOrder == s.c.useOrder && ApplyFile(s, e).c.fds == s.c.fds
  {
  }

  // ---- Runs --------------------------------------------------------------------------

  /** The number of the last event that used the inode. */
  ghost function LastUse(r: seq<State>, es: seq<Event>, n: nat, k: Key): nat
    requires n < |r| == |es| + 1
  {
    if n == 0 then 0 else if Uses(r[n - 1], es[n - 1], r[n], k) then n else LastUse(r, es, n - 1, k)
  }

  lemma {:induction false} UseNotLater(r: seq<State>, es: seq<Event>, n: nat, k: Key)
    requires n < |r| == |es| + 1
    ensures LastUse(r, es, n, k) <= n
  {
    hide Uses;
    if n > 0 {
      UseNotLater(r, es, n - 1, k);
    }
  }

  /** The pinned inodes are listed in the order of their last use. */
  ghost predicate ByUse(r: seq<State>, es: seq<Event>, n: nat)
    requires n < |r| == |es| + 1
  {
    var o := r[n].c.useOrder;
    forall i, j :: 0 <= i < j < |o| ==> LastUse(r, es, n, o[i]) < LastUse(r, es, n, o[j])
  }

  lemma {:induction false} ReadOrderIsByUse(r: seq<State>, es: seq<Event>, n: nat)
    requires Run(r, es) && n < |r|
    ensures ByUse(r, es, n)
  {
    hide FileEnabled, PlainEnabled, ReadEnabled, CloseEnabled, ConnectEnabled, Apply, Inv, Uses, ByUse;
    if n == 0 {
      ByUseAtStart(r, es);
    } else {
      ReadOrderIsByUse(r, es, n - 1);
      RunKeeps(r, es, n - 1);
      RunKeeps(r, es, n);
      StepOrder(r[n - 1], es[n - 1]);
      OrderedUse(r[n]);
      ByUseStep(r, es, n);
    }
  }

  lemma ByUseAtStart(r: seq<State>, es: seq<Event>)
    requires |r| == |es| + 1 && r[0] == INITIAL
    ensures ByUse(r, es, 0)
  {
  }

  lemma OrderedUse(s: State)
    requires Inv(s)
    ensures forall i :: 0 <= i < |s.c.useOrder| ==> s.c.useOrder[i] in s.c.fds
  {
    forall i | 0 <= i < |s.c.useOrder| ensures s.c.useOrder[i] in s.c.fds { assert s.c.useOrder[i] in s.c.useOrder; }
  }

  lemma ByUseStep(r: seq<State>, es: seq<Event>, n: nat)
    requires 0 < n < |r| == |es| + 1 && ByUse(r, es, n - 1) && OrderStep(r[n - 1], es[n - 1], r[n])
    requires forall i :: 0 <= i < |r[n].c.useOrder| ==> r[n].c.useOrder[i] in r[n].c.fds
    ensures ByUse(r, es, n)
  {
    hide Uses;
    var s, e, u := r[n - 1], es[n - 1], r[n];
    var p := u.c.useOrder;
    forall i, j | 0 <= i < j < |p| ensures LastUse(r, es, n, p[i]) < LastUse(r, es, n, p[j]) {
      assert Ranks(s.c.useOrder, Used(s, e, u), p[i], p[j]);
      UseNotLater(r, es, n - 1, p[i]);
    }
  }

  // ---- Eviction ----------------------------------------------------------------------

  /** Eviction closes the least recently used descriptor it may: every pinned inode last used earlier is
      held, or named by a held path, or some thread has its lock. */
  lemma EvictsLeastRecentlyUsed(r: seq<State>, es: seq<Event>, n: nat, t: nat, named: map<Path, Key>, k: Key)
    requires Run(r, es) && n < |es| && es[n] == EvictNow(t, named) && Closes(r[n], es[n]).Some?
    requires k in r[n].c.fds && LastUse(r, es, n, k) < LastUse(r, es, n, Closes(r[n], es[n]).value.key)
    ensures k in HeldNow(Drain(r[n].c), named) || (k in r[n].c.inodeLocks && r[n].c.inodeLocks[k] in r[n].owner)
  {
    hide FileEnabled, PlainEnabled, ReadEnabled, ConnectEnabled, Apply, Accounted, HoldsCounted, WorldOk, ConnsOk, LocksOk,
      PinsOk, StalesDistinct, EvictIdle, LastUse, HeldNow, Drain;
    RunKeeps(r, es, n);
    ReadOrderIsByUse(r, es, n);
    ThreadFacts(r[n], t);
    var i := EvictPasses(r[n].c, named, r[n].owner.Keys);
    var o := r[n].c.useOrder;
    var j :| 0 <= j < |o| && o[j] == k;
    assert j < i;
  }
}
