/** Exactly when a reader's descriptor can be closed while the reader is still reading. */
module DescriptorLoss {
  import opened Basics
  import opened CacheModel
  import opened CacheInvariant
  import opened CacheSystem
  import opened SystemInvariant
  import opened SystemSteps
  import opened ThreadSteps
  import opened HoldSteps
  import opened CacheRuns
  import opened CacheSafety
  import opened CacheReaders
  import opened ReadGuarantee

  ghost predicate IsReading(s: State, t: nat, pin: Pin) {
    t in s.threads && s.threads[t].phase == Reading(pin)
  }

  // ---- The conditions ----------------------------------------------------------------

  /** A close drops the lock of the pin, although the closer holds another one. */
  ghost predicate PopsLock(s: State, e: Event, pin: Pin) {
    && e.CloseDecide? && CloseEnabled(s, e)
    && var th := s.threads[e.t];
       th.stale[0].key == pin.key && StaleFate(s.c, th.stale[0]) == Closed && IsCurrent(s, pin) && th.closing.lock != pin.lock
  }

  /** The pin's descriptor is owed a close by a thread that does not wait for the pin's lock. */
  ghost predicate Exposed(s: State, pin: Pin) {
    exists v :: v in s.threads && Stale(pin.key, pin.fd) in s.threads[v].stale && s.threads[v].closing != LookedUp(pin.lock)
  }

  /** A continuation in which thread `t` reads with the pin throughout, and whose last event closes the descriptor. */
  ghost predicate CloseFollows(s: State, t: nat, pin: Pin, es: seq<Event>)
    decreases |es|
  {
    && es != [] && IsReading(s, t, pin) && Enabled(s, es[0])
    && if |es| == 1 then Closes(s, es[0]).Some? && Closes(s, es[0]).value.fd == pin.fd
       else CloseFollows(Apply(s, es[0]), t, pin, es[1..])
  }

  ghost predicate CanLose(s: State, t: nat, pin: Pin) {
    exists es :: CloseFollows(s, t, pin, es)
  }

  /** A continuation in which thread `t` reads with the pin throughout, and whose last event drops the pin's lock while
      the descriptor is exposed. */
  ghost predicate PopFollows(s: State, t: nat, pin: Pin, es: seq<Event>)
    decreases |es|
  {
    && es != [] && IsReading(s, t, pin) && Enabled(s, es[0])
    && if |es| == 1 then PopsLock(s, es[0], pin) && Exposed(Apply(s, es[0]), pin)
       else PopFollows(Apply(s, es[0]), t, pin, es[1..])
  }

  // ---- While the lock is current -----------------------------------------------------

  /** Whoever is closing the pin's own descriptor waits for the pin's lock. */
  ghost predicate OwnCloserWaits(s: State, pin: Pin) {
    forall v | v in s.threads && s.threads[v].stale != [] && s.threads[v].stale[0] == Stale(pin.key, pin.fd) ::
      s.threads[v].closing != NotClosing ==> s.threads[v].closing.lock == pin.lock
  }

  lemma ClosesItsKey(s: State, e: Event, x: Stale, t: nat, pin: Pin)
    requires Enabled(s, e) && Closes(s, e) == Some(x) && (x.fd == pin.fd || x.key == pin.key)
    requires IsReading(s, t, pin) && IsCurrent(s, pin)
    requires Inv(s)
    ensures PopsLock(s, e, pin)
  {
    hide MapsAgree, Accounted, HoldsCounted, WorldOk, ConnsOk, LocksOk, StalesDistinct, EvictIdle, StaleFate;
    ClosesOpen(s, e);
    assert PinOk(pin, s.c.inodeLocks, s.open, s.num);
    match e
    case CloseDecide(u) => CloserHasAnotherLock(s, t, u);
    case EvictNow(u, named) => NoEvictUnderReader(s, t, u, named);
    case _ =>
  }

  /** The pin's own closer never holds a lock other than the pin's, so the first close to drop it is another's. */
  lemma PopSpares(s: State, e: Event, t: nat, pin: Pin)
    requires Inv(s) && Enabled(s, e) && IsReading(s, t, pin) && PopsLock(s, e, pin) && OwnCloserWaits(s, pin)
    ensures Closes(s, e).Some? && Closes(s, e).value.key == pin.key && Closes(s, e).value.fd != pin.fd
  {
    hide MapsAgree, Accounted, HoldsCounted, WorldOk, ConnsOk, LocksOk, PinsOk, StalesDistinct, StaleFate;
  }

  /** A current lock stays current until a close drops it, and no descriptor of the inode is closed before. */
  lemma StaysCurrent(s: State, e: Event, u: State, closed: Option<Stale>, t: nat, pin: Pin)
    requires Enabled(s, e) && u == Apply(s, e) && closed == Closes(s, e)
    requires IsReading(s, t, pin) && IsCurrent(s, pin) && !PopsLock(s, e, pin)
    requires Inv(s)
    ensures IsCurrent(u, pin) && (closed.Some? ==> closed.value.key != pin.key && closed.value.fd != pin.fd)
  {
    hide Inv, Apply, Enabled, Closes, DescriptorShape, PopsLock, IsCurrent;
    StepShape(s, e);
    if closed.Some? && (closed.value.fd == pin.fd || closed.value.key == pin.key) {
      ClosesItsKey(s, e, closed.value, t, pin);
    }
    ReaderStaysLocked(s, u, closed, pin);
  }

  lemma LookUpGives(s: State, pin: Pin)
    requires IsCurrent(s, pin)
    ensures LockFor(s.c, pin.key).1 == pin.lock
  {
  }

  lemma StillWaits(s: State, e: Event, t: nat, pin: Pin)
    requires Inv(s) && Enabled(s, e) && IsReading(s, t, pin) && IsCurrent(s, pin) && OwnCloserWaits(s, pin)
    ensures OwnCloserWaits(Apply(s, e), pin)
  {
    hide Inv, Apply, Enabled, IsCurrent, PinChange, ReadingChange, LockFor;
    var u := Apply(s, e);
    StepActor(s, e);
    LookUpGives(s, pin);
    if !IsFileEvent(e) {
      StepChange(s, e);
    }
    forall v | v in u.threads && u.threads[v].stale != [] && u.threads[v].stale[0] == Stale(pin.key, pin.fd)
               && u.threads[v].closing != NotClosing
      ensures u.threads[v].closing.lock == pin.lock
    {
      if v in s.threads && u.threads[v] == s.threads[v] {
        assert s.threads[v].closing.lock == pin.lock;
      } else {
        assert ClosingChange(s, e, u.threads[v], v);
      }
    }
  }

  /** When a reader starts reading, its descriptor is pinned, so no one is closing it. */
  lemma StartsWaiting(u: State, pin: Pin)
    requires Inv(u) && PinnedAs(u.c, pin.key, pin.fd)
    ensures OwnCloserWaits(u, pin)
  {
    hide MapsAgree, HoldsCounted, WorldOk, ConnsOk, LocksOk, PinsOk, StalesDistinct;
    forall v | v in u.threads && u.threads[v].stale != [] ensures u.threads[v].stale[0] != Stale(pin.key, pin.fd) {
      assert u.threads[v].stale[0] in u.threads[v].stale;
      assert u.threads[v].stale[0] in Flight(u.threads);
    }
  }

  /** From the start of a read for as long as the lock is current. */
  lemma {:induction false} WaitsAlongRun(r: seq<State>, es: seq<Event>, n: nat, t: nat, pin: Pin)
    requires Run(r, es) && n < |r| && IsReading(r[n], t, pin) && IsCurrent(r[n], pin)
    ensures OwnCloserWaits(r[n], pin)
  {
    hide Inv, Apply, Enabled, OwnCloserWaits, IsCurrent, ClosingChange, PinChange;
    assert n > 0;
    var s, e, u := r[n - 1], es[n - 1], r[n];
    RunKeeps(r, es, n - 1);
    RunKeeps(r, es, n);
    StepActor(s, e);
    if !IsFileEvent(e) {
      StepChange(s, e);
    }
    if IsReading(s, t, pin) && IsCurrent(s, pin) {
      WaitsAlongRun(r, es, n - 1, t, pin);
      StillWaits(s, e, t, pin);
    } else if IsReading(s, t, pin) {
      NeverAgain(s, e, t, pin);
    } else {
      assert ReadingChange(s, e, u, t);
      StartsWaiting(u, pin);
    }
  }

  /** Lock numbers are not reused: a dropped lock is no inode's again. */
  lemma NeverAgain(s: State, e: Event, t: nat, pin: Pin)
    requires Inv(s) && Enabled(s, e) && IsReading(s, t, pin) && !IsCurrent(s, pin)
    ensures !IsCurrent(Apply(s, e), pin)
  {
    hide MapsAgree, Accounted, HoldsCounted, WorldOk, ConnsOk, PinsOk, StalesDistinct, Apply, Enabled, Closes;
    StepShape(s, e);
    assert ThreadOk(s.threads[t], s.c.nextLock);
  }

  // ---- After the lock was dropped ----------------------------------------------------

  /** What a close that drops the pin's lock leaves. */
  ghost predicate Dropped(s: State, pin: Pin) {
    DroppedIn(s.c, pin) && MapFree(s)
  }

  ghost predicate DroppedIn(c: Cache, pin: Pin) {
    && pin.lock !in c.inodeLocks.Values && pin.lock < c.nextLock
    && pin.key !in c.fds && !Held(c, pin.key)
  }

  lemma StaysDropped(c: Cache, pin: Pin, x: Stale)
    requires DroppedIn(c, pin)
    ensures DroppedIn(CloseStale(c, x), pin)
  {
    hide AppendUse;
  }

  lemma LooksUpAnother(c: Cache, pin: Pin, key: Key)
    requires DroppedIn(c, pin)
    ensures DroppedIn(LockFor(c, key).0, pin) && LockFor(c, key).1 != pin.lock
  {
    assert key in c.inodeLocks ==> c.inodeLocks[key] in c.inodeLocks.Values;
  }

  lemma AfterPop(s: State, e: Event, t: nat, pin: Pin)
    requires Inv(s) && Enabled(s, e) && IsReading(s, t, pin) && PopsLock(s, e, pin) && OwnCloserWaits(s, pin)
    ensures var u := Apply(s, e);
            Inv(u) && IsReading(u, t, pin) && Dropped(u, pin) && pin.fd in u.open && u.open[pin.fd] in u.num && u.num[u.open[pin.fd]] == pin.key
  {
    hide Accounted, HoldsCounted, WorldOk, ConnsOk, StalesDistinct, OwnCloserWaits, LocksOk, Closes;
    StepKeeps(s, e);
    PopSpares(s, e, t, pin);
    StepShape(s, e);
    assert PinOk(pin, s.c.inodeLocks, s.open, s.num);
    PopEffect(s, e, t, pin);
  }

  lemma PopEffect(s: State, e: Event, t: nat, pin: Pin)
    requires Inv(s) && Enabled(s, e) && IsReading(s, t, pin) && PopsLock(s, e, pin)
    ensures IsReading(Apply(s, e), t, pin) && Dropped(Apply(s, e), pin)
  {
    hide Accounted, HoldsCounted, WorldOk, ConnsOk, PinsOk, StalesDistinct;
    assert ThreadOk(s.threads[t], s.c.nextLock) && ThreadOk(s.threads[e.t], s.c.nextLock);
    assert t != e.t;
  }

  // ---- Not exposed: the descriptor stays ---------------------------------------------

  /** The descriptor is a race loser, which nothing closes, or owed a close by a thread waiting for the reader. */
  ghost predicate Spared(s: State, pin: Pin) {
    || pin.fd in s.c.raceLosers
    || exists v :: v in s.threads && Stale(pin.key, pin.fd) in s.threads[v].stale && s.threads[v].closing == LookedUp(pin.lock)
  }

  lemma NotExposedIsSpared(s: State, pin: Pin)
    requires Inv(s) && Dropped(s, pin) && pin.fd in s.open && s.open[pin.fd] in s.num && s.num[s.open[pin.fd]] == pin.key
    ensures !Exposed(s, pin) ==> Spared(s, pin)
  {
    hide MapsAgree, HoldsCounted, WorldOk, ConnsOk, LocksOk, PinsOk, StalesDistinct;
    if pin.fd !in s.c.raceLosers {
      assert Stale(pin.key, pin.fd) in Flight(s.threads);
    }
  }

  /** A thread waiting for the reader's lock takes no step. */
  lemma WaiterRests(s: State, e: Event, t: nat, pin: Pin, v: nat)
    requires Inv(s) && Enabled(s, e) && IsReading(s, t, pin)
    requires v in s.threads && s.threads[v].stale != [] && s.threads[v].closing == LookedUp(pin.lock)
    ensures v in Apply(s, e).threads && Apply(s, e).threads[v] == s.threads[v]
  {
    hide Inv, Apply, FileEnabled, PlainEnabled, ReadEnabled, CloseEnabled, ConnectEnabled;
    InvLocks(s);
    WaiterBlocked(s, t, pin, v);
    StepActor(s, e);
    if !IsFileEvent(e) {
      BlockedElsewhere(s, e, v);
    }
  }

  lemma WaiterBlocked(s: State, t: nat, pin: Pin, v: nat)
    requires LocksOk(s.threads, s.owner, s.mapOwner, s.c.nextLock) && IsReading(s, t, pin)
    requires v in s.threads && s.threads[v].stale != [] && s.threads[v].closing == LookedUp(pin.lock)
    ensures pin.lock in s.owner && s.threads[v].phase != Idle
  {
    assert Owns(s.threads[t], pin.lock);
    assert ThreadOk(s.threads[v], s.c.nextLock);
  }

  /** A thread that waits for an inode lock somebody has can take no step. */
  lemma BlockedElsewhere(s: State, e: Event, v: nat)
    requires Enabled(s, e) && !IsFileEvent(e) && v in s.threads && s.threads[v].phase != Idle
    requires s.threads[v].stale != [] && s.threads[v].closing.LookedUp? && s.threads[v].closing.lock in s.owner
    ensures e.t != v
  {
    hide NamesNumbered, FileEnabled, Lists, MapFree;
  }

  lemma InvLocks(s: State)
    requires Inv(s)
    ensures LocksOk(s.threads, s.owner, s.mapOwner, s.c.nextLock)
  {
  }

  lemma SparedStays(s: State, e: Event, u: State, closed: Option<Stale>, t: nat, pin: Pin)
    requires Enabled(s, e) && u == Apply(s, e) && closed == Closes(s, e)
    requires IsReading(s, t, pin) && Spared(s, pin)
    requires Inv(s)
    ensures Spared(u, pin) && (closed.Some? ==> closed.value.fd != pin.fd)
  {
    hide MapsAgree, HoldsCounted, WorldOk, ConnsOk, LocksOk, PinsOk, StalesDistinct, Apply, Enabled, Closes;
    StepShape(s, e);
    StepKeeps(s, e);
    if pin.fd !in s.c.raceLosers {
      var v :| v in s.threads && Stale(pin.key, pin.fd) in s.threads[v].stale && s.threads[v].closing == LookedUp(pin.lock);
      WaiterRests(s, e, t, pin, v);
      assert Stale(pin.key, pin.fd) in Flight(u.threads);
    }
  }

  lemma {:induction false} SparedIsKept(s: State, t: nat, pin: Pin, es: seq<Event>)
    requires Inv(s) && Spared(s, pin)
    ensures !CloseFollows(s, t, pin, es)
    decreases |es|
  {
    hide Inv, FileEnabled, PlainEnabled, ReadEnabled, CloseEnabled, ConnectEnabled, Apply, Closes, Spared, IsReading;
    if CloseFollows(s, t, pin, es) {
      SparedStays(s, es[0], Apply(s, es[0]), Closes(s, es[0]), t, pin);
      StepKeeps(s, es[0]);
      if |es| > 1 {
        SparedIsKept(Apply(s, es[0]), t, pin, es[1..]);
      }
    }
  }

  // ---- Exposed: a schedule that closes it --------------------------------------------

  /** Where the schedule can go on: the reader reads, and thread `v`, which owes the close, does not wait for it. */
  ghost predicate Ready(s: State, t: nat, pin: Pin, v: nat) {
    && Inv(s) && IsReading(s, t, pin) && Dropped(s, pin)
    && v in s.threads && Stale(pin.key, pin.fd) in s.threads[v].stale && s.threads[v].closing != LookedUp(pin.lock)
  }

  lemma ReadyFacts(s: State, t: nat, pin: Pin, v: nat)
    requires Ready(s, t, pin, v)
    ensures v != t && NamesNumbered(s) && s.threads[v].closing != Locked(pin.lock)
    ensures pin.lock in s.owner && s.owner[pin.lock] == t
  {
    hide MapsAgree, Accounted, HoldsCounted, ConnsOk, PinsOk, StalesDistinct, Dropped;
    assert ThreadOk(s.threads[t], s.c.nextLock) && ThreadOk(s.threads[v], s.c.nextLock);
    assert Owns(s.threads[t], pin.lock);
    OneOwner(s, t, v, pin.lock);
    forall p | p in s.names ensures s.names[p] in s.num {
      assert s.names[p] in s.names.Values;
      assert s.names[p] in Alive(s.names, s.open, s.conns);
    }
  }

  lemma OneOwner(s: State, t: nat, v: nat, lock: nat)
    requires LocksOk(s.threads, s.owner, s.mapOwner, s.c.nextLock) && t in s.threads && v in s.threads && t != v
    requires Owns(s.threads[t], lock)
    ensures !Owns(s.threads[v], lock)
  {
    assert s.owner[lock] == t;
  }

  /** A close of another descriptor, by `w`, keeps the schedule going. */
  lemma OtherDecides(s: State, t: nat, pin: Pin, v: nat, w: nat)
    requires Ready(s, t, pin, v) && CloseEnabled(s, CloseDecide(w)) && (w == v ==> s.threads[v].stale[0] != Stale(pin.key, pin.fd))
    ensures Enabled(s, CloseDecide(w))
    ensures var u := Apply(s, CloseDecide(w));
            && Ready(u, t, pin, v) && s.threads[w].closing.lock !in u.owner
            && (w != v ==> u.threads[v] == s.threads[v])
            && (w == v ==> u.threads[v].stale == s.threads[v].stale[1..] && u.threads[v].closing == NotClosing)
  {
    hide MapsAgree, Accounted, HoldsCounted, WorldOk, ConnsOk, PinsOk, StalesDistinct, NamesNumbered, LocksOk, DroppedIn,
      CloseStale, StaleFate;
    ReadyFacts(s, t, pin, v);
    StepKeeps(s, CloseDecide(w));
    WaiterIsNoReader(s, t, w);
    StaysDropped(s.c, pin, s.threads[w].stale[0]);
    if w == v {
      assert s.threads[v].stale == [s.threads[v].stale[0]] + s.threads[v].stale[1..];
    }
  }

  lemma WaiterIsNoReader(s: State, t: nat, w: nat)
    requires LocksOk(s.threads, s.owner, s.mapOwner, s.c.nextLock) && t in s.threads && w in s.threads
    requires s.threads[t].phase.Reading? && s.threads[w].stale != []
    ensures w != t
  {
    assert ThreadOk(s.threads[t], s.c.nextLock);
  }

  lemma OtherFinishes(s: State, t: nat, pin: Pin, v: nat, w: nat)
    requires Ready(s, t, pin, v) && w != t && w in s.threads && s.threads[w].phase.Reading?
    ensures Enabled(s, FinishRead(w))
    ensures var u := Apply(s, FinishRead(w));
            Ready(u, t, pin, v) && u.threads[v] == s.threads[v] && s.threads[w].phase.pin.lock !in u.owner
  {
    hide MapsAgree, Accounted, HoldsCounted, WorldOk, ConnsOk, PinsOk, StalesDistinct, NamesNumbered, LocksOk, DroppedIn;
    ReadyFacts(s, t, pin, v);
    WorkerOwesNothing(s, w);
    StepKeeps(s, FinishRead(w));
  }

  lemma OtherChecks(s: State, t: nat, pin: Pin, v: nat, w: nat)
    requires Ready(s, t, pin, v) && w in s.threads && s.threads[w].phase.Check?
    ensures Enabled(s, Revalidate(w))
    ensures var u := Apply(s, Revalidate(w));
            && Ready(u, t, pin, v) && u.threads[v] == s.threads[v] && w != t && w in u.threads
            && (s.threads[w].phase.pin.lock !in u.owner
                || (u.threads[w].phase == Reading(s.threads[w].phase.pin)))
  {
    hide Inv, NamesNumbered, DroppedIn, DoRevalidate, Enabled, Apply;
    ReadyFacts(s, t, pin, v);
    InvLocks(s);
    WorkerOwesNothing(s, w);
    RevalidateIs(s, w);
    StepKeeps(s, Revalidate(w));
    CheckEnds(s, w, pin);
  }

  lemma RevalidateIs(s: State, w: nat)
    requires NamesNumbered(s) && At(s, w) && s.threads[w].phase.Check? && MapFree(s)
    ensures Enabled(s, Revalidate(w)) && Apply(s, Revalidate(w)) == DoRevalidate(s, w)
  {
    hide DoRevalidate, NamesNumbered;
  }

  lemma CheckEnds(s: State, w: nat, pin: Pin)
    requires w in s.threads && s.threads[w].phase.Check? && DroppedIn(s.c, pin)
    ensures var u := DoRevalidate(s, w);
            && w in u.threads && u.threads == s.threads[w := u.threads[w]] && DroppedIn(u.c, pin) && u.mapOwner == s.mapOwner
            && (s.threads[w].phase.pin.lock !in u.owner || u.threads[w].phase == Reading(s.threads[w].phase.pin))
  {
    hide MarkRead, DroppedIn, SetPhase;
    var mine := s.threads[w].phase.pin;
    MarkedDropped(s.c, pin, mine.key);
    Moved(s.(c := MarkRead(s.c, mine.key)), w, Reading(mine));
    Moved(s.(owner := s.owner - {mine.lock}), w, Want);
    OnlyThreads(s.(c := MarkRead(s.c, mine.key)), w, Reading(mine));
    OnlyThreads(s.(owner := s.owner - {mine.lock}), w, Want);
  }

  lemma OnlyThreads(s: State, w: nat, phase: Phase)
    requires w in s.threads
    ensures var u := SetPhase(s, w, phase); u == s.(threads := u.threads)
  {
  }

  lemma MarkedDropped(c: Cache, pin: Pin, key: Key)
    requires DroppedIn(c, pin)
    ensures DroppedIn(MarkRead(c, key), pin)
  {
    hide Without;
  }

  lemma WorkerOwesNothing(s: State, w: nat)
    requires LocksOk(s.threads, s.owner, s.mapOwner, s.c.nextLock) && w in s.threads
    requires s.threads[w].phase.Check? || s.threads[w].phase.Reading?
    ensures s.threads[w].stale == []
  {
    assert ThreadOk(s.threads[w], s.c.nextLock);
  }

  lemma Prepended(s: State, t: nat, pin: Pin, e: Event)
    requires IsReading(s, t, pin) && Enabled(s, e) && CanLose(Apply(s, e), t, pin)
    ensures CanLose(s, t, pin)
  {
    hide Enabled, Apply, Closes, IsReading;
    var es :| CloseFollows(Apply(s, e), t, pin, es);
    assert ([e] + es)[1..] == es;
    assert CloseFollows(s, t, pin, [e] + es);
  }

  /** The thread that owes the close has the lock it looked up: it closes, one descriptor after the other. */
  lemma {:induction false} LockedCloses(s: State, t: nat, pin: Pin, v: nat)
    requires Ready(s, t, pin, v) && s.threads[v].closing.Locked?
    ensures CanLose(s, t, pin)
    decreases |s.threads[v].stale|, 0, 0
  {
    hide Inv, Apply, StaleFate;
    ReadyFacts(s, t, pin, v);
    var e := CloseDecide(v);
    if s.threads[v].stale[0] == Stale(pin.key, pin.fd) {
      OwnFate(s, pin);
      assert CloseFollows(s, t, pin, [e]);
    } else {
      OtherDecides(s, t, pin, v, v);
      IdleCloses(Apply(s, e), t, pin, v);
      Prepended(s, t, pin, e);
    }
  }

  lemma OwnFate(s: State, pin: Pin)
    requires Dropped(s, pin)
    ensures StaleFate(s.c, Stale(pin.key, pin.fd)) == Closed
  {
  }

  /** It has looked a lock up: whoever has that lock gives it back, and it takes it. */
  lemma {:induction false} WaitingCloses(s: State, t: nat, pin: Pin, v: nat)
    requires Ready(s, t, pin, v) && s.threads[v].closing.LookedUp?
    ensures CanLose(s, t, pin)
    decreases |s.threads[v].stale|, 1, 2
  {
    hide Inv, Apply, Enabled, Closes;
    ReadyFacts(s, t, pin, v);
    var lock := s.threads[v].closing.lock;
    if lock !in s.owner {
      TakesLock(s, t, pin, v);
      LockedCloses(Apply(s, CloseTakeLock(v)), t, pin, v);
      Prepended(s, t, pin, CloseTakeLock(v));
    } else {
      OwnerOf(s, t, pin, v, lock);
      var w := s.owner[lock];
      if s.threads[w].closing == Locked(lock) {
        OtherDecides(s, t, pin, v, w);
        FreedCloses(Apply(s, CloseDecide(w)), t, pin, v);
        Prepended(s, t, pin, CloseDecide(w));
      } else if s.threads[w].phase.Reading? {
        OtherFinishes(s, t, pin, v, w);
        FreedCloses(Apply(s, FinishRead(w)), t, pin, v);
        Prepended(s, t, pin, FinishRead(w));
      } else {
        OtherChecks(s, t, pin, v, w);
        var u := Apply(s, Revalidate(w));
        if lock !in u.owner {
          FreedCloses(u, t, pin, v);
        } else {
          OtherFinishes(u, t, pin, v, w);
          FreedCloses(Apply(u, FinishRead(w)), t, pin, v);
          Prepended(u, t, pin, FinishRead(w));
        }
        Prepended(s, t, pin, Revalidate(w));
      }
    }
  }

  lemma OwnerOf(s: State, t: nat, pin: Pin, v: nat, lock: nat)
    requires Ready(s, t, pin, v) && lock in s.owner && s.threads[v].closing == LookedUp(lock)
    ensures var w := s.owner[lock];
            && w in s.threads && w != v && w != t
            && (s.threads[w].closing == Locked(lock)
                || ((s.threads[w].phase.Check? || s.threads[w].phase.Reading?) && s.threads[w].phase.pin.lock == lock))
            && (s.threads[w].closing == Locked(lock) ==> MapFree(s) && s.threads[w].stale != [])
  {
    hide MapsAgree, Accounted, HoldsCounted, WorldOk, ConnsOk, PinsOk, StalesDistinct;
    ReadyFacts(s, t, pin, v);
    var w := s.owner[lock];
    assert Owns(s.threads[w], lock);
    assert ThreadOk(s.threads[w], s.c.nextLock) && ThreadOk(s.threads[v], s.c.nextLock);
  }

  /** The lock it looked up is free. */
  lemma {:induction false} FreedCloses(s: State, t: nat, pin: Pin, v: nat)
    requires Ready(s, t, pin, v) && s.threads[v].closing.LookedUp? && s.threads[v].closing.lock !in s.owner
    ensures CanLose(s, t, pin)
    decreases |s.threads[v].stale|, 1, 1
  {
    hide Inv, Apply, Enabled, Closes;
    TakesLock(s, t, pin, v);
    LockedCloses(Apply(s, CloseTakeLock(v)), t, pin, v);
    Prepended(s, t, pin, CloseTakeLock(v));
  }

  lemma TakesLock(s: State, t: nat, pin: Pin, v: nat)
    requires Ready(s, t, pin, v) && s.threads[v].closing.LookedUp? && s.threads[v].closing.lock !in s.owner
    ensures Enabled(s, CloseTakeLock(v))
    ensures var u := Apply(s, CloseTakeLock(v));
            Ready(u, t, pin, v) && u.threads[v].closing.Locked? && u.threads[v].stale == s.threads[v].stale
  {
    hide MapsAgree, Accounted, HoldsCounted, WorldOk, ConnsOk, PinsOk, StalesDistinct, NamesNumbered, LocksOk;
    ReadyFacts(s, t, pin, v);
    StepKeeps(s, CloseTakeLock(v));
  }

  /** Its next close is about to begin. */
  lemma {:induction false} IdleCloses(s: State, t: nat, pin: Pin, v: nat)
    requires Ready(s, t, pin, v) && s.threads[v].closing == NotClosing
    ensures CanLose(s, t, pin)
    decreases |s.threads[v].stale|, 2, 0
  {
    hide Inv, Apply, Enabled, Closes;
    LooksUp(s, t, pin, v);
    WaitingCloses(Apply(s, CloseLookUp(v)), t, pin, v);
    Prepended(s, t, pin, CloseLookUp(v));
  }

  lemma LooksUp(s: State, t: nat, pin: Pin, v: nat)
    requires Ready(s, t, pin, v) && s.threads[v].closing == NotClosing
    ensures Enabled(s, CloseLookUp(v))
    ensures var u := Apply(s, CloseLookUp(v));
            Ready(u, t, pin, v) && u.threads[v].closing.LookedUp? && u.threads[v].stale == s.threads[v].stale
  {
    hide MapsAgree, Accounted, HoldsCounted, WorldOk, ConnsOk, PinsOk, StalesDistinct, NamesNumbered, LocksOk;
    ReadyFacts(s, t, pin, v);
    StepKeeps(s, CloseLookUp(v));
    LooksUpAnother(s.c, pin, s.threads[v].stale[0].key);
  }

  lemma ExposedCanLose(s: State, t: nat, pin: Pin)
    requires Inv(s) && IsReading(s, t, pin) && Dropped(s, pin) && Exposed(s, pin)
    ensures CanLose(s, t, pin)
  {
    hide Inv, Dropped, CanLose;
    var v :| v in s.threads && Stale(pin.key, pin.fd) in s.threads[v].stale && s.threads[v].closing != LookedUp(pin.lock);
    match s.threads[v].closing
    case NotClosing => IdleCloses(s, t, pin, v);
    case LookedUp(_) => WaitingCloses(s, t, pin, v);
    case Locked(_) => LockedCloses(s, t, pin, v);
  }

  // ---- The theorems ------------------------------------------------------------------

  /** Right after a close has dropped a reader's lock, some continuation closes the reader's descriptor while it reads
      if and only if a thread that does not wait for the reader owes that close. */
  lemma PopLosesIff(s: State, e: Event, t: nat, pin: Pin)
    requires Inv(s) && Enabled(s, e) && IsReading(s, t, pin) && PopsLock(s, e, pin) && OwnCloserWaits(s, pin)
    ensures CanLose(Apply(s, e), t, pin) <==> Exposed(Apply(s, e), pin)
  {
    hide Inv, Apply, Enabled, Exposed, Dropped, PopsLock, OwnCloserWaits;
    AfterPop(s, e, t, pin);
    var u := Apply(s, e);
    if Exposed(u, pin) {
      ExposedCanLose(u, t, pin);
    } else {
      NotExposedIsSpared(u, pin);
      forall es ensures !CloseFollows(u, t, pin, es) {
        SparedIsKept(u, t, pin, es);
      }
    }
  }

  lemma {:induction false} LossNeedsPop(s: State, t: nat, pin: Pin, es: seq<Event>)
    requires Inv(s) && IsCurrent(s, pin) && OwnCloserWaits(s, pin) && CloseFollows(s, t, pin, es)
    ensures exists fs :: PopFollows(s, t, pin, fs)
    decreases |es|
  {
    hide Inv, Apply, FileEnabled, PlainEnabled, ReadEnabled, CloseEnabled, ConnectEnabled, Exposed, PopsLock, OwnCloserWaits, Closes,
      IsReading, IsCurrent;
    var e := es[0];
    if PopsLock(s, e, pin) {
      PopSpares(s, e, t, pin);
      PopLosesIff(s, e, t, pin);
      assert CloseFollows(Apply(s, e), t, pin, es[1..]);
      assert PopFollows(s, t, pin, [e]);
    } else {
      StaysCurrent(s, e, Apply(s, e), Closes(s, e), t, pin);
      StillWaits(s, e, t, pin);
      StepKeeps(s, e);
      LossNeedsPop(Apply(s, e), t, pin, es[1..]);
      var fs :| PopFollows(Apply(s, e), t, pin, fs);
      assert ([e] + fs)[1..] == fs;
      assert PopFollows(s, t, pin, [e] + fs);
    }
  }

  lemma {:induction false} PopLoses(s: State, t: nat, pin: Pin, fs: seq<Event>)
    requires Inv(s) && IsCurrent(s, pin) && OwnCloserWaits(s, pin) && PopFollows(s, t, pin, fs)
    ensures CanLose(s, t, pin)
    decreases |fs|
  {
    hide Inv, Apply, FileEnabled, PlainEnabled, ReadEnabled, CloseEnabled, ConnectEnabled, Exposed, PopsLock, OwnCloserWaits, Closes,
      IsReading, IsCurrent, CanLose;
    var e := fs[0];
    if |fs| == 1 {
      PopLosesIff(s, e, t, pin);
    } else {
      StillWaits(s, e, t, pin);
      StepKeeps(s, e);
      if PopsLock(s, e, pin) {
        PopTwice(Apply(s, e), t, pin, fs[1..], s, e);
      } else {
        StaysCurrent(s, e, Apply(s, e), Closes(s, e), t, pin);
      }
      PopLoses(Apply(s, e), t, pin, fs[1..]);
    }
    Prepended(s, t, pin, e);
  }

  /** A reader's lock is dropped once at most. */
  lemma PopTwice(u: State, t: nat, pin: Pin, fs: seq<Event>, s: State, e: Event)
    requires Inv(s) && Enabled(s, e) && IsReading(s, t, pin) && PopsLock(s, e, pin) && u == Apply(s, e)
    requires OwnCloserWaits(s, pin)
    ensures !PopFollows(u, t, pin, fs)
  {
    hide Inv, Apply, Enabled, PopsLock, OwnCloserWaits;
    AfterPop(s, e, t, pin);
    NotCurrent(u, pin);
    NeverPops(u, t, pin, fs);
  }

  lemma NotCurrent(u: State, pin: Pin)
    requires Dropped(u, pin)
    ensures !IsCurrent(u, pin)
  {
    assert pin.key in u.c.inodeLocks ==> u.c.inodeLocks[pin.key] in u.c.inodeLocks.Values;
  }

  lemma {:induction false} NeverPops(s: State, t: nat, pin: Pin, fs: seq<Event>)
    requires Inv(s) && !IsCurrent(s, pin)
    ensures !PopFollows(s, t, pin, fs)
    decreases |fs|
  {
    hide Inv, Apply, Enabled, Exposed, IsCurrent, Closes;
    if PopFollows(s, t, pin, fs) {
      StepKeeps(s, fs[0]);
      NeverAgain(s, fs[0], t, pin);
      if |fs| > 1 {
        NeverPops(Apply(s, fs[0]), t, pin, fs[1..]);
      }
    }
  }

  /**
   Over every run: a reader that has its inode's lock can lose its descriptor while it reads if and only if some
   continuation has another close drop that lock and leaves the descriptor owed a close by a thread that does not
   wait for the reader.
   */
  lemma ReaderLosesIff(r: seq<State>, es: seq<Event>, n: nat, t: nat, pin: Pin)
    requires Run(r, es) && n < |r| && IsReading(r[n], t, pin) && IsCurrent(r[n], pin)
    ensures CanLose(r[n], t, pin) <==> exists fs :: PopFollows(r[n], t, pin, fs)
  {
    hide Run, Inv, IsCurrent, OwnCloserWaits, IsReading, CloseFollows, PopFollows;
    RunKeeps(r, es, n);
    WaitsAlongRun(r, es, n, t, pin);
    if CanLose(r[n], t, pin) {
      var fs :| CloseFollows(r[n], t, pin, fs);
      LossNeedsPop(r[n], t, pin, fs);
    }
    if fs :| PopFollows(r[n], t, pin, fs) {
      PopLoses(r[n], t, pin, fs);
    }
  }

  /** The same from the moment another close has dropped the reader's lock: all depends on who owes the close. */
  lemma UnlockedReaderLosesIff(r: seq<State>, es: seq<Event>, n: nat, t: nat, pin: Pin)
    requires Run(r, es) && n < |es| && IsReading(r[n], t, pin) && PopsLock(r[n], es[n], pin)
    ensures CanLose(r[n + 1], t, pin) <==> Exposed(r[n + 1], pin)
  {
    hide Enabled, Apply, Inv, IsReading, CanLose, Exposed, OwnCloserWaits, CloseEnabled, StaleFate;
    RunKeeps(r, es, n);
    WaitsAlongRun(r, es, n, t, pin);
    PopLosesIff(r[n], es[n], t, pin);
  }

  // ---- What a read sees --------------------------------------------------------------

  ghost predicate ClosesFd(s: State, e: Event, fd: nat) {
    Enabled(s, e) && Closes(s, e).Some? && Closes(s, e).value.fd == fd
  }

  ghost predicate IsOpen(s: State, pin: Pin) {
    pin.fd in s.open && s.open[pin.fd] == pin.inst
  }

  lemma OpenUnlessClosed(s: State, e: Event, u: State, pin: Pin)
    requires Enabled(s, e) && u == Apply(s, e) && IsOpen(s, pin)
    requires Inv(s)
    ensures IsOpen(u, pin) <==> !ClosesFd(s, e, pin.fd)
  {
    hide Inv, FileEnabled, PlainEnabled, ReadEnabled, CloseEnabled, ConnectEnabled, Apply, Closes;
    StepShape(s, e);
  }

  lemma StartsOpen(r: seq<State>, es: seq<Event>, n: nat, t: nat, pin: Pin)
    requires Run(r, es) && 0 < n < |r| && IsReading(r[n], t, pin) && !IsReading(r[n - 1], t, pin)
    ensures IsOpen(r[n], pin)
  {
    hide Enabled, Apply, ClosingChange, PinChange, MapsAgree, Accounted, HoldsCounted, WorldOk, ConnsOk, LocksOk, StalesDistinct;
    var s, e := r[n - 1], es[n - 1];
    RunKeeps(r, es, n - 1);
    RunKeeps(r, es, n);
    StepActor(s, e);
    if !IsFileEvent(e) {
      StepChange(s, e);
    }
    assert ReadingChange(s, e, r[n], t);
    assert PinOk(pin, r[n].c.inodeLocks, r[n].open, r[n].num);
  }

  lemma {:induction false} OpenUntilClosed(r: seq<State>, es: seq<Event>, n: nat, t: nat, pin: Pin)
    requires Run(r, es) && n < |r| && IsReading(r[n], t, pin)
    requires forall k :: 0 <= k < n && IsReading(r[k], t, pin) ==> !ClosesFd(r[k], es[k], pin.fd)
    ensures IsOpen(r[n], pin)
  {
    hide Enabled, Apply, Inv, IsOpen, ClosesFd;
    assert n > 0;
    if IsReading(r[n - 1], t, pin) {
      OpenUntilClosed(r, es, n - 1, t, pin);
      RunKeeps(r, es, n - 1);
      OpenUnlessClosed(r[n - 1], es[n - 1], r[n], pin);
    } else {
      StartsOpen(r, es, n, t, pin);
    }
  }

  /** A reader takes no part in closing. */
  lemma CloserIsAnother(s: State, e: Event, t: nat, pin: Pin)
    requires Enabled(s, e) && ClosesFd(s, e, pin.fd) && IsReading(s, t, pin)
    requires Inv(s)
    ensures IsReading(Apply(s, e), t, pin)
  {
    hide MapsAgree, Accounted, HoldsCounted, WorldOk, ConnsOk, PinsOk, StalesDistinct, Apply, NamesNumbered, FileEnabled, PlainEnabled,
      ReadEnabled, ConnectEnabled, EvictIdle, StaleFate;
    StepActor(s, e);
    assert ThreadOk(s.threads[t], s.c.nextLock) && ThreadOk(s.threads[e.t], s.c.nextLock);
  }

  /** Over every run: while a thread reads, its descriptor is open on the instance it resolved if and only if no event has
      closed that descriptor during the read. */
  lemma ReadKeepsFileIff(r: seq<State>, es: seq<Event>, n: nat, t: nat, pin: Pin)
    requires Run(r, es) && n < |r| && IsReading(r[n], t, pin)
    ensures (forall k :: 0 <= k <= n && IsReading(r[k], t, pin) ==> IsOpen(r[k], pin))
            <==> (forall k :: 0 <= k < n && IsReading(r[k], t, pin) ==> !ClosesFd(r[k], es[k], pin.fd))
  {
    hide Enabled, Apply, Inv, IsOpen, ClosesFd;
    if forall k :: 0 <= k < n && IsReading(r[k], t, pin) ==> !ClosesFd(r[k], es[k], pin.fd) {
      forall k | 0 <= k <= n && IsReading(r[k], t, pin) ensures IsOpen(r[k], pin) { OpenUntilClosed(r, es, k, t, pin); }
    }
    if forall k :: 0 <= k <= n && IsReading(r[k], t, pin) ==> IsOpen(r[k], pin) {
      forall k | 0 <= k < n && IsReading(r[k], t, pin) ensures !ClosesFd(r[k], es[k], pin.fd) {
        if ClosesFd(r[k], es[k], pin.fd) {
          RunKeeps(r, es, k);
          CloserIsAnother(r[k], es[k], t, pin);
          OpenUnlessClosed(r[k], es[k], r[k + 1], pin);
        }
      }
    }
  }

  /** Cached hits, fresh opens and files replaced between the stat and the open alike: a reader whose descriptor has not
      been closed under it reads an inode instance that its path named at some moment of the call. */
  lemma ReadSeesNamedUnlessClosed(r: seq<State>, es: seq<Event>, n: nat, t: nat, pin: Pin)
    requires Run(r, es) && n < |r| && IsReading(r[n], t, pin)
    requires forall k :: 0 <= k < n && IsReading(r[k], t, pin) ==> !ClosesFd(r[k], es[k], pin.fd)
    ensures IsOpen(r[n], pin) && NamedWithin(r, n, t, r[n].threads[t].path, r[n].open[pin.fd])
  {
    hide Enabled, Apply, Inv, ClosesFd;
    OpenUntilClosed(r, es, n, t, pin);
    PinWasNamed(r, es, n, t);
  }
}
