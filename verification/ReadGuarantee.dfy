/**
 Reading through the cache is open-read-close: from revalidation to the release of its lock a
 reader has an open descriptor on the inode instance its path named at some moment of the call.
 */
module ReadGuarantee {
  import opened Basics
  import opened CacheModel
  import opened CacheInvariant
  import opened CacheSystem
  import opened SystemInvariant
  import opened SystemSteps
  import opened ThreadSteps
  import opened HoldSteps
  import opened CacheRuns
  import opened CacheSafety
  import opened CacheReaders

  // ---- What a step does to the thread that takes it ----------------------------------

  /** A close under way is the one that was under way, or has just looked its lock up. */
  ghost predicate ClosingChange(s: State, e: Event, th: Thread, t: nat) {
    th.stale != [] && th.closing != NotClosing ==>
      t in s.threads && s.threads[t].stale == th.stale
      && ((s.threads[t].closing != NotClosing && s.threads[t].closing.lock == th.closing.lock)
          || th.closing.lock == LockFor(s.c, th.stale[0].key).1)
  }

  /** A pin comes from a section that found the path naming its instance, and is kept through the call. */
  ghost predicate PinChange(s: State, e: Event, th: Thread, t: nat) {
    HasPin(th.phase) ==>
      t in s.threads && s.threads[t].path == th.path
      && ((HasPin(s.threads[t].phase) && s.threads[t].phase.pin == th.phase.pin)
          || ((s.threads[t].phase == Want || s.threads[t].phase == Opening)
              && th.path in s.names && s.names[th.path] == th.phase.pin.inst))
  }

  /** The pin's lock is its inode's current lock. */
  ghost predicate IsCurrent(s: State, pin: Pin) {
    pin.key in s.c.inodeLocks && s.c.inodeLocks[pin.key] == pin.lock
  }

  /** A reader starts reading only when its descriptor and lock are still its inode's. */
  ghost predicate ReadingChange(s: State, e: Event, u: State, t: nat)
    requires t in u.threads
  {
    u.threads[t].phase.Reading? ==>
      var pin := u.threads[t].phase.pin;
      t in s.threads
      && (s.threads[t].phase == Reading(pin)
          || (PinnedAs(u.c, pin.key, pin.fd) && IsCurrent(u, pin)))
  }

  ghost predicate ActorChange(s: State, e: Event, u: State, t: nat) {
    && t in u.threads
    && ClosingChange(s, e, u.threads[t], t) && PinChange(s, e, u.threads[t], t) && ReadingChange(s, e, u, t)
  }

  /** A thread whose new phase pins nothing and that closes nothing. */
  lemma QuietActor(s: State, e: Event, u: State, t: nat)
    requires t in u.threads && !HasPin(u.threads[t].phase)
    requires u.threads[t].stale == [] || u.threads[t].closing == NotClosing
    ensures ActorChange(s, e, u, t)
  {
  }

  lemma PinnedActor(s: State, e: Event, v: State, t: nat, p: Pinned, key: Key, inst: nat)
    requires At(s, t) && (s.threads[t].phase == Want || s.threads[t].phase == Opening) && v.threads == s.threads
    requires s.threads[t].closing == NotClosing && s.threads[t].path in s.names && s.names[s.threads[t].path] == inst
    ensures ActorChange(s, e, AfterPin(v, t, p, key, inst), t)
  {
  }

  lemma StatChange(s: State, e: Event, t: nat)
    requires NamesNumbered(s) && At(s, t) && s.threads[t].phase == Want && s.threads[t].closing == NotClosing
    ensures ActorChange(s, e, DoStat(s, t), t)
  {
    hide PinHit, ActorChange, AfterPin;
    var path := s.threads[t].path;
    if path in s.names && s.num[s.names[path]] in s.c.fds {
      var key := s.num[s.names[path]];
      PinnedActor(s, e, s, t, PinHit(s.c, path, key), key, s.names[path]);
    } else {
      UnpinnedStat(s, t);
      QuietActor(s, e, DoStat(s, t), t);
    }
  }

  lemma UnpinnedStat(s: State, t: nat)
    requires NamesNumbered(s) && t in s.threads
    requires s.threads[t].path in s.names ==> s.num[s.names[s.threads[t].path]] !in s.c.fds
    ensures var u := DoStat(s, t);
            t in u.threads && !HasPin(u.threads[t].phase) && u.threads[t].stale == s.threads[t].stale
  {
    hide PinHit, AfterPin, SetPhase, FreesSlot;
    Moved(s, t, Idle);
    Moved(s, t, Opening);
    Moved(s, t, Snapshot);
    Moved(s, t, Phase.Evict);
  }

  lemma Moved(s: State, t: nat, phase: Phase)
    requires t in s.threads
    ensures SetPhase(s, t, phase).threads == s.threads[t := s.threads[t].(phase := phase)]
  {
  }

  lemma OpenChange(s: State, e: Event, t: nat, fd: nat)
    requires NamesNumbered(s) && At(s, t) && s.threads[t].phase == Opening && s.threads[t].closing == NotClosing
    ensures ActorChange(s, e, DoOpen(s, t, fd), t)
  {
    hide PinOpened, ActorChange, AfterPin;
    var path := s.threads[t].path;
    if path in s.names {
      var key := s.num[s.names[path]];
      PinnedActor(s, e, s.(mapOwner := None, open := s.open[fd := s.names[path]]), t,
                  PinOpened(s.c, path, fd, key), key, s.names[path]);
    } else {
      QuietActor(s, e, DoOpen(s, t, fd), t);
    }
  }

  lemma ValidActor(s: State, e: Event, u: State, t: nat, pin: Pin)
    requires At(s, t) && s.threads[t].phase == Check(pin) && s.threads[t].closing == NotClosing
    requires t in u.threads && u.threads[t] == s.threads[t].(phase := Reading(pin))
    requires PinnedAs(u.c, pin.key, pin.fd) && IsCurrent(u, pin)
    ensures ActorChange(s, e, u, t)
  {
  }

  lemma RevalidateChange(s: State, e: Event, t: nat)
    requires At(s, t) && s.threads[t].phase.Check? && s.threads[t].closing == NotClosing
    ensures ActorChange(s, e, DoRevalidate(s, t), t)
  {
    hide MarkRead, ActorChange;
    var pin := s.threads[t].phase.pin;
    MarkReadFields(s.c, pin.key);
    if DoRevalidate(s, t).threads[t].phase.Reading? {
      ValidActor(s, e, DoRevalidate(s, t), t, pin);
    } else {
      QuietActor(s, e, DoRevalidate(s, t), t);
    }
  }

  lemma ReadStepChange(s: State, e: Event)
    requires NamesNumbered(s) && IsReadStep(e) && ReadEnabled(s, e)
    requires s.threads[e.t].closing == NotClosing
    ensures ActorChange(s, e, ApplyRead(s, e), e.t)
  {
    hide DoStat, DoOpen, DoRevalidate, ActorChange;
    match e
    case StatPath(t) => StatChange(s, e, t);
    case OpenPath(t, fd) => OpenChange(s, e, t, fd);
    case TakeLock(t) => LockChange(s, e, t);
    case Revalidate(t) => RevalidateChange(s, e, t);
    case FinishRead(t) => QuietActor(s, e, ApplyRead(s, e), t);
  }

  lemma LockChange(s: State, e: Event, t: nat)
    requires At(s, t) && s.threads[t].phase.Acquire? && s.threads[t].closing == NotClosing
    ensures var pin := s.threads[t].phase.pin;
            ActorChange(s, e, SetPhase(s.(owner := s.owner[pin.lock := t]), t, Check(pin)), t)
  {
  }

  lemma LookUpChange(s: State, e: Event, t: nat)
    requires t in s.threads && s.threads[t].stale != [] && !s.threads[t].phase.Reading?
    ensures var (c, lock) := LockFor(s.c, s.threads[t].stale[0].key);
            ActorChange(s, e, SetThread(s.(c := c), t, s.threads[t].(closing := LookedUp(lock))), t)
  {
  }

  lemma TakeChange(s: State, e: Event, t: nat)
    requires t in s.threads && s.threads[t].stale != [] && s.threads[t].closing.LookedUp? && !s.threads[t].phase.Reading?
    ensures var lock := s.threads[t].closing.lock;
            ActorChange(s, e, SetThread(s.(owner := s.owner[lock := t]), t, s.threads[t].(closing := Locked(lock))), t)
  {
  }

  lemma DecideChange(s: State, e: Event, t: nat)
    requires t in s.threads && s.threads[t].stale != [] && s.threads[t].closing.Locked? && !s.threads[t].phase.Reading?
    ensures ActorChange(s, e, DoCloseDecide(s, t), t)
  {
    hide CloseStale, StaleFate;
  }

  lemma CloseStepChange(s: State, e: Event)
    requires IsCloseStep(e) && CloseEnabled(s, e)
    requires s.threads[e.t].stale == [] ==> s.threads[e.t].closing == NotClosing
    requires s.threads[e.t].stale != [] ==> !s.threads[e.t].phase.Reading?
    ensures ActorChange(s, e, ApplyClose(s, e), e.t)
  {
    hide DoForget, DoEvict, DoCloseDecide, ForgetDead, EvictIdle, ActorChange, LockFor;
    match e
    case CloseLookUp(t) => LookUpChange(s, e, t);
    case CloseTakeLock(t) => TakeChange(s, e, t);
    case CloseDecide(t) => DecideChange(s, e, t);
    case ForgetPaths(t) =>
      ForgetShape(s, t);
      QuietActor(s, e, DoForget(s, t), t);
    case EvictNow(t, named) =>
      EvictStateShape(s, t, named);
      QuietActor(s, e, DoEvict(s, t, named), t);
  }

  lemma ConnectStepChange(s: State, e: Event)
    requires NamesNumbered(s) && IsConnectStep(e) && ConnectEnabled(s, e)
    ensures ActorChange(s, e, ApplyConnect(s, e), e.t)
  {
    hide DoTakeHold, DoCount, TakeHold, CompleteHold, ActorChange;
    match e {
      case TakeHoldNow(t, _) => TakeHoldShape(s, t, e.hold);
      case CountAfter(t) => CountShape(s, t);
      case _ =>
    }
    QuietActor(s, e, ApplyConnect(s, e), e.t);
  }

  lemma PlainStepChange(s: State, e: Event)
    requires IsPlainStep(e) && PlainEnabled(s, e)
    ensures ActorChange(s, e, ApplyPlain(s, e), e.t)
  {
    hide ActorChange, Lists, NamesNumbered, DoProbe;
    if e.ProbeNext? {
      ProbeFields(s, e.t);
    }
    QuietActor(s, e, ApplyPlain(s, e), e.t);
  }

  lemma StepChange(s: State, e: Event)
    requires Inv(s) && Enabled(s, e) && !IsFileEvent(e)
    ensures ActorChange(s, e, Apply(s, e), e.t)
  {
    hide ActorChange, ApplyFile, ApplyPlain, ApplyRead, ApplyClose, ApplyConnect, MapsAgree, Accounted, HoldsCounted,
      WorldOk, ConnsOk, LocksOk, PinsOk, StalesDistinct;
    if IsPlainStep(e) {
      PlainStepChange(s, e);
    } else if IsReadStep(e) {
      ThreadFacts(s, e.t);
      ReadStepChange(s, e);
    } else if IsCloseStep(e) {
      ThreadFacts(s, e.t);
      CloseStepChange(s, e);
    } else {
      ConnectStepChange(s, e);
    }
  }

  // ---- One retired descriptor per inode ----------------------------------------------

  /** At most one retired descriptor of each inode is waiting to be closed. */
  ghost predicate OneRetired(s: State) {
    forall x, y :: x in Flight(s.threads) && y in Flight(s.threads) && x.key == y.key ==> x == y
  }

  /** The lock of a revalidated reader is its inode's current lock. */
  ghost predicate ReadersLocked(s: State) {
    forall t :: t in s.threads && s.threads[t].phase.Reading? ==> IsCurrent(s, s.threads[t].phase.pin)
  }

  ghost predicate Meets(s: State, t: nat, u: nat)
    requires t in s.threads && u in s.threads && s.threads[t].phase.Reading?
  {
    var pin, th := s.threads[t].phase.pin, s.threads[u];
    th.stale != [] && th.closing != NotClosing && th.stale[0].key == pin.key ==>
      th.closing.lock == pin.lock || pin.key in s.c.fds
  }

  /** Whoever is closing a descriptor of the inode being read waits for the reader's lock, unless
      the inode is pinned, in which case it will not close. */
  ghost predicate ClosersMeet(s: State) {
    forall t, u :: t in s.threads && u in s.threads && s.threads[t].phase.Reading? ==> Meets(s, t, u)
  }

  /** A reader and a closer about to decide have different locks. */
  lemma CloserHasAnotherLock(s: State, t: nat, u: nat)
    requires LocksOk(s.threads, s.owner, s.mapOwner, s.c.nextLock)
    requires t in s.threads && s.threads[t].phase.Reading? && u in s.threads
    requires s.threads[u].stale != [] && s.threads[u].closing.Locked?
    ensures s.threads[u].closing.lock != s.threads[t].phase.pin.lock
  {
    assert ThreadOk(s.threads[t], s.c.nextLock) && u != t;
    var mine, theirs := s.threads[t].phase.pin.lock, s.threads[u].closing.lock;
    assert Owns(s.threads[t], mine) && Owns(s.threads[u], theirs);
    assert s.owner[mine] == t && s.owner[theirs] == u;
  }

  lemma NoDecideUnderReader(s: State, t: nat, u: nat)
    requires LocksOk(s.threads, s.owner, s.mapOwner, s.c.nextLock)
    requires t in s.threads && s.threads[t].phase.Reading? && u in s.threads && Meets(s, t, u)
    requires s.threads[u].stale != [] && s.threads[u].closing.Locked?
    requires StaleFate(s.c, s.threads[u].stale[0]) == Closed
    ensures s.threads[u].stale[0].key != s.threads[t].phase.pin.key
  {
    CloserHasAnotherLock(s, t, u);
  }

  lemma NoEvictUnderReader(s: State, t: nat, u: nat, named: map<Path, Key>)
    requires Inv(s) && Enabled(s, EvictNow(u, named)) && Closes(s, EvictNow(u, named)).Some?
    requires t in s.threads && s.threads[t].phase.Reading? && IsCurrent(s, s.threads[t].phase.pin)
    ensures Closes(s, EvictNow(u, named)).value.key != s.threads[t].phase.pin.key
  {
    hide MapsAgree, Accounted, HoldsCounted, WorldOk, ConnsOk, PinsOk, StalesDistinct, EvictIdle;
    EvictCloses(s, u, named);
    assert Owns(s.threads[t], s.threads[t].phase.pin.lock);
  }

  lemma NoCloseUnderReader(s: State, e: Event, t: nat)
    requires Enabled(s, e) && Closes(s, e).Some? && t in s.threads && s.threads[t].phase.Reading?
    requires Inv(s) && ReadersLocked(s) && ClosersMeet(s)
    ensures Closes(s, e).value.key != s.threads[t].phase.pin.key
  {
    hide MapsAgree, Accounted, HoldsCounted, WorldOk, ConnsOk, LocksOk, PinsOk, StalesDistinct, EvictIdle, Meets, StaleFate;
    match e
    case CloseDecide(u) => NoDecideUnderReader(s, t, u);
    case EvictNow(u, named) => NoEvictUnderReader(s, t, u, named);
    case _ =>
  }

  ghost predicate NewlyRetired(s: State, u: State, key: Key) {
    exists x :: x in Flight(u.threads) && x !in Flight(s.threads) && x.key == key
  }

  /** A pinned inode leaves the map only by being closed or by a new retirement in flight. */
  lemma UnpinnedIsRetired(s: State, u: State, closed: Option<Stale>, key: Key)
    requires Accounted(s.c.fds, s.c.raceLosers, s.open, s.num, Flight(s.threads))
    requires Accounted(u.c.fds, u.c.raceLosers, u.open, u.num, Flight(u.threads))
    requires DescriptorShape(s, u, closed) && key in s.c.fds && key !in u.c.fds
    requires closed.Some? ==> closed.value.fd in s.open && s.num[s.open[closed.value.fd]] == closed.value.key
    ensures (closed.Some? && closed.value.key == key) || NewlyRetired(s, u, key)
  {
    var fd := s.c.fds[key];
    if closed.None? || closed.value.fd != fd {
      assert fd in u.open && u.open[fd] == s.open[fd] && u.num[u.open[fd]] == key;
      assert fd !in u.c.raceLosers;
      assert Stale(key, fd) in Flight(u.threads) && Stale(key, fd) !in Flight(s.threads);
    }
  }

  // ---- The readers' condition is kept ------------------------------------------------

  lemma ReaderStaysLocked(s: State, u: State, closed: Option<Stale>, pin: Pin)
    requires IsCurrent(s, pin) && DescriptorShape(s, u, closed) && (closed.Some? ==> closed.value.key != pin.key)
    ensures IsCurrent(u, pin)
  {
  }

  /** A close that was under way against a reader's inode still meets the reader. */
  lemma CloserStillMeets(s: State, u: State, closed: Option<Stale>, t: nat, v: nat)
    requires OneRetired(u) && DescriptorShape(s, u, closed)
    requires Accounted(s.c.fds, s.c.raceLosers, s.open, s.num, Flight(s.threads))
    requires Accounted(u.c.fds, u.c.raceLosers, u.open, u.num, Flight(u.threads))
    requires closed.Some? ==> closed.value.fd in s.open && s.num[s.open[closed.value.fd]] == closed.value.key
    requires t in s.threads && t in u.threads && s.threads[t].phase.Reading? && u.threads[t].phase == s.threads[t].phase
    requires closed.Some? ==> closed.value.key != s.threads[t].phase.pin.key
    requires v in s.threads && v in u.threads && Meets(s, t, v)
    requires u.threads[v].stale == s.threads[v].stale && s.threads[v].closing != NotClosing
    requires u.threads[v].closing != NotClosing && u.threads[v].closing.lock == s.threads[v].closing.lock
    ensures Meets(u, t, v)
  {
    var pin, th := s.threads[t].phase.pin, s.threads[v];
    if th.stale != [] && th.stale[0].key == pin.key && pin.key in s.c.fds && pin.key !in u.c.fds {
      assert th.stale[0] in s.threads[v].stale && th.stale[0] in u.threads[v].stale;
      assert th.stale[0] in Flight(s.threads) && th.stale[0] in Flight(u.threads);
      UnpinnedIsRetired(s, u, closed, pin.key);
    }
  }

  lemma ReaderLockedAfter(s: State, e: Event, u: State, closed: Option<Stale>, t: nat)
    requires DescriptorShape(s, u, closed) && ReadersLocked(s) && t in u.threads && u.threads[t].phase.Reading?
    requires if IsFileEvent(e) then u.threads == s.threads else OnlyActor(s, u, e.t) && ActorChange(s, e, u, e.t)
    requires closed.Some? && t in s.threads && s.threads[t].phase.Reading? ==> closed.value.key != s.threads[t].phase.pin.key
    ensures IsCurrent(u, u.threads[t].phase.pin)
  {
    hide DescriptorShape, ClosingChange, PinChange;
    var pin := u.threads[t].phase.pin;
    if t in s.threads && s.threads[t].phase == Reading(pin) {
      ReaderStaysLocked(s, u, closed, pin);
    }
  }

  /** What is known about a step from `s` to `u` that the readers' condition needs. */
  ghost predicate StepFacts(s: State, e: Event, u: State, closed: Option<Stale>) {
    && Accounted(s.c.fds, s.c.raceLosers, s.open, s.num, Flight(s.threads))
    && Accounted(u.c.fds, u.c.raceLosers, u.open, u.num, Flight(u.threads))
    && DescriptorShape(s, u, closed)
    && (if IsFileEvent(e) then u.threads == s.threads else OnlyActor(s, u, e.t) && ActorChange(s, e, u, e.t))
    && (closed.Some? ==> closed.value.fd in s.open && s.num[s.open[closed.value.fd]] == closed.value.key)
    && (closed.Some? ==> forall t :: t in s.threads && s.threads[t].phase.Reading? ==>
                                       closed.value.key != s.threads[t].phase.pin.key)
  }

  lemma CloserMeetsAfter(s: State, e: Event, u: State, closed: Option<Stale>, t: nat, v: nat)
    requires StepFacts(s, e, u, closed) && OneRetired(u) && ReadersLocked(s) && ClosersMeet(s)
    requires t in u.threads && v in u.threads && u.threads[t].phase.Reading?
    ensures Meets(u, t, v)
  {
    hide Accounted, DescriptorShape, OneRetired, PinChange;
    var pin, th := u.threads[t].phase.pin, u.threads[v];
    if t in s.threads && s.threads[t].phase == Reading(pin) && th.stale != [] && th.closing != NotClosing {
      assert v in s.threads && s.threads[v].stale == th.stale;
      if s.threads[v].closing != NotClosing && s.threads[v].closing.lock == th.closing.lock {
        CloserStillMeets(s, u, closed, t, v);
      }
    }
  }

  lemma ReadersAfter(s: State, e: Event, u: State, closed: Option<Stale>)
    requires StepFacts(s, e, u, closed) && OneRetired(u) && ReadersLocked(s) && ClosersMeet(s)
    ensures ReadersLocked(u) && ClosersMeet(u)
  {
    forall t | t in u.threads && u.threads[t].phase.Reading?
      ensures IsCurrent(u, u.threads[t].phase.pin)
    {
      hide Accounted, DescriptorShape, OneRetired, ClosersMeet, ActorChange, OnlyActor, ReadersLocked;
      ReaderLockedAfter(s, e, u, closed, t);
    }
    forall t, v | t in u.threads && v in u.threads && u.threads[t].phase.Reading? ensures Meets(u, t, v) {
      CloserMeetsAfter(s, e, u, closed, t, v);
    }
  }

  lemma GatherFacts(s: State, e: Event)
    requires Enabled(s, e) && Inv(s) && ReadersLocked(s) && ClosersMeet(s)
    ensures StepFacts(s, e, Apply(s, e), Closes(s, e))
  {
    hide MapsAgree, HoldsCounted, WorldOk, ConnsOk, LocksOk, PinsOk, StalesDistinct, Accounted, DescriptorShape,
      FileEnabled, PlainEnabled, ReadEnabled, CloseEnabled, ConnectEnabled, Apply, Closes, ReadersLocked, ClosersMeet,
      ActorChange, OnlyActor;
    StepKeeps(s, e);
    StepShape(s, e);
    StepActor(s, e);
    if !IsFileEvent(e) {
      StepChange(s, e);
    }
    if Closes(s, e).Some? {
      ClosesOpen(s, e);
      forall t | t in s.threads && s.threads[t].phase.Reading?
        ensures Closes(s, e).value.key != s.threads[t].phase.pin.key
      {
        NoCloseUnderReader(s, e, t);
      }
    }
  }

  lemma {:induction false} ReadersAlongRun(r: seq<State>, es: seq<Event>, n: nat)
    requires Run(r, es) && n < |r| && forall k :: 0 <= k <= n ==> OneRetired(r[k])
    ensures ReadersLocked(r[n]) && ClosersMeet(r[n])
  {
    hide FileEnabled, PlainEnabled, ReadEnabled, CloseEnabled, ConnectEnabled, Apply, OneRetired, Inv, StepFacts;
    if n > 0 {
      ReadersAlongRun(r, es, n - 1);
      RunKeeps(r, es, n - 1);
      GatherFacts(r[n - 1], es[n - 1]);
      ReadersAfter(r[n - 1], es[n - 1], r[n], Closes(r[n - 1], es[n - 1]));
    }
  }

  // ---- Exactly when readers are protected --------------------------------------------

  /** A close drops the lock its inode has now, although the closer holds another one and a reader is
      reading under the dropped lock. */
  ghost predicate PopsReadersLock(s: State, e: Event) {
    && e.CloseDecide? && CloseEnabled(s, e)
    && var th := s.threads[e.t];
       var key := th.stale[0].key;
       && StaleFate(s.c, th.stale[0]) == Closed
       && key in s.c.inodeLocks && s.c.inodeLocks[key] != th.closing.lock
       && exists t :: t in s.threads && s.threads[t].phase.Reading? && s.threads[t].phase.pin.lock == s.c.inodeLocks[key]
  }

  /** The reader's descriptor is open on the instance it resolved, and it has its inode's current lock. */
  ghost predicate Protected(s: State, t: nat)
    requires t in s.threads && s.threads[t].phase.Reading?
  {
    var pin := s.threads[t].phase.pin;
    && pin.fd in s.open && s.open[pin.fd] == pin.inst
    && IsCurrent(s, pin)
    && pin.lock in s.owner && s.owner[pin.lock] == t
  }

  ghost predicate AllProtected(s: State) {
    forall t :: t in s.threads && s.threads[t].phase.Reading? ==> Protected(s, t)
  }

  lemma LockedIsProtected(s: State)
    requires Inv(s)
    ensures ReadersLocked(s) <==> AllProtected(s)
  {
    hide MapsAgree, Accounted, HoldsCounted, WorldOk, ConnsOk, StalesDistinct;
    if ReadersLocked(s) {
      forall t | t in s.threads && s.threads[t].phase.Reading? ensures Protected(s, t) {
        assert Owns(s.threads[t], s.threads[t].phase.pin.lock);
      }
    } else {
      var t :| t in s.threads && s.threads[t].phase.Reading? && !IsCurrent(s, s.threads[t].phase.pin);
      assert !Protected(s, t);
    }
  }

  /** A close of the inode a protected reader reads drops that reader's lock. */
  lemma CloseUnderReaderPops(s: State, e: Event, x: Stale, t: nat)
    requires Enabled(s, e) && Closes(s, e) == Some(x) && t in s.threads && s.threads[t].phase.Reading?
    requires x.key == s.threads[t].phase.pin.key && IsCurrent(s, s.threads[t].phase.pin)
    requires Inv(s)
    ensures PopsReadersLock(s, e)
  {
    hide MapsAgree, Accounted, HoldsCounted, WorldOk, ConnsOk, LocksOk, PinsOk, StalesDistinct, EvictIdle, StaleFate;
    match e
    case CloseDecide(u) => CloserHasAnotherLock(s, t, u);
    case EvictNow(u, named) => NoEvictUnderReader(s, t, u, named);
    case _ =>
  }

  lemma PopUnprotects(s: State, e: Event)
    requires Inv(s) && Enabled(s, e) && ReadersLocked(s) && PopsReadersLock(s, e)
    ensures !ReadersLocked(Apply(s, e))
  {
    hide Accounted, HoldsCounted, WorldOk, ConnsOk, PinsOk, LocksOk, StalesDistinct, ReadersLocked;
    var u := e.t;
    var key := s.threads[u].stale[0].key;
    var t :| t in s.threads && s.threads[t].phase.Reading? && s.threads[t].phase.pin.lock == s.c.inodeLocks[key];
    UnlockedBy(s, t, key);
    ReaderIsNoCloser(s, t, u);
    assert Apply(s, e).threads[t] == s.threads[t] && key !in Apply(s, e).c.inodeLocks;
    UnlockedReader(Apply(s, e), t);
  }

  lemma UnlockedReader(u: State, t: nat)
    requires t in u.threads && u.threads[t].phase.Reading? && u.threads[t].phase.pin.key !in u.c.inodeLocks
    ensures !ReadersLocked(u)
  {
  }

  /** No two inodes share a lock. */
  lemma UnlockedBy(s: State, t: nat, key: Key)
    requires MapsAgree(s.c) && ReadersLocked(s) && t in s.threads && s.threads[t].phase.Reading?
    requires key in s.c.inodeLocks && s.threads[t].phase.pin.lock == s.c.inodeLocks[key]
    ensures s.threads[t].phase.pin.key == key
  {
  }

  lemma ReaderIsNoCloser(s: State, t: nat, u: nat)
    requires LocksOk(s.threads, s.owner, s.mapOwner, s.c.nextLock) && t in s.threads && u in s.threads
    requires s.threads[t].phase.Reading? && s.threads[u].stale != []
    ensures t != u
  {
    assert ThreadOk(s.threads[t], s.c.nextLock);
  }

  lemma NoPopProtects(s: State, e: Event)
    requires Inv(s) && Enabled(s, e) && ReadersLocked(s) && !PopsReadersLock(s, e)
    ensures ReadersLocked(Apply(s, e))
  {
    hide MapsAgree, HoldsCounted, WorldOk, ConnsOk, LocksOk, PinsOk, StalesDistinct, Accounted, DescriptorShape,
      FileEnabled, PlainEnabled, ReadEnabled, CloseEnabled, ConnectEnabled, Apply, Closes, ReadersLocked,
      ActorChange, OnlyActor, PopsReadersLock;
    var u, closed := Apply(s, e), Closes(s, e);
    StepShape(s, e);
    StepActor(s, e);
    if !IsFileEvent(e) {
      StepChange(s, e);
    }
    if !ReadersLocked(u) {
      var t := SomeUnlocked(u);
      if closed.Some? && t in s.threads && s.threads[t].phase.Reading? && closed.value.key == s.threads[t].phase.pin.key {
        LockedReader(s, t);
        CloseUnderReaderPops(s, e, closed.value, t);
      } else {
        ReaderLockedAfter(s, e, u, closed, t);
      }
    }
  }

  lemma LockedReader(s: State, t: nat)
    requires ReadersLocked(s) && t in s.threads && s.threads[t].phase.Reading?
    ensures IsCurrent(s, s.threads[t].phase.pin)
  {
  }

  lemma SomeUnlocked(u: State) returns (t: nat)
    requires !ReadersLocked(u)
    ensures t in u.threads && u.threads[t].phase.Reading?
    ensures !IsCurrent(u, u.threads[t].phase.pin)
  {
    t :| t in u.threads && u.threads[t].phase.Reading? && !IsCurrent(u, u.threads[t].phase.pin);
  }

  /** A step of a state with protected readers keeps them protected if and only if it drops no reader's lock. */
  lemma StepProtectsIff(s: State, e: Event)
    requires Inv(s) && Enabled(s, e) && AllProtected(s)
    ensures AllProtected(Apply(s, e)) <==> !PopsReadersLock(s, e)
  {
    hide Enabled, Apply, Inv, PopsReadersLock, ReadersLocked, AllProtected;
    StepKeeps(s, e);
    LockedIsProtected(s);
    LockedIsProtected(Apply(s, e));
    if PopsReadersLock(s, e) {
      PopUnprotects(s, e);
    } else {
      NoPopProtects(s, e);
    }
  }

  lemma {:induction false} NoPopAlongRun(r: seq<State>, es: seq<Event>, n: nat)
    requires Run(r, es) && n < |r| && forall k :: 0 <= k < n ==> !PopsReadersLock(r[k], es[k])
    ensures AllProtected(r[n])
  {
    hide FileEnabled, PlainEnabled, ReadEnabled, CloseEnabled, ConnectEnabled, Apply, Inv, PopsReadersLock;
    if n > 0 {
      NoPopAlongRun(r, es, n - 1);
      RunKeeps(r, es, n - 1);
      StepProtectsIff(r[n - 1], es[n - 1]);
    }
  }

  /**
   Over every run: all readers that passed the revalidation stay protected until they release their
   lock if and only if no close drops the lock some reader is reading under.
   */
  lemma ReadersProtectedIff(r: seq<State>, es: seq<Event>, n: nat)
    requires Run(r, es) && n < |r|
    ensures (forall k :: 0 <= k <= n ==> AllProtected(r[k])) <==> (forall k :: 0 <= k < n ==> !PopsReadersLock(r[k], es[k]))
  {
    hide FileEnabled, PlainEnabled, ReadEnabled, CloseEnabled, ConnectEnabled, Apply, Inv, PopsReadersLock, AllProtected;
    if forall k :: 0 <= k < n ==> !PopsReadersLock(r[k], es[k]) {
      forall k | 0 <= k <= n ensures AllProtected(r[k]) {
        NoPopAlongRun(r, es, k);
      }
    }
    if forall k :: 0 <= k <= n ==> AllProtected(r[k]) {
      forall k | 0 <= k < n ensures !PopsReadersLock(r[k], es[k]) {
        RunKeeps(r, es, k);
        assert AllProtected(r[k]) && AllProtected(r[k + 1]);
        StepProtectsIff(r[k], es[k]);
      }
    }
  }

  lemma AllMeet(s: State, t: nat, u: nat)
    requires ClosersMeet(s) && t in s.threads && u in s.threads && s.threads[t].phase.Reading?
    ensures Meets(s, t, u)
  {
  }

  /** As long as no inode has two retired descriptors awaiting their close, no reader's lock is dropped. */
  lemma OneRetiredNeverPops(r: seq<State>, es: seq<Event>, n: nat)
    requires Run(r, es) && n < |es| && forall k :: 0 <= k <= n ==> OneRetired(r[k])
    ensures !PopsReadersLock(r[n], es[n])
  {
    hide Enabled, Apply, OneRetired, Accounted, HoldsCounted, WorldOk, ConnsOk, LocksOk, PinsOk, StalesDistinct, ClosersMeet;
    RunKeeps(r, es, n);
    ReadersAlongRun(r, es, n);
    var s, e := r[n], es[n];
    if PopsReadersLock(s, e) {
      var key := s.threads[e.t].stale[0].key;
      var t :| t in s.threads && s.threads[t].phase.Reading? && s.threads[t].phase.pin.lock == s.c.inodeLocks[key];
      UnlockedBy(s, t, key);
      AllMeet(s, t, e.t);
      NoDecideUnderReader(s, t, e.t);
    }
  }

  /**
   While a reader reads, its descriptor is open on the instance it resolved and its lock is that
   inode's lock, in every run in which no inode ever has two retired descriptors awaiting their close.
   */
  lemma ReaderKeepsDescriptor(r: seq<State>, es: seq<Event>, n: nat, t: nat)
    requires Run(r, es) && n < |r| && t in r[n].threads && r[n].threads[t].phase.Reading?
    requires forall k :: 0 <= k <= n ==> OneRetired(r[k])
    ensures Protected(r[n], t)
  {
    hide Enabled, Apply, OneRetired, Inv, PopsReadersLock, Protected;
    forall k | 0 <= k < n ensures !PopsReadersLock(r[k], es[k]) {
      OneRetiredNeverPops(r, es, k);
    }
    NoPopAlongRun(r, es, n);
  }

  // ---- The cache refines open, read, close -------------------------------------------

  predicate InRead(phase: Phase) {
    phase == Want || phase == Opening || HasPin(phase) || phase == Snapshot || phase.Probe? || phase.Forget?
    || phase == Phase.Evict
  }

  /** From state `m` to state `n` thread `t` is inside one call that reads `path`. */
  ghost predicate Within(r: seq<State>, m: nat, n: nat, t: nat, path: Path)
    requires m <= n < |r|
  {
    forall k :: m <= k <= n ==> t in r[k].threads && r[k].threads[t].path == path && InRead(r[k].threads[t].phase)
  }

  /** The thread's path named `inst` in some state of the call it is in. */
  ghost predicate NamedWithin(r: seq<State>, n: nat, t: nat, path: Path, inst: nat)
    requires n < |r|
  {
    exists m: nat :: m <= n && Within(r, m, n, t, path) && path in r[m].names && r[m].names[path] == inst
  }

  lemma {:induction false} PinWasNamed(r: seq<State>, es: seq<Event>, n: nat, t: nat)
    requires Run(r, es) && n < |r| && t in r[n].threads && HasPin(r[n].threads[t].phase)
    ensures NamedWithin(r, n, t, r[n].threads[t].path, r[n].threads[t].phase.pin.inst)
  {
    hide Enabled, Apply, Inv, ClosingChange, ReadingChange;
    var th := r[n].threads[t];
    assert n > 0;
    var s, e := r[n - 1], es[n - 1];
    RunKeeps(r, es, n - 1);
    StepActor(s, e);
    if !IsFileEvent(e) {
      StepChange(s, e);
    }
    assert PinChange(s, e, th, t) || s.threads[t] == th;
    if HasPin(s.threads[t].phase) && s.threads[t].phase.pin == th.phase.pin {
      PinWasNamed(r, es, n - 1, t);
      var m: nat :| m <= n - 1 && Within(r, m, n - 1, t, th.path) && th.path in r[m].names
                    && r[m].names[th.path] == th.phase.pin.inst;
      assert Within(r, m, n, t, th.path);
    } else {
      assert Within(r, n - 1, n, t, th.path);
    }
  }

  /**
   The descriptor a revalidated reader uses is open on an inode instance that its path named at some
   moment of the call: for cached hits, fresh opens and files replaced between the stat and the open alike.
   */
  lemma ReadSeesNamedFile(r: seq<State>, es: seq<Event>, n: nat, t: nat)
    requires Run(r, es) && n < |r| && t in r[n].threads && r[n].threads[t].phase.Reading?
    requires forall k :: 0 <= k < n ==> !PopsReadersLock(r[k], es[k])
    ensures var fd := r[n].threads[t].phase.pin.fd;
            fd in r[n].open && NamedWithin(r, n, t, r[n].threads[t].path, r[n].open[fd])
  {
    hide Enabled, Apply, Inv, PopsReadersLock;
    NoPopAlongRun(r, es, n);
    PinWasNamed(r, es, n, t);
  }

  /** In every run at all, the moment a reader's check succeeds its descriptor is open on an instance
      its path named during the call. */
  lemma ValidatedSeesNamedFile(r: seq<State>, es: seq<Event>, n: nat, t: nat)
    requires Run(r, es) && n < |es| && es[n] == Revalidate(t)
    requires t in r[n + 1].threads && r[n + 1].threads[t].phase.Reading?
    ensures var pin := r[n + 1].threads[t].phase.pin;
            && pin.fd in r[n + 1].open && NamedWithin(r, n + 1, t, r[n + 1].threads[t].path, r[n + 1].open[pin.fd])
            && PinnedAs(r[n + 1].c, pin.key, pin.fd)
  {
    hide FileEnabled, PlainEnabled, CloseEnabled, ConnectEnabled, Apply, MapsAgree, Accounted, HoldsCounted, WorldOk, ConnsOk,
      LocksOk, StalesDistinct, DoRevalidate, NamedWithin;
    RunKeeps(r, es, n);
    RunKeeps(r, es, n + 1);
    StepChange(r[n], es[n]);
    PinWasNamed(r, es, n + 1, t);
  }
}
