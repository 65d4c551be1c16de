/** The remaining events keep the invariant: locking, revalidating, closing, sweeping, evicting and connecting. */
module ThreadSteps {
  import opened Basics
  import opened CacheModel
  import opened CacheInvariant
  import opened CacheSystem
  import opened SystemInvariant
  import opened SystemSteps

  // ---- Locking and revalidating ------------------------------------------------------

  lemma TakeLockKeeps(s: State, t: nat)
    requires Inv(s) && At(s, t) && s.threads[t].phase.Acquire? && s.threads[t].phase.pin.lock !in s.owner
    ensures var pin := s.threads[t].phase.pin;
            Inv(SetPhase(s.(owner := s.owner[pin.lock := t]), t, Check(pin)))
  {
    hide MapsAgree, Accounted, WorldOk, HoldsCounted, ConnsOk, LocksOk, StalesDistinct;
    ThreadFacts(s, t);
    var pin := s.threads[t].phase.pin;
    var th := s.threads[t].(phase := Check(pin));
    FlightSame(s.threads, t, th);
    ConnsUpdate(s.threads, s.conns, s.tokens, Ids(s.c.pending), t, th);
    PinsUpdate(s.threads, s.c.inodeLocks, s.open, s.num, t, th);
    LocksUpdate(s.threads, s.owner, s.mapOwner, s.c.nextLock, t, th, s.owner[pin.lock := t], s.mapOwner, s.c.nextLock);
  }

  lemma DropLockKeeps(s: State, t: nat, phase: Phase)
    requires Inv(s) && At(s, t) && (s.threads[t].phase.Check? || s.threads[t].phase.Reading?)
    requires phase == Want || phase == Idle
    ensures Inv(SetPhase(s.(owner := s.owner - {s.threads[t].phase.pin.lock}), t, phase))
  {
    hide MapsAgree, Accounted, WorldOk, HoldsCounted, ConnsOk, LocksOk, PinsOk, StalesDistinct;
    ThreadFacts(s, t);
    var th := s.threads[t].(phase := phase);
    ThreadMoves(s, t, th);
    LocksUpdate(s.threads, s.owner, s.mapOwner, s.c.nextLock, t, th,
                s.owner - {s.threads[t].phase.pin.lock}, s.mapOwner, s.c.nextLock);
  }

  lemma MarkReadAgrees(c: Cache, key: Key)
    requires MapsAgree(c) && key in c.fds
    ensures MapsAgree(MarkRead(c, key))
  {
    WithoutKeepsDistinct(c.useOrder, key);
    assert key !in Without(c.useOrder, key);
  }

  lemma ValidatedKeeps(s: State, t: nat)
    requires Inv(s) && At(s, t) && s.threads[t].phase.Check? && s.threads[t].phase.pin.key in s.c.fds
    ensures var pin := s.threads[t].phase.pin;
            Inv(SetPhase(s.(c := MarkRead(s.c, pin.key)), t, Reading(pin)))
  {
    hide MapsAgree, Accounted, WorldOk, ConnsOk, LocksOk, StalesDistinct;
    ThreadFacts(s, t);
    var pin := s.threads[t].phase.pin;
    var th := s.threads[t].(phase := Reading(pin));
    MarkReadAgrees(s.c, pin.key);
    FlightSame(s.threads, t, th);
    ConnsUpdate(s.threads, s.conns, s.tokens, Ids(s.c.pending), t, th);
    PinsUpdate(s.threads, s.c.inodeLocks, s.open, s.num, t, th);
    LocksUpdate(s.threads, s.owner, s.mapOwner, s.c.nextLock, t, th, s.owner, s.mapOwner, s.c.nextLock);
  }

  lemma RevalidateKeeps(s: State, t: nat)
    requires Inv(s) && At(s, t) && s.threads[t].phase.Check?
    ensures Inv(DoRevalidate(s, t))
  {
    hide MapsAgree, Accounted, WorldOk, HoldsCounted, ConnsOk, LocksOk, PinsOk, StalesDistinct;
    if s.threads[t].phase.pin.key in s.c.fds {
      ValidatedKeeps(s, t);
    }
    DropLockKeeps(s, t, Want);
  }

  // ---- Closing -----------------------------------------------------------------------

  lemma CloseLookUpKeeps(s: State, t: nat)
    requires Inv(s) && t in s.threads && s.threads[t].stale != [] && s.threads[t].closing == NotClosing
    ensures var (c, lock) := LockFor(s.c, s.threads[t].stale[0].key);
            Inv(SetThread(s.(c := c), t, s.threads[t].(closing := LookedUp(lock))))
  {
    hide MapsAgree, Accounted, WorldOk, ConnsOk, LocksOk, PinsOk, StalesDistinct;
    ThreadFacts(s, t);
    var (c, lock) := LockFor(s.c, s.threads[t].stale[0].key);
    LockForAgrees(s.c, s.threads[t].stale[0].key);
    var th := s.threads[t].(closing := LookedUp(lock));
    FlightSame(s.threads, t, th);
    SameConnecting(s.threads, s.conns, s.tokens, Ids(s.c.pending), t, th);
    PinsExtend(s.threads, s.c.inodeLocks, c.inodeLocks, s.c.nextLock, s.open, s.open, s.num);
    SamePin(s.threads, c.inodeLocks, s.open, s.num, t, th);
    LocksUpdate(s.threads, s.owner, s.mapOwner, s.c.nextLock, t, th, s.owner, s.mapOwner, c.nextLock);
  }

  /** A thread that stays in its phase keeps what it holds for a connection. */
  lemma SameConnecting(threads: map<nat, Thread>, conns: map<nat, Connection>, tokens: map<nat, Release>,
                       queued: set<nat>, t: nat, th: Thread)
    requires ConnsOk(threads, conns, tokens, queued)
    requires t in threads && th.phase == threads[t].phase && th.path == threads[t].path
    ensures ConnsOk(threads[t := th], conns, tokens, queued)
  {
  }

  lemma SamePin(threads: map<nat, Thread>, locks: map<Key, nat>, open: map<nat, nat>, num: map<nat, Key>,
                t: nat, th: Thread)
    requires PinsOk(threads, locks, open, num) && t in threads && th.phase == threads[t].phase
    ensures PinsOk(threads[t := th], locks, open, num)
  {
  }

  lemma CloseTakeLockKeeps(s: State, t: nat)
    requires Inv(s) && t in s.threads && s.threads[t].stale != [] && s.threads[t].closing.LookedUp?
    requires s.threads[t].closing.lock !in s.owner
    ensures var lock := s.threads[t].closing.lock;
            Inv(SetThread(s.(owner := s.owner[lock := t]), t, s.threads[t].(closing := Locked(lock))))
  {
    hide MapsAgree, Accounted, WorldOk, HoldsCounted, ConnsOk, LocksOk, PinsOk, StalesDistinct;
    ThreadFacts(s, t);
    var lock := s.threads[t].closing.lock;
    var th := s.threads[t].(closing := Locked(lock));
    FlightSame(s.threads, t, th);
    SameConnecting(s.threads, s.conns, s.tokens, Ids(s.c.pending), t, th);
    SamePin(s.threads, s.c.inodeLocks, s.open, s.num, t, th);
    LocksUpdate(s.threads, s.owner, s.mapOwner, s.c.nextLock, t, th, s.owner[lock := t], s.mapOwner, s.c.nextLock);
  }

  /** The first close a thread owes is done. */
  lemma FlightPop(threads: map<nat, Thread>, t: nat, th: Thread)
    requires StalesDistinct(threads) && t in threads && threads[t].stale != [] && th.stale == threads[t].stale[1..]
    ensures Flight(threads[t := th]) == Flight(threads) - {threads[t].stale[0]} && StalesDistinct(threads[t := th])
    ensures threads[t].stale[0] in Flight(threads)
  {
    var x, owed := threads[t].stale[0], threads[t].stale;
    assert owed == [x] + th.stale;
    assert x !in th.stale;
    FlightUpdate(threads, t, th);
    assert Owed(threads, t) == Members(th.stale) + {x};
    forall y | y in Members(th.stale) ensures y in Flight(threads) { assert y in owed; }
  }

  lemma CloseDecideMaps(s: State, x: Stale)
    requires MapsAgree(s.c) && Accounted(s.c.fds, s.c.raceLosers, s.open, s.num, Flight(s.threads))
    requires WorldOk(s.names, s.open, s.conns, s.num) && PinsOk(s.threads, s.c.inodeLocks, s.open, s.num)
    requires x in Flight(s.threads)
    ensures var d := CloseStale(s.c, x);
            var left := if StaleFate(s.c, x) == Closed then s.open - {x.fd} else s.open;
            && MapsAgree(d) && Accounted(d.fds, d.raceLosers, left, s.num, Flight(s.threads) - {x})
            && WorldOk(s.names, left, s.conns, s.num) && PinsOk(s.threads, d.inodeLocks, left, s.num)
            && d.nextLock == s.c.nextLock
  {
    hide MapsAgree, WorldOk, PinsOk;
    CloseStaleAgrees(s.c, x);
    CloseStaleAccounts(s.c, s.open, s.num, Flight(s.threads), x);
    if StaleFate(s.c, x) == Closed {
      WorldClose(s.names, s.open, s.conns, s.num, x.fd);
      PinsClose(s.threads, s.c.inodeLocks, s.open, s.num, x.key, x.fd);
    }
  }

  lemma CloseStaleHolds(c: Cache, x: Stale, tokens: map<nat, Release>)
    requires HoldsCounted(c, tokens)
    ensures HoldsCounted(CloseStale(c, x), tokens) && CloseStale(c, x).pending == c.pending
  {
  }

  lemma CloseDecideShape(s: State, t: nat)
    requires t in s.threads && s.threads[t].stale != [] && s.threads[t].closing.Locked?
    ensures var th, x := s.threads[t], s.threads[t].stale[0];
            DoCloseDecide(s, t) ==
              s.(c := CloseStale(s.c, x), open := (if StaleFate(s.c, x) == Closed then s.open - {x.fd} else s.open),
                 owner := s.owner - {th.closing.lock},
                 threads := s.threads[t := th.(stale := th.stale[1..], closing := NotClosing)])
  {
  }

  lemma CloseDecideKeeps(s: State, t: nat)
    requires Inv(s) && t in s.threads && s.threads[t].stale != [] && s.threads[t].closing.Locked?
    ensures Inv(DoCloseDecide(s, t))
  {
    hide MapsAgree, Accounted, WorldOk, HoldsCounted, ConnsOk, LocksOk, PinsOk, StalesDistinct, CloseStale, StaleFate, DoCloseDecide;
    CloseDecideShape(s, t);
    CloseStaleHolds(s.c, s.threads[t].stale[0], s.tokens);
    ThreadFacts(s, t);
    var th := s.threads[t];
    var x := th.stale[0];
    var after := th.(stale := th.stale[1..], closing := NotClosing);
    FlightPop(s.threads, t, after);
    CloseDecideMaps(s, x);
    var d := CloseStale(s.c, x);
    var left := if StaleFate(s.c, x) == Closed then s.open - {x.fd} else s.open;
    SameConnecting(s.threads, s.conns, s.tokens, Ids(s.c.pending), t, after);
    SamePin(s.threads, d.inodeLocks, left, s.num, t, after);
    LocksUpdate(s.threads, s.owner, s.mapOwner, s.c.nextLock, t, after, s.owner - {th.closing.lock}, s.mapOwner,
                s.c.nextLock);
  }
}
