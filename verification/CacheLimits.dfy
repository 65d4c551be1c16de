/** Descriptors are conserved; where an open, and a refusal, can begin. */
module CacheLimits {
  import opened Basics
  import opened CacheModel
  import opened CacheInvariant
  import opened CacheSystem
  import opened SystemInvariant
  import opened SystemSteps
  import opened ThreadSteps
  import opened HoldSteps
  import opened CacheRuns
  import opened CacheSafety
  import opened CacheReaders

  // ---- Conservation ------------------------------------------------------------------

  predicate IsPinned(s: State, fd: nat) { fd in s.c.fds.Values }

  predicate IsLoser(s: State, fd: nat) { fd in s.c.raceLosers }

  ghost predicate IsOwed(s: State, fd: nat) {
    exists t, x :: t in s.threads && x in s.threads[t].stale && x.fd == fd
  }

  /** The descriptor is in exactly one place: pinned under one inode number, a race loser, or owed a
      close by one thread, once. */
  ghost predicate InOnePlace(s: State, fd: nat) {
    && (IsPinned(s, fd) || IsLoser(s, fd) || IsOwed(s, fd))
    && !(IsPinned(s, fd) && IsLoser(s, fd)) && !(IsPinned(s, fd) && IsOwed(s, fd))
    && !(IsLoser(s, fd) && IsOwed(s, fd))
    && (forall j, k :: j in s.c.fds && k in s.c.fds && s.c.fds[j] == fd && s.c.fds[k] == fd ==> j == k)
    && (forall t, u, x, y | t in s.threads && u in s.threads && x in s.threads[t].stale && y in s.threads[u].stale ::
          x.fd == fd && y.fd == fd ==> t == u && x == y)
    && (forall t :: t in s.threads ==> NoDuplicates(s.threads[t].stale))
  }

  lemma OwedAs(s: State, t: nat, x: Stale)
    requires Accounted(s.c.fds, s.c.raceLosers, s.open, s.num, Flight(s.threads))
    requires t in s.threads && x in s.threads[t].stale
    ensures x.fd in s.open && x == Stale(s.num[s.open[x.fd]], x.fd)
    ensures !IsPinned(s, x.fd) && !IsLoser(s, x.fd)
  {
    assert x in Flight(s.threads);
  }

  lemma PinnedOnce(s: State, j: Key)
    requires Accounted(s.c.fds, s.c.raceLosers, s.open, s.num, Flight(s.threads)) && j in s.c.fds
    ensures s.c.fds[j] in s.open && j == s.num[s.open[s.c.fds[j]]] && !IsLoser(s, s.c.fds[j])
  {
  }

  lemma SomePlace(s: State, fd: nat)
    requires Accounted(s.c.fds, s.c.raceLosers, s.open, s.num, Flight(s.threads)) && fd in s.open
    ensures s.open[fd] in s.num && (IsPinned(s, fd) || IsLoser(s, fd) || IsOwed(s, fd))
  {
    var key := s.num[s.open[fd]];
    if Stale(key, fd) in Flight(s.threads) {
      var t :| t in s.threads && Stale(key, fd) in s.threads[t].stale;
      assert IsOwed(s, fd);
    }
  }

  lemma PlacesOf(s: State, fd: nat)
    requires Accounted(s.c.fds, s.c.raceLosers, s.open, s.num, Flight(s.threads)) && StalesDistinct(s.threads)
    requires fd in s.open
    ensures InOnePlace(s, fd)
  {
    hide NoDuplicates, Accounted, IsLoser;
    SomePlace(s, fd);
    forall j | j in s.c.fds && s.c.fds[j] == fd ensures j == s.num[s.open[fd]] && !IsLoser(s, fd) {
      PinnedOnce(s, j);
    }
    forall t, x | t in s.threads && x in s.threads[t].stale && x.fd == fd
      ensures x == Stale(s.num[s.open[fd]], fd) && !IsPinned(s, fd) && !IsLoser(s, fd)
    {
      OwedAs(s, t, x);
    }
  }

  /** In every state of every run each descriptor the cache has open is in exactly one place. */
  lemma DescriptorsConserved(r: seq<State>, es: seq<Event>, n: nat, fd: nat)
    requires Run(r, es) && n < |r| && fd in r[n].open
    ensures InOnePlace(r[n], fd)
  {
    hide Run, MapsAgree, Accounted, HoldsCounted, WorldOk, ConnsOk, LocksOk, PinsOk, StalesDistinct, InOnePlace;
    RunKeeps(r, es, n);
    PlacesOf(r[n], fd);
  }

  lemma ShapeConserves(s: State, u: State, closed: Option<Stale>, fd: nat)
    requires DescriptorShape(s, u, closed) && fd in s.open && (closed.Some? ==> closed.value.fd in s.open)
    ensures Conserves(s, u, closed, fd)
  {
    hide LocksExtend;
  }

  /** A step closes at most one descriptor, an open one, and loses or overwrites none. */
  lemma StepConserves(s: State, e: Event, u: State, closed: Option<Stale>, fd: nat)
    requires fd in s.open && Enabled(s, e) && u == Apply(s, e) && closed == Closes(s, e)
    requires Inv(s)
    ensures Conserves(s, u, closed, fd)
  {
    hide Inv, FileEnabled, PlainEnabled, ReadEnabled, CloseEnabled, ConnectEnabled, Apply, Closes, DescriptorShape, Conserves;
    StepShape(s, e);
    if closed.Some? {
      ClosesOpen(s, e);
    }
    ShapeConserves(s, u, closed, fd);
  }

  ghost predicate Conserves(s: State, u: State, closed: Option<Stale>, fd: nat)
    requires fd in s.open
  {
    && (closed.Some? ==> closed.value.fd in s.open && closed.value.fd !in u.open)
    && (closed == None || closed.value.fd != fd ==> fd in u.open && u.open[fd] == s.open[fd])
    && (forall k :: k in s.c.fds && k in u.c.fds ==> u.c.fds[k] == s.c.fds[k])
  }

  // ---- The cap -----------------------------------------------------------------------

  /** When an open begins there is room, or the path's only association is about to be retired. */
  ghost predicate RoomToOpen(s: State, path: Path) {
    |s.c.fds| < MAX_PINNED_FDS
    || (path in s.c.pathInode && s.c.pathInode[path] in s.c.inodePaths && s.c.inodePaths[s.c.pathInode[path]] == {path})
  }

  ghost predicate OpenersHaveRoom(s: State) {
    forall t :: t in s.threads && s.threads[t].phase == Opening ==> RoomToOpen(s, s.threads[t].path)
  }

  /** From `c` to `d` the descriptor of `key` lost its last path, or came back from being retired, and
      stays pinned with no path naming it because a hold forbids closing it. */
  ghost predicate KeptForHold(c: Cache, d: Cache, key: Key) {
    key in d.fds && key !in d.inodePaths && Held(d, key) && (key in c.inodePaths || key !in c.fds)
  }

  lemma SettleSize(c: Cache, path: Path, fd: nat, key: Key)
    requires MapsAgree(c) && PinnedAs(c, key, fd)
    ensures |Settle(c, path, fd, key).cache.fds| <= |c.fds|
    ensures path in c.pathInode && c.pathInode[path] != key && c.inodePaths[c.pathInode[path]] == {path} ==>
              |Settle(c, path, fd, key).cache.fds| < |c.fds| || KeptForHold(c, Settle(c, path, fd, key).cache, c.pathInode[path])
  {
    hide MapsAgree;
    AssociateAgrees(c, path, key);
    var (_, stale) := Associate(c, path, key);
    if stale.Some? {
      MapRemoveSize(c.fds, stale.value.key);
    }
    if path in c.pathInode && c.pathInode[path] != key {
      RetireShape(c, path, key);
      PathPinned(c, path);
    }
  }

  lemma OpenedSize(s: State, path: Path, fd: nat, key: Key)
    requires MapsAgree(s.c) && RoomToOpen(s, path)
    ensures var d := PinOpened(s.c, path, fd, key).cache;
            |d.fds| <= MAX_PINNED_FDS || |d.fds| <= |s.c.fds| || exists k :: KeptForHold(s.c, d, k)
  {
    hide MapsAgree, Settle;
    AdmitAgrees(s.c, fd, key);
    var (c, used) := Admit(s.c, fd, key);
    SettleSize(c, path, used, key);
    if key !in s.c.fds {
      MapInsertSize(s.c.fds, key, fd);
      if |s.c.fds| >= MAX_PINNED_FDS {
        PathPinned(s.c, path);
        assert c.pathInode[path] != key && c.inodePaths[c.pathInode[path]] == {path};
        var d := Settle(c, path, used, key).cache;
        assert |d.fds| < |c.fds| || KeptForHold(s.c, d, c.pathInode[path]);
      }
    }
  }

  lemma PathPinned(c: Cache, path: Path)
    requires MapsAgree(c) && path in c.pathInode
    ensures c.pathInode[path] in c.inodePaths && c.pathInode[path] in c.fds
  {
  }

  /** Threads that do not need the map lock leave the maps alone. */
  lemma LockFreeFields(s: State, e: Event)
    requires Enabled(s, e) && s.mapOwner.Some? && !e.OpenPath?
    ensures IsReadStep(e) ==> ApplyRead(s, e).c == s.c
    ensures IsCloseStep(e) ==> ApplyClose(s, e).c == s.c
  {
    hide FileEnabled, PlainEnabled, ConnectEnabled, DoStat, DoRevalidate, DoForget, DoEvict, DoCloseDecide;
  }

  lemma QueueOnly(s: State, e: Event)
    requires Enabled(s, e) && s.mapOwner.Some?
    ensures IsFileEvent(e) ==> ApplyFile(s, e).c == s.c.(pending := ApplyFile(s, e).c.pending)
    ensures IsConnectStep(e) ==> ApplyConnect(s, e).c == s.c.(pending := ApplyConnect(s, e).c.pending)
  {
    hide PlainEnabled, ReadEnabled, CloseEnabled, DoTakeHold, DoCount, Live, Lists;
  }

  /** While a thread is between its stat and its open, the map lock keeps everyone else out of the maps. */
  lemma MapLockHeld(s: State, e: Event)
    requires Enabled(s, e) && s.mapOwner.Some? && !e.OpenPath?
    ensures Apply(s, e).c == s.c.(pending := Apply(s, e).c.pending)
  {
    hide FileEnabled, PlainEnabled, ReadEnabled, CloseEnabled, ConnectEnabled,
      ApplyFile, ApplyPlain, ApplyRead, ApplyClose, ApplyConnect;
    LockFreeFields(s, e);
    QueueOnly(s, e);
    if IsPlainStep(e) {
      PlainFields(s, e);
    }
  }

  lemma PinnedPhase(s: State, t: nat, p: Pinned, key: Key, inst: nat)
    requires t in s.threads
    ensures var u := AfterPin(s, t, p, key, inst); t in u.threads && u.threads[t].phase.Acquire?
  {
  }

  lemma StatStartsOpening(s: State, t: nat)
    requires NamesNumbered(s) && t in s.threads && MapFree(s)
    ensures var u := DoStat(s, t);
            t in u.threads && (u.threads[t].phase == Opening ==>
              u.c == s.c && RoomToOpen(s, s.threads[t].path) && u.threads[t].path == s.threads[t].path)
  {
    hide PinHit, AfterPin;
    var path := s.threads[t].path;
    if path in s.names && s.num[s.names[path]] in s.c.fds {
      PinnedPhase(s, t, PinHit(s.c, path, s.num[s.names[path]]), s.num[s.names[path]], s.names[path]);
    }
  }

  lemma OpenEndsOpening(s: State, t: nat, fd: nat)
    requires NamesNumbered(s) && t in s.threads
    ensures var u := DoOpen(s, t, fd); t in u.threads && u.threads[t].phase != Opening
  {
    hide PinOpened, AfterPin;
    var path := s.threads[t].path;
    if path in s.names {
      PinnedPhase(s.(mapOwner := None, open := s.open[fd := s.names[path]]), t,
                  PinOpened(s.c, path, fd, s.num[s.names[path]]), s.num[s.names[path]], s.names[path]);
    }
  }

  // ---- Where an open and a refusal can begin -----------------------------------------

  /** The thread is about to open, or refused, only if it already was on the same path. */
  ghost predicate BeginsNeither(s: State, u: State, t: nat) {
    t in u.threads &&
    (u.threads[t].phase == Opening || u.threads[t].phase == Refused ==>
       t in s.threads && s.threads[t].phase == u.threads[t].phase && s.threads[t].path == u.threads[t].path)
  }

  lemma PlainBegins(s: State, e: Event)
    requires PlainEnabled(s, e) && IsPlainStep(e)
    ensures BeginsNeither(s, ApplyPlain(s, e), e.t)
  {
    hide Lists, NamesNumbered, DoProbe;
    if e.ProbeNext? {
      ProbeFields(s, e.t);
    }
  }

  lemma ReadBegins(s: State, e: Event)
    requires NamesNumbered(s) && ReadEnabled(s, e) && IsReadStep(e) && !e.StatPath? && !e.OpenPath?
    ensures BeginsNeither(s, ApplyRead(s, e), e.t)
  {
    hide DoStat, DoOpen, MarkRead;
  }

  lemma CloseBegins(s: State, e: Event)
    requires CloseEnabled(s, e) && IsCloseStep(e) && !e.EvictNow?
    ensures BeginsNeither(s, ApplyClose(s, e), e.t)
  {
    hide DoEvict, DoCloseDecide, DoForget, ForgetDead, LockFor, CloseStale, StaleFate;
    match e
    case CloseDecide(t) => CloseDecideShape(s, t);
    case ForgetPaths(t) => ForgetShape(s, t);
    case _ =>
  }

  lemma ConnectBegins(s: State, e: Event)
    requires NamesNumbered(s) && ConnectEnabled(s, e)
    requires IsConnectStep(e)
    ensures BeginsNeither(s, ApplyConnect(s, e), e.t)
  {
    hide DoTakeHold, DoCount, TakeHold, CompleteHold;
    match e
    case TakeHoldNow(t, _) => TakeHoldShape(s, t, e.hold);
    case CountAfter(t) => CountShape(s, t);
    case _ =>
  }

  lemma StepBegins(s: State, e: Event)
    requires Enabled(s, e) && !IsFileEvent(e) && !e.StatPath? && !e.OpenPath? && !e.EvictNow?
    ensures BeginsNeither(s, Apply(s, e), e.t)
  {
    hide FileEnabled, PlainEnabled, ReadEnabled, CloseEnabled, ConnectEnabled, BeginsNeither,
      ApplyFile, ApplyPlain, ApplyRead, ApplyClose, ApplyConnect;
    if IsPlainStep(e) {
      PlainBegins(s, e);
    } else if IsReadStep(e) {
      ReadBegins(s, e);
    } else if IsCloseStep(e) {
      CloseBegins(s, e);
    } else {
      ConnectBegins(s, e);
    }
  }
}
