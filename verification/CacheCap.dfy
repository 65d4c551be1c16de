/** The cap holds up to what holds forbid, and a refusal escapes only for one of three reasons. */
module CacheCap {
  import opened Basics
  import opened CacheModel
  import opened CacheInvariant
  import opened CacheSystem
  import opened SystemInvariant
  import opened SystemSteps
  import opened ThreadSteps
  import opened HoldSteps
  import opened CacheRuns
  import opened CacheSafety
  import opened CacheReaders
  import opened CacheLimits

  // ---- A thread that is opening has room ---------------------------------------------

  lemma OnlyMapOwnerOpens(s: State, t: nat)
    requires Inv(s) && t in s.threads
    ensures s.threads[t].phase == Opening <==> s.mapOwner == Some(t)
  {
  }

  lemma EvictEndsOpening(s: State, t: nat, named: map<Path, Key>)
    requires t in s.threads
    ensures var u := DoEvict(s, t, named);
            t in u.threads && u.threads[t] == AfterEvict(s.threads[t], EvictIdle(s.c, named, s.owner.Keys).outcome)
  {
    hide EvictIdle, SetCache, LeftOpen, AfterEvict;
  }

  /** Only a stat that missed makes its thread open. */
  lemma ActorOpening(s: State, e: Event)
    requires Enabled(s, e) && !IsFileEvent(e) && !e.StatPath?
    ensures var u := Apply(s, e); e.t in u.threads && (u.threads[e.t].phase == Opening ==>
              && e.t in s.threads && s.threads[e.t].phase == Opening && u.threads[e.t].path == s.threads[e.t].path
              && !e.OpenPath?)
  {
    hide FileEnabled, PlainEnabled, ConnectEnabled, DoEvict, DoOpen, EvictIdle,
      ApplyFile, ApplyPlain, ApplyConnect;
    if e.OpenPath? {
      OpenEndsOpening(s, e.t, e.fd);
    } else if e.EvictNow? {
      EvictEndsOpening(s, e.t, e.named);
    } else {
      StepBegins(s, e);
    }
  }

  lemma SameRoom(s: State, u: State, path: Path)
    requires RoomToOpen(s, path)
    requires u.c == s.c.(pending := u.c.pending)
    ensures RoomToOpen(u, path)
  {
  }

  lemma StatOpening(s: State, t: nat, u: nat)
    requires Inv(s) && NamesNumbered(s) && At(s, t) && MapFree(s)
    requires var v := DoStat(s, t); u in v.threads && v.threads[u].phase == Opening
    ensures var v := DoStat(s, t); RoomToOpen(v, v.threads[u].path)
  {
    hide MapsAgree, Accounted, HoldsCounted, WorldOk, ConnsOk, PinsOk, StalesDistinct, DoStat;
    StatActor(s, t);
    StatStartsOpening(s, t);
    if u != t {
      OnlyMapOwnerOpens(s, u);
    }
  }

  /** While the map lock is held across an open, the opener keeps its room. */
  lemma HeldOpening(s: State, e: Event, t: nat)
    requires Inv(s) && Enabled(s, e) && OpenersHaveRoom(s) && !e.StatPath?
    requires t in Apply(s, e).threads && Apply(s, e).threads[t].phase == Opening
    ensures RoomToOpen(Apply(s, e), Apply(s, e).threads[t].path)
  {
    hide Inv, FileEnabled, PlainEnabled, ReadEnabled, CloseEnabled, ConnectEnabled, Apply, RoomToOpen;
    StepActor(s, e);
    if !IsFileEvent(e) {
      ActorOpening(s, e);
    }
    OnlyMapOwnerOpens(s, t);
    if e.OpenPath? {
      OpenIs(s, e);
      OpenerOwnsMap(s, e.t, t);
    }
    MapLockHeld(s, e);
    SameRoom(s, Apply(s, e), s.threads[t].path);
  }

  lemma OpenerOwnsMap(s: State, t: nat, u: nat)
    requires Inv(s) && t in s.threads && u in s.threads
    requires s.threads[t].phase == Opening && s.threads[u].phase == Opening
    ensures t == u
  {
    OnlyMapOwnerOpens(s, t);
    OnlyMapOwnerOpens(s, u);
  }

  lemma OpenIs(s: State, e: Event)
    requires Enabled(s, e) && e.OpenPath?
    ensures At(s, e.t) && s.threads[e.t].phase == Opening && Apply(s, e) == DoOpen(s, e.t, e.fd)
  {
    hide DoOpen;
  }

  lemma StatIs(s: State, e: Event)
    requires Enabled(s, e) && e.StatPath?
    ensures At(s, e.t) && MapFree(s) && Apply(s, e) == DoStat(s, e.t)
  {
    hide DoStat;
  }

  lemma OpenersStep(s: State, e: Event)
    requires Inv(s) && Enabled(s, e) && OpenersHaveRoom(s)
    ensures OpenersHaveRoom(Apply(s, e))
  {
    hide Inv, FileEnabled, PlainEnabled, CloseEnabled, ConnectEnabled, RoomToOpen, Apply;
    var u := Apply(s, e);
    forall t | t in u.threads && u.threads[t].phase == Opening ensures RoomToOpen(u, u.threads[t].path) {
      if e.StatPath? {
        StatIs(s, e);
        StatOpening(s, e.t, t);
      } else {
        HeldOpening(s, e, t);
      }
    }
  }

  // ---- The cap -----------------------------------------------------------------------

  lemma SubmapSize<K, V>(m: map<K, V>, n: map<K, V>)
    requires m.Keys <= n.Keys
    ensures |m| <= |n|
  {
    SubsetSize(m.Keys, n.Keys);
  }

  lemma {:induction false} SubsetSize<K>(a: set<K>, b: set<K>)
    requires a <= b
    ensures |a| <= |b|
  {
    assert |b| == |a| + |b - a| by { assert a + (b - a) == b; }
  }

  ghost predicate WithinCap(c: Cache, d: Cache) {
    |d.fds| <= |c.fds| || |d.fds| <= MAX_PINNED_FDS || exists k :: KeptForHold(c, d, k)
  }

  lemma StatWithin(s: State, t: nat)
    requires MapsAgree(s.c) && NamesNumbered(s) && t in s.threads
    ensures WithinCap(s.c, DoStat(s, t).c)
  {
    hide MapsAgree, Settle;
    var path := s.threads[t].path;
    if path in s.names && s.num[s.names[path]] in s.c.fds {
      SettleSize(s.c, path, s.c.fds[s.num[s.names[path]]], s.num[s.names[path]]);
    }
  }

  lemma OpenWithin(s: State, t: nat, fd: nat)
    requires MapsAgree(s.c) && NamesNumbered(s) && t in s.threads && RoomToOpen(s, s.threads[t].path)
    ensures WithinCap(s.c, DoOpen(s, t, fd).c)
  {
    hide MapsAgree, PinOpened, RoomToOpen, KeptForHold;
    var path := s.threads[t].path;
    if path in s.names {
      OpenedSize(s, path, fd, s.num[s.names[path]]);
    }
  }

  lemma DecideWithin(c: Cache, x: Stale)
    requires MapsAgree(c)
    ensures WithinCap(c, CloseStale(c, x))
  {
    if StaleFate(c, x) == Kept {
      assert KeptForHold(c, CloseStale(c, x), x.key);
    }
  }

  lemma CloseWithin(s: State, e: Event)
    requires Inv(s) && CloseEnabled(s, e) && IsCloseStep(e)
    ensures WithinCap(s.c, ApplyClose(s, e).c)
  {
    hide MapsAgree, Accounted, HoldsCounted, WorldOk, ConnsOk, PinsOk, StalesDistinct, EvictIdle, ForgetDead,
      CloseStale, StaleFate, DoEvict, DoForget, DoCloseDecide, KeptForHold, AfterEvict, LeftOpen, SetCache;
    match e
    case CloseDecide(t) =>
      CloseDecideShape(s, t);
      DecideWithin(s.c, s.threads[t].stale[0]);
    case ForgetPaths(t) =>
      ForgetShape(s, t);
      NoSentinel(s);
      ForgetDeadShape(s.c, s.threads[t].phase.dead);
      SubmapSize(ForgetDead(s.c, s.threads[t].phase.dead).cache.fds, s.c.fds);
    case EvictNow(t, named) =>
      EvictStateShape(s, t, named);
      EvictShape(s.c, named, s.owner.Keys);
      DrainFrame(s.c);
      SubmapSize(EvictIdle(s.c, named, s.owner.Keys).cache.fds, s.c.fds);
    case _ =>
  }

  lemma FileSame(s: State, e: Event)
    requires FileEnabled(s, e) && IsFileEvent(e)
    ensures ApplyFile(s, e).c.fds == s.c.fds
  {
    hide Live;
  }

  lemma ConnectSame(s: State, e: Event)
    requires MapsAgree(s.c) && NamesNumbered(s) && ConnectEnabled(s, e)
    requires IsConnectStep(e)
    ensures ApplyConnect(s, e).c.fds == s.c.fds
  {
    hide MapsAgree, DoTakeHold, DoCount, TakeHold, Drain;
    if e.TakeHoldNow? {
      TakeHoldShape(s, e.t, e.hold);
      TakeHoldMaps(s.c, s.threads[e.t].path, NamedKey(s, s.threads[e.t].path));
    } else if e.CountAfter? {
      CountShape(s, e.t);
    }
  }

  lemma ReadSame(s: State, e: Event)
    requires NamesNumbered(s) && ReadEnabled(s, e) && (e.TakeLock? || e.Revalidate? || e.FinishRead?)
    ensures ApplyRead(s, e).c.fds == s.c.fds
  {
    hide DoStat, DoOpen, DoRevalidate;
    if e.Revalidate? {
      RevalidateSame(s, e.t);
    }
  }

  lemma RevalidateSame(s: State, t: nat)
    requires t in s.threads && s.threads[t].phase.Check?
    ensures DoRevalidate(s, t).c.fds == s.c.fds
  {
    hide MarkRead;
    MarkReadFields(s.c, s.threads[t].phase.pin.key);
  }

  /** The cap: a step that leaves more than 64 descriptors pinned, and more than before, leaves one
      that a hold alone keeps. */
  lemma StepWithinCap(s: State, e: Event)
    requires Inv(s) && Enabled(s, e) && OpenersHaveRoom(s)
    ensures WithinCap(s.c, Apply(s, e).c)
  {
    hide MapsAgree, Accounted, HoldsCounted, WorldOk, ConnsOk, PinsOk, LocksOk, StalesDistinct, FileEnabled, PlainEnabled,
      CloseEnabled, ConnectEnabled, ApplyFile, ApplyPlain, ApplyClose, ApplyConnect, DoStat, DoOpen, RoomToOpen, KeptForHold;
    if IsFileEvent(e) {
      FileSame(s, e);
    } else if IsPlainStep(e) {
      PlainFields(s, e);
    } else if IsConnectStep(e) {
      ConnectSame(s, e);
    } else if IsCloseStep(e) {
      CloseWithin(s, e);
    } else if e.StatPath? {
      StatWithin(s, e.t);
    } else if e.OpenPath? {
      OpenWithin(s, e.t, e.fd);
    } else {
      ReadSame(s, e);
    }
  }

  lemma {:induction false} RunOpeners(r: seq<State>, es: seq<Event>, n: nat)
    requires Run(r, es) && n < |r|
    ensures OpenersHaveRoom(r[n])
  {
    hide Inv, Enabled, Apply, RoomToOpen;
    if n > 0 {
      RunKeeps(r, es, n - 1);
      RunOpeners(r, es, n - 1);
      OpenersStep(r[n - 1], es[n - 1]);
    }
  }

  lemma HoldFree(s: State, k: Key)
    requires Inv(s) && s.tokens == map[]
    ensures !Held(s.c, k)
  {
    hide MapsAgree, Accounted, WorldOk, ConnsOk, LocksOk, PinsOk, StalesDistinct;
    assert Holding(s.tokens, k) == {};
    assert Doubtful(s.tokens) == {};
  }

  /** Along a run, the number of pinned descriptors passes 64 and its last value only by such a step. */
  lemma RunWithinCap(r: seq<State>, es: seq<Event>, n: nat)
    requires Run(r, es) && n < |es|
    ensures WithinCap(r[n].c, r[n + 1].c)
  {
    hide Inv, Enabled, Apply, OpenersHaveRoom, WithinCap;
    RunKeeps(r, es, n);
    RunOpeners(r, es, n);
    StepWithinCap(r[n], es[n]);
  }

  /** As long as no hold is outstanding, 64 is never exceeded. */
  lemma {:induction false} CapWithoutHolds(r: seq<State>, es: seq<Event>, n: nat)
    requires Run(r, es) && n < |r|
    requires forall m :: 0 <= m <= n ==> r[m].tokens == map[]
    ensures |r[n].c.fds| <= MAX_PINNED_FDS
  {
    hide Inv, Enabled, Apply;
    if n > 0 {
      CapWithoutHolds(r, es, n - 1);
      RunWithinCap(r, es, n - 1);
      RunKeeps(r, es, n);
      forall k ensures !Held(r[n].c, k) { HoldFree(r[n], k); }
    }
  }

  // ---- Refusals ----------------------------------------------------------------------

  /** Why `PinnedReadCapacityExceeded` may escape: the cache is full, and a hold of unknown inode is
      outstanding, or every pinned inode is held, or the busy waits are used up with a read in flight. */
  ghost predicate Justified(s: State, t: nat, named: map<Path, Key>)
    requires t in s.threads
  {
    var d := Drain(s.c);
    && |s.c.fds| >= MAX_PINNED_FDS
    && (|| d.uncertain > 0
        || (forall k :: k in s.c.fds ==> k in HeldNow(d, named))
        || (s.threads[t].waits >= BUSY_RETRIES
            && exists k :: k in s.c.fds && k in s.c.inodeLocks && s.c.inodeLocks[k] in s.owner))
  }

  lemma EvictRefuses(s: State, t: nat, named: map<Path, Key>)
    requires Inv(s) && At(s, t) && s.threads[t].phase == Phase.Evict
    ensures DoEvict(s, t, named).threads[t].phase == Refused ==> Justified(s, t, named)
  {
    hide MapsAgree, Accounted, HoldsCounted, WorldOk, ConnsOk, PinsOk, StalesDistinct, EvictIdle, DoEvict, Drain, HeldNow;
    EvictEndsOpening(s, t, named);
    EvictRefusal(s.c, named, s.owner.Keys);
  }

  lemma StatNeverRefuses(s: State, t: nat)
    requires NamesNumbered(s) && t in s.threads
    ensures var u := DoStat(s, t); t in u.threads && u.threads[t].phase != Refused
  {
    hide PinHit, AfterPin;
    var path := s.threads[t].path;
    if path in s.names && s.num[s.names[path]] in s.c.fds {
      PinnedPhase(s, t, PinHit(s.c, path, s.num[s.names[path]]), s.num[s.names[path]], s.names[path]);
    }
  }

  lemma OpenNeverRefuses(s: State, t: nat, fd: nat)
    requires NamesNumbered(s) && t in s.threads
    ensures var u := DoOpen(s, t, fd); t in u.threads && u.threads[t].phase != Refused
  {
    hide PinOpened, AfterPin;
    var path := s.threads[t].path;
    if path in s.names {
      PinnedPhase(s.(mapOwner := None, open := s.open[fd := s.names[path]]), t,
                  PinOpened(s.c, path, fd, s.num[s.names[path]]), s.num[s.names[path]], s.names[path]);
    }
  }

  /** A refusal begins only in an eviction that had a reason to close nothing. */
  lemma RefusalJustified(s: State, e: Event, t: nat)
    requires Inv(s) && Enabled(s, e)
    requires t in Apply(s, e).threads && Apply(s, e).threads[t].phase == Refused
    requires t in s.threads ==> s.threads[t].phase != Refused
    ensures e.EvictNow? && e.t == t && t in s.threads && Justified(s, t, e.named)
  {
    hide Inv, FileEnabled, PlainEnabled, ConnectEnabled, ApplyFile, ApplyPlain, ApplyConnect, DoEvict, DoStat, DoOpen,
      Justified;
    StepActor(s, e);
    if e.EvictNow? {
      EvictRefuses(s, e.t, e.named);
    } else if e.StatPath? {
      StatNeverRefuses(s, e.t);
    } else if e.OpenPath? {
      OpenNeverRefuses(s, e.t, e.fd);
    } else if !IsFileEvent(e) {
      StepBegins(s, e);
    }
  }
}
