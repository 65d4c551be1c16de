/** What a reader can rely on between taking its lock and releasing it. */
module CacheReaders {
  import opened Basics
  import opened CacheModel
  import opened CacheInvariant
  import opened CacheSystem
  import opened SystemInvariant
  import opened SystemSteps
  import opened ThreadSteps
  import opened HoldSteps
  import opened CacheRuns
  import opened CacheSafety

  // ---- What a step does to descriptors, locks and race losers ------------------------

  /** A step that closes takes one descriptor and its inode's lock away; any other only adds. */
  ghost predicate DescriptorShape(s: State, u: State, closed: Option<Stale>) {
    && (closed.Some? ==> u.open == s.open - {closed.value.fd} && u.c.inodeLocks == s.c.inodeLocks - {closed.value.key})
    && (closed.None? ==> (forall f :: f in s.open ==> f in u.open && u.open[f] == s.open[f])
                         && LocksExtend(s.c.inodeLocks, u.c.inodeLocks, s.c.nextLock))
    && (forall i :: i in s.num ==> i in u.num && u.num[i] == s.num[i])
    && (forall f :: f in u.c.raceLosers ==>
          f in s.c.raceLosers || f !in s.open || exists x :: x in Flight(s.threads) && x.fd == f)
    && (forall f :: f in s.c.raceLosers ==> f in u.c.raceLosers)
    && (forall k :: k in s.c.fds && k in u.c.fds ==> u.c.fds[k] == s.c.fds[k])
  }

  lemma UnchangedShape(s: State, u: State)
    requires u.open == s.open && u.c.inodeLocks == s.c.inodeLocks && u.c.raceLosers == s.c.raceLosers
    requires u.num == s.num && u.c.fds == s.c.fds
    ensures DescriptorShape(s, u, None)
  {
  }

  lemma SettleShape(c: Cache, path: Path, fd: nat, key: Key)
    requires MapsAgree(c) && PinnedAs(c, key, fd)
    ensures var p := Settle(c, path, fd, key);
            && p.cache.raceLosers == c.raceLosers && LocksExtend(c.inodeLocks, p.cache.inodeLocks, c.nextLock)
            && (forall k :: k in p.cache.fds ==> k in c.fds && p.cache.fds[k] == c.fds[k])
  {
    hide MapsAgree, LocksExtend;
    SettleLocks(c, path, fd, key);
    AssociateAgrees(c, path, key);
  }

  lemma AfterPinShape(s: State, u: State, t: nat, p: Pinned, key: Key, inst: nat)
    requires t in u.threads && u.num == s.num && (forall f :: f in s.open ==> f in u.open && u.open[f] == s.open[f])
    requires LocksExtend(s.c.inodeLocks, p.cache.inodeLocks, s.c.nextLock)
    requires forall f :: f in p.cache.raceLosers ==> f in s.c.raceLosers || f !in s.open
    requires forall f :: f in s.c.raceLosers ==> f in p.cache.raceLosers
    requires forall k :: k in s.c.fds && k in p.cache.fds ==> p.cache.fds[k] == s.c.fds[k]
    ensures DescriptorShape(s, AfterPin(u, t, p, key, inst), None)
  {
    hide LocksExtend;
  }

  lemma StatShape(s: State, t: nat)
    requires MapsAgree(s.c) && NamesNumbered(s) && t in s.threads
    ensures DescriptorShape(s, DoStat(s, t), None)
  {
    hide MapsAgree, Settle, DescriptorShape, AfterPin, LocksExtend;
    var path := s.threads[t].path;
    if path in s.names && s.num[s.names[path]] in s.c.fds {
      var key := s.num[s.names[path]];
      SettleShape(s.c, path, s.c.fds[key], key);
      AfterPinShape(s, s, t, PinHit(s.c, path, key), key, s.names[path]);
    } else {
      UnchangedShape(s, DoStat(s, t));
    }
  }

  lemma OpenPathShape(s: State, t: nat, fd: nat)
    requires MapsAgree(s.c) && NamesNumbered(s) && t in s.threads && fd !in s.open
    ensures DescriptorShape(s, DoOpen(s, t, fd), None)
  {
    hide MapsAgree, Settle, DescriptorShape, AfterPin, LocksExtend;
    var path := s.threads[t].path;
    if path in s.names {
      var inst, key := s.names[path], s.num[s.names[path]];
      AdmitAgrees(s.c, fd, key);
      var (d, used) := Admit(s.c, fd, key);
      SettleShape(d, path, used, key);
      AfterPinShape(s, s.(mapOwner := None, open := s.open[fd := inst]), t, PinOpened(s.c, path, fd, key), key, inst);
    } else {
      UnchangedShape(s, DoOpen(s, t, fd));
    }
  }

  lemma {:induction false} ForgetDeadShape(c: Cache, dead: seq<(Path, Key)>)
    requires MapsAgree(c) && NO_INODE !in c.fds
    ensures var d := ForgetDead(c, dead).cache;
            d.raceLosers == c.raceLosers && (forall k :: k in d.fds ==> k in c.fds && d.fds[k] == c.fds[k])
    decreases |dead|
  {
    if dead != [] {
      var (path, key) := dead[0];
      if path !in c.pathInode || c.pathInode[path] != key {
        ForgetDeadShape(c, dead[1..]);
      } else {
        ForgetOneAgrees(c, path);
        var d := Retire(c, path, NO_INODE).0;
        ForgetDeadShape(d.(pathInode := d.pathInode - {path}), dead[1..]);
      }
    }
  }

  lemma ForgetPathsShape(s: State, t: nat)
    requires MapsAgree(s.c) && NO_INODE !in s.c.fds && t in s.threads && s.threads[t].phase.Forget?
    ensures DescriptorShape(s, DoForget(s, t), None)
  {
    hide MapsAgree, ForgetDead, DoForget;
    ForgetShape(s, t);
    ForgetDeadShape(s.c, s.threads[t].phase.dead);
    ForgetDeadAgrees(s.c, s.threads[t].phase.dead);
  }

  lemma EvictNowShape(s: State, t: nat, named: map<Path, Key>)
    requires MapsAgree(s.c) && t in s.threads && forall l :: l in s.owner ==> l < s.c.nextLock
    ensures DescriptorShape(s, DoEvict(s, t, named), EvictIdle(s.c, named, s.owner.Keys).closed)
  {
    hide MapsAgree, EvictIdle, DoEvict, SetCache, AfterEvict;
    EvictStateShape(s, t, named);
    EvictShape(s.c, named, s.owner.Keys);
    DrainFrame(s.c);
  }

  lemma DecideShape(s: State, t: nat)
    requires t in s.threads && s.threads[t].stale != [] && s.threads[t].closing.Locked?
    ensures var x := s.threads[t].stale[0];
            DescriptorShape(s, DoCloseDecide(s, t), if StaleFate(s.c, x) == Closed then Some(x) else None)
  {
    assert s.threads[t].stale[0] in s.threads[t].stale;
    assert s.threads[t].stale[0] in Flight(s.threads);
  }

  lemma CloseStepShape(s: State, e: Event)
    requires Inv(s) && CloseEnabled(s, e) && IsCloseStep(e)
    ensures DescriptorShape(s, ApplyClose(s, e), Closes(s, e))
  {
    hide MapsAgree, Accounted, HoldsCounted, WorldOk, ConnsOk, LocksOk, PinsOk, StalesDistinct, EvictIdle,
      DoEvict, DoForget, DoCloseDecide, DescriptorShape;
    ThreadFacts(s, e.t);
    match e
    case CloseLookUp(t) => LookUpShape(s, t);
    case CloseTakeLock(t) => UnchangedShape(s, ApplyClose(s, e));
    case CloseDecide(t) => DecideShape(s, t);
    case ForgetPaths(t) =>
      NoSentinel(s);
      ForgetPathsShape(s, t);
    case EvictNow(t, named) => EvictNowShape(s, t, named);
  }

  lemma LookUpShape(s: State, t: nat)
    requires t in s.threads && s.threads[t].stale != []
    ensures var (c, lock) := LockFor(s.c, s.threads[t].stale[0].key);
            DescriptorShape(s, SetThread(s.(c := c), t, s.threads[t].(closing := LookedUp(lock))), None)
  {
  }

  lemma MarkReadFields(c: Cache, key: Key)
    ensures MarkRead(c, key) == c.(useOrder := MarkRead(c, key).useOrder)
  {
  }

  lemma RevalidateShape(s: State, t: nat)
    requires t in s.threads && s.threads[t].phase.Check?
    ensures DescriptorShape(s, DoRevalidate(s, t), None)
  {
    hide DescriptorShape, MarkRead, LocksExtend;
    var pin := s.threads[t].phase.pin;
    MarkReadFields(s.c, pin.key);
    UnchangedShape(s, SetPhase(s.(c := MarkRead(s.c, pin.key)), t, Reading(pin)));
    UnchangedShape(s, SetPhase(s.(owner := s.owner - {pin.lock}), t, Want));
  }

  lemma ReadStepShape(s: State, e: Event)
    requires Inv(s) && NamesNumbered(s) && ReadEnabled(s, e) && IsReadStep(e)
    ensures DescriptorShape(s, ApplyRead(s, e), None)
  {
    hide MapsAgree, Accounted, HoldsCounted, WorldOk, ConnsOk, LocksOk, PinsOk, StalesDistinct, DoStat, DoOpen,
      DoRevalidate, DescriptorShape;
    match e
    case StatPath(t) => StatShape(s, t);
    case OpenPath(t, fd) => OpenPathShape(s, t, fd);
    case TakeLock(t) => UnchangedShape(s, ApplyRead(s, e));
    case Revalidate(t) => RevalidateShape(s, t);
    case FinishRead(t) => UnchangedShape(s, ApplyRead(s, e));
  }

  lemma ConnectStepShape(s: State, e: Event)
    requires Inv(s) && NamesNumbered(s) && ConnectEnabled(s, e)
    requires IsConnectStep(e)
    ensures DescriptorShape(s, ApplyConnect(s, e), None)
  {
    hide MapsAgree, Accounted, HoldsCounted, WorldOk, ConnsOk, LocksOk, PinsOk, StalesDistinct, DoTakeHold, DoCount,
      DescriptorShape, TakeHold, CompleteHold;
    match e
    case TakeHoldNow(t, _) =>
      TakeHoldShape(s, t, e.hold);
      TakeHoldMaps(s.c, s.threads[t].path, NamedKey(s, s.threads[t].path));
      UnchangedShape(s, DoTakeHold(s, t, e.hold));
    case ConnectOk(t) => UnchangedShape(s, ApplyConnect(s, e));
    case ConnectFails(t) => UnchangedShape(s, ApplyConnect(s, e));
    case LookAgain(t) => UnchangedShape(s, ApplyConnect(s, e));
    case CountAfter(t) =>
      CountShape(s, t);
      CompleteMaps(s.c, s.threads[t].phase.before, s.threads[t].phase.after);
      UnchangedShape(s, DoCount(s, t));
  }

  lemma FileStepShape(s: State, e: Event)
    requires FileEnabled(s, e) && IsFileEvent(e)
    ensures DescriptorShape(s, ApplyFile(s, e), None)
  {
  }

  lemma PlainFields(s: State, e: Event)
    requires PlainEnabled(s, e) && IsPlainStep(e)
    ensures ApplyPlain(s, e) == s.(threads := ApplyPlain(s, e).threads)
  {
    hide Lists, NamesNumbered, DoProbe;
    if e.ProbeNext? {
      ProbeFields(s, e.t);
    }
  }

  lemma ProbeFields(s: State, t: nat)
    requires t in s.threads && s.threads[t].phase.Probe?
    ensures var u := DoProbe(s, t);
            && t in u.threads && u == s.(threads := s.threads[t := s.threads[t].(phase := u.threads[t].phase)])
            && (u.threads[t].phase.Probe? || u.threads[t].phase.Forget?)
  {
  }

  lemma PlainStepShape(s: State, e: Event)
    requires PlainEnabled(s, e) && IsPlainStep(e)
    ensures DescriptorShape(s, ApplyPlain(s, e), None)
  {
    hide DescriptorShape, PlainEnabled, ApplyPlain;
    PlainFields(s, e);
    UnchangedShape(s, ApplyPlain(s, e));
  }

  lemma StepShape(s: State, e: Event)
    requires Inv(s) && Enabled(s, e)
    ensures DescriptorShape(s, Apply(s, e), Closes(s, e))
  {
    hide Inv, DescriptorShape, FileEnabled, PlainEnabled, ReadEnabled, CloseEnabled, ConnectEnabled,
      ApplyFile, ApplyPlain, ApplyRead, ApplyClose, ApplyConnect;
    if IsFileEvent(e) {
      FileStepShape(s, e);
    } else if IsPlainStep(e) {
      PlainStepShape(s, e);
    } else if IsReadStep(e) {
      ReadStepShape(s, e);
    } else if IsCloseStep(e) {
      CloseStepShape(s, e);
    } else {
      ConnectStepShape(s, e);
    }
  }

  // ---- Only the acting thread changes ------------------------------------------------

  ghost predicate OnlyActor(s: State, u: State, t: nat) {
    t in u.threads && u.threads == s.threads[t := u.threads[t]]
  }

  lemma StatActor(s: State, t: nat)
    requires NamesNumbered(s) && t in s.threads
    ensures OnlyActor(s, DoStat(s, t), t)
  {
    hide PinHit;
  }

  lemma OpenActor(s: State, t: nat, fd: nat)
    requires NamesNumbered(s) && t in s.threads
    ensures OnlyActor(s, DoOpen(s, t, fd), t)
  {
    hide PinOpened;
  }

  lemma RevalidateActor(s: State, t: nat)
    requires t in s.threads && s.threads[t].phase.Check?
    ensures OnlyActor(s, DoRevalidate(s, t), t)
  {
  }

  lemma ReadStepActor(s: State, e: Event)
    requires NamesNumbered(s) && ReadEnabled(s, e) && IsReadStep(e)
    ensures OnlyActor(s, ApplyRead(s, e), e.t)
  {
    hide DoStat, DoOpen, DoRevalidate;
    match e
    case StatPath(t) => StatActor(s, t);
    case OpenPath(t, fd) => OpenActor(s, t, fd);
    case Revalidate(t) => RevalidateActor(s, t);
    case _ =>
  }

  lemma CloseStepActor(s: State, e: Event)
    requires CloseEnabled(s, e) && IsCloseStep(e)
    ensures OnlyActor(s, ApplyClose(s, e), e.t)
  {
    hide DoForget, DoEvict, DoCloseDecide, ForgetDead, EvictIdle, CloseStale, StaleFate, AfterEvict, LeftOpen, SetCache,
      LockFor;
    match e
    case CloseDecide(t) => CloseDecideShape(s, t);
    case ForgetPaths(t) => ForgetShape(s, t);
    case EvictNow(t, named) => EvictStateShape(s, t, named);
    case _ =>
  }

  lemma ConnectStepActor(s: State, e: Event)
    requires NamesNumbered(s) && ConnectEnabled(s, e)
    requires IsConnectStep(e)
    ensures OnlyActor(s, ApplyConnect(s, e), e.t)
  {
    hide DoTakeHold, DoCount, TakeHold, CompleteHold;
    match e
    case TakeHoldNow(t, _) => TakeHoldShape(s, t, e.hold);
    case CountAfter(t) => CountShape(s, t);
    case _ =>
  }

  lemma PlainStepActor(s: State, e: Event)
    requires PlainEnabled(s, e) && IsPlainStep(e)
    ensures OnlyActor(s, ApplyPlain(s, e), e.t)
  {
    hide Lists, NamesNumbered, DoProbe;
    if e.ProbeNext? {
      ProbeFields(s, e.t);
    }
  }

  lemma StepActor(s: State, e: Event)
    requires Enabled(s, e)
    ensures IsFileEvent(e) ==> Apply(s, e).threads == s.threads
    ensures !IsFileEvent(e) ==> OnlyActor(s, Apply(s, e), e.t)
  {
    hide OnlyActor, PlainEnabled, ReadEnabled, CloseEnabled, ConnectEnabled,
      ApplyPlain, ApplyRead, ApplyClose, ApplyConnect;
    if IsPlainStep(e) {
      PlainStepActor(s, e);
    } else if IsReadStep(e) {
      ReadStepActor(s, e);
    } else if IsCloseStep(e) {
      CloseStepActor(s, e);
    } else if !IsFileEvent(e) {
      ConnectStepActor(s, e);
    }
  }
}
