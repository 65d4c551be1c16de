/** Closing is safe: for every run, which descriptors are closed and what no close can hit. */
module CacheSafety {
  import opened Basics
  import opened CacheModel
  import opened CacheInvariant
  import opened CacheSystem
  import opened SystemInvariant
  import opened SystemSteps
  import opened ThreadSteps
  import opened HoldSteps
  import opened CacheRuns

  /** The descriptor an event closes. */
  function Closes(s: State, e: Event): Option<Stale>
    requires IsCloseStep(e) ==> CloseEnabled(s, e)
  {
    match e
    case CloseDecide(t) =>
      if StaleFate(s.c, s.threads[t].stale[0]) == Closed then Some(s.threads[t].stale[0]) else None
    case EvictNow(t, named) => EvictIdle(s.c, named, s.owner.Keys).closed
    case _ => None
  }

  // ---- Which descriptors a step closes -----------------------------------------------

  lemma DecideCloses(s: State, t: nat)
    requires Inv(s) && Enabled(s, CloseDecide(t)) && Closes(s, CloseDecide(t)).Some?
    ensures var x := s.threads[t].stale[0];
            && Closes(s, CloseDecide(t)) == Some(x) && x.fd in s.open && s.num[s.open[x.fd]] == x.key
            && !Held(s.c, x.key)
  {
    hide MapsAgree, WorldOk, HoldsCounted, ConnsOk, LocksOk, PinsOk, StalesDistinct;
    var x := s.threads[t].stale[0];
    assert x in s.threads[t].stale;
    assert x in Flight(s.threads);
  }

  lemma EvictCloses(s: State, t: nat, named: map<Path, Key>)
    requires Inv(s) && Enabled(s, EvictNow(t, named)) && Closes(s, EvictNow(t, named)).Some?
    ensures var x := Closes(s, EvictNow(t, named)).value;
            && x.fd in s.open && s.num[s.open[x.fd]] == x.key && !Held(Drain(s.c), x.key)
            && (x.key in s.c.inodeLocks ==> s.c.inodeLocks[x.key] !in s.owner)
  {
    hide MapsAgree, WorldOk, HoldsCounted, ConnsOk, PinsOk, StalesDistinct, EvictIdle, DoEvict;
    ThreadFacts(s, t);
    EvictShape(s.c, named, s.owner.Keys);
  }

  /** Every close is of an open descriptor, recorded under its inode's number, that nothing holds. */
  lemma ClosesOpen(s: State, e: Event)
    requires Inv(s) && Enabled(s, e) && Closes(s, e).Some?
    ensures var x := Closes(s, e).value;
            x.fd in s.open && s.open[x.fd] in s.num && s.num[s.open[x.fd]] == x.key && !Held(Drain(s.c), x.key)
  {
    hide MapsAgree, WorldOk, ConnsOk, LocksOk, PinsOk, StalesDistinct, EvictIdle;
    match e
    case CloseDecide(t) =>
      DecideCloses(s, t);
      if Held(Drain(s.c), s.threads[t].stale[0].key) {
        DrainNeverHolds(s.c, s.tokens, s.threads[t].stale[0].key);
      }
    case EvictNow(t, named) => EvictCloses(s, t, named);
    case _ =>
  }

  /** Applying queued releases makes nothing held. */
  lemma DrainNeverHolds(c: Cache, tokens: map<nat, Release>, key: Key)
    requires HoldsCounted(c, tokens) && Held(Drain(c), key)
    ensures Held(c, key)
  {
    DrainCounts(c, tokens);
    var left := tokens - Ids(c.pending);
    if Holding(left, key) != {} {
      var h :| h in Holding(left, key);
      assert h in Holding(tokens, key);
    } else if Doubtful(left) != {} {
      var h :| h in Doubtful(left);
      assert h in Doubtful(tokens);
    }
  }

  // ---- No close drops a connection's locks -------------------------------------------

  /** The connection's hold counts the inode it opened, or says the inode is unknown. */
  ghost predicate Covered(s: State, h: nat) {
    && h in s.conns && h in s.tokens
    && (s.tokens[h].uncertain || (s.conns[h].inst in s.num && s.num[s.conns[h].inst] in s.tokens[h].inodes))
  }

  lemma CoveredIsHeld(s: State, h: nat)
    requires Inv(s) && Covered(s, h)
    ensures s.conns[h].inst in s.num && Held(Drain(s.c), s.num[s.conns[h].inst])
  {
    hide MapsAgree, Accounted, LocksOk, PinsOk, StalesDistinct;
    DrainCounts(s.c, s.tokens);
    var left, key := s.tokens - Ids(s.c.pending), s.num[s.conns[h].inst];
    assert h in left;
    if s.tokens[h].uncertain {
      assert h in Doubtful(left);
    } else {
      assert h in Holding(left, key);
    }
  }

  /** No event closes a descriptor on the inode a covered connection has open. */
  lemma CloseMissesHeld(s: State, e: Event, x: Stale, h: nat)
    requires Enabled(s, e) && Closes(s, e) == Some(x)
    requires Covered(s, h)
    requires Inv(s)
    ensures x.fd in s.open && s.open[x.fd] != s.conns[h].inst
  {
    hide Inv, Enabled, Closes;
    ClosesOpen(s, e);
    CoveredIsHeld(s, h);
  }

  /** The two stats of a `held_connect` disagreed, or one of them named the inode the connection opened. */
  ghost predicate SeenByStats(s: State, t: nat)
    requires t in s.threads && s.threads[t].phase.Count? && s.threads[t].phase.hold in s.conns
    requires s.conns[s.threads[t].phase.hold].inst in s.num
  {
    var Count(h, before, after) := s.threads[t].phase;
    var key := s.num[s.conns[h].inst];
    SwappedMidOpen(before, after) || before == Some(key) || after == Some(key)
  }

  /** A connection is covered from the moment it is returned exactly when the inode it opened is one
      the two stats named, or when those disagreed. */
  lemma ReturnedIsCovered(s: State, t: nat, u: State)
    requires Enabled(s, CountAfter(t)) && u == Apply(s, CountAfter(t))
    requires Inv(s)
    ensures var h := s.threads[t].phase.hold;
            && s.conns[h].inst in s.num && h in u.conns && u.conns[h] == s.conns[h].(returned := true)
            && (Covered(u, h) <==> SeenByStats(s, t))
  {
    hide MapsAgree, Accounted, HoldsCounted, LocksOk, PinsOk, StalesDistinct, CompleteHold;
  }

  lemma SectionKeepsHold(s: State, c: Cache, h: nat)
    requires h in s.tokens && h !in Ids(s.c.pending)
    ensures h in SetCache(s, c).tokens && SetCache(s, c).tokens[h] == s.tokens[h]
    ensures SetCache(s, c).conns == s.conns && SetCache(s, c).num == s.num
  {
  }

  lemma StatKeepsHold(s: State, t: nat, h: nat)
    requires NamesNumbered(s) && t in s.threads && Returned(s, h)
    ensures SameHold(s, DoStat(s, t), h)
  {
    hide PinHit, SetCache;
    var path := s.threads[t].path;
    if path in s.names && s.num[s.names[path]] in s.c.fds {
      SectionKeepsHold(s, PinHit(s.c, path, s.num[s.names[path]]).cache, h);
    }
  }

  lemma OpenKeepsHold(s: State, t: nat, fd: nat, h: nat)
    requires NamesNumbered(s) && t in s.threads && Returned(s, h)
    ensures SameHold(s, DoOpen(s, t, fd), h)
  {
    hide PinOpened, SetCache;
    var path := s.threads[t].path;
    if path in s.names {
      var u := s.(mapOwner := None, open := s.open[fd := s.names[path]]);
      SectionKeepsHold(u, PinOpened(s.c, path, fd, s.num[s.names[path]]).cache, h);
    }
  }

  ghost predicate SameHold(s: State, u: State, h: nat) {
    && h in s.tokens && h in u.tokens && u.tokens[h] == s.tokens[h]
    && h in s.conns && h in u.conns && u.conns[h] == s.conns[h]
    && (forall i :: i in s.num ==> i in u.num && u.num[i] == s.num[i])
  }

  /** The hold of a returned connection: outstanding, not queued, and of no thread still connecting. */
  ghost predicate Returned(s: State, h: nat) {
    && h in s.tokens && h !in Ids(s.c.pending) && h in s.conns
    && (forall t :: t in s.threads && Connecting(s.threads[t].phase) ==> s.threads[t].phase.hold != h)
  }

  lemma ReturnedFacts(s: State, h: nat)
    requires Inv(s) && h in s.conns && s.conns[h].returned
    ensures Returned(s, h)
  {
    hide MapsAgree, Accounted, HoldsCounted, WorldOk, LocksOk, PinsOk, StalesDistinct;
  }

  lemma SameFields(s: State, u: State, h: nat)
    requires Returned(s, h) && u.tokens == s.tokens && u.conns == s.conns && u.num == s.num
    ensures SameHold(s, u, h)
  {
  }

  lemma SectionSame(s: State, u: State, c: Cache, h: nat)
    requires Returned(s, h) && u.tokens == SetCache(s, c).tokens && u.conns == s.conns && u.num == s.num
    ensures SameHold(s, u, h)
  {
    SectionKeepsHold(s, c, h);
  }

  lemma RevalidateKeepsHold(s: State, t: nat, h: nat)
    requires t in s.threads && s.threads[t].phase.Check? && Returned(s, h)
    ensures SameHold(s, DoRevalidate(s, t), h)
  {
  }

  lemma ReadKeepsHold(s: State, e: Event, h: nat)
    requires Returned(s, h) && NamesNumbered(s) && ReadEnabled(s, e) && IsReadStep(e)
    ensures SameHold(s, ApplyRead(s, e), h)
  {
    hide DoStat, DoOpen, DoRevalidate, SameHold, Returned;
    match e
    case StatPath(t) => StatKeepsHold(s, t, h);
    case OpenPath(t, fd) => OpenKeepsHold(s, t, fd, h);
    case TakeLock(t) => SameFields(s, ApplyRead(s, e), h);
    case Revalidate(t) => RevalidateKeepsHold(s, t, h);
    case FinishRead(t) => SameFields(s, ApplyRead(s, e), h);
  }

  lemma CloseKeepsHold(s: State, e: Event, h: nat)
    requires Returned(s, h) && CloseEnabled(s, e) && IsCloseStep(e)
    ensures SameHold(s, ApplyClose(s, e), h)
  {
    hide EvictIdle, ForgetDead, SetCache, DoForget, DoEvict, DoCloseDecide, SameHold, Returned;
    match e
    case ForgetPaths(t) =>
      ForgetShape(s, t);
      SectionSame(s, DoForget(s, t), ForgetDead(s.c, s.threads[t].phase.dead).cache, h);
    case EvictNow(t, named) =>
      EvictStateShape(s, t, named);
      SectionSame(s, DoEvict(s, t, named), EvictIdle(s.c, named, s.owner.Keys).cache, h);
    case CloseDecide(t) =>
      CloseDecideShape(s, t);
      SameFields(s, DoCloseDecide(s, t), h);
    case CloseLookUp(t) => SameFields(s, ApplyClose(s, e), h);
    case CloseTakeLock(t) => SameFields(s, ApplyClose(s, e), h);
  }

  lemma TakeHoldKeepsHold(s: State, t: nat, other: nat, h: nat)
    requires NamesNumbered(s) && t in s.threads && Returned(s, h) && other !in s.tokens
    ensures SameHold(s, DoTakeHold(s, t, other), h)
  {
    hide TakeHold, SetCache, DoTakeHold;
    TakeHoldShape(s, t, other);
    SectionKeepsHold(s, TakeHold(s.c, s.threads[t].path, NamedKey(s, s.threads[t].path)), h);
  }

  lemma CountKeepsHold(s: State, t: nat, h: nat)
    requires t in s.threads && s.threads[t].phase.Count? && Returned(s, h)
    requires s.threads[t].phase.hold in s.tokens && s.threads[t].phase.hold in s.conns
    ensures SameHold(s, DoCount(s, t), h)
  {
    hide DoCount, CompleteHold;
    CountShape(s, t);
  }

  lemma OpenedKeepsHold(s: State, t: nat, h: nat, conn: Connection, phase: Phase)
    requires t in s.threads && Connecting(s.threads[t].phase) && Returned(s, h)
    ensures SameHold(s, SetPhase(s.(conns := s.conns[s.threads[t].phase.hold := conn]), t, phase), h)
  {
  }

  lemma ConnectKeepsHold(s: State, e: Event, h: nat)
    requires Returned(s, h) && NamesNumbered(s) && ConnectEnabled(s, e)
    requires IsConnectStep(e)
    ensures SameHold(s, ApplyConnect(s, e), h)
  {
    hide DoTakeHold, DoCount, SameHold, Returned;
    match e
    case TakeHoldNow(t, _) => TakeHoldKeepsHold(s, t, e.hold, h);
    case CountAfter(t) => CountKeepsHold(s, t, h);
    case ConnectOk(t) => OpenedKeepsHold(s, t, h, Connection(s.names[s.threads[t].path], false),
                                         Look(s.threads[t].phase.hold, s.threads[t].phase.before));
    case ConnectFails(t) => SameFields(s, ApplyConnect(s, e), h);
    case LookAgain(t) => SameFields(s, ApplyConnect(s, e), h);
  }

  lemma PlainKeepsHold(s: State, e: Event, h: nat)
    requires Returned(s, h) && PlainEnabled(s, e) && IsPlainStep(e)
    ensures SameHold(s, ApplyPlain(s, e), h)
  {
    hide SameHold, Returned, DoProbe;
    match e
    case ProbeNext(t) => ProbeKeepsHold(s, t, h);
    case ListPaths(t, todo) => SameFields(s, SetPhase(s, t, Probe(todo, [])), h);
    case StartRead(t, p) => SameFields(s, ApplyPlain(s, e), h);
    case StartConnect(t, p) => SameFields(s, ApplyPlain(s, e), h);
    case GiveUp(t) => SameFields(s, SetPhase(s, t, Idle), h);
    case _ =>
  }

  lemma ProbeKeepsHold(s: State, t: nat, h: nat)
    requires t in s.threads && s.threads[t].phase.Probe? && Returned(s, h)
    ensures SameHold(s, DoProbe(s, t), h)
  {
  }

  lemma FilesKeepHold(s: State, e: Event, h: nat)
    requires Returned(s, h) && FileEnabled(s, e) && IsFileEvent(e) && e != Destroy(h)
    ensures SameHold(s, ApplyFile(s, e), h)
  {
  }

  lemma StaysCovered(s: State, e: Event, h: nat)
    requires Inv(s) && Enabled(s, e) && Covered(s, h) && s.conns[h].returned && e != Destroy(h)
    ensures Covered(Apply(s, e), h) && Apply(s, e).conns[h] == s.conns[h]
  {
    hide Inv, FileEnabled, PlainEnabled, ReadEnabled, CloseEnabled, ConnectEnabled,
      ApplyFile, ApplyPlain, ApplyRead, ApplyClose, ApplyConnect;
    ReturnedFacts(s, h);
    if IsReadStep(e) {
      ReadKeepsHold(s, e, h);
    } else if IsCloseStep(e) {
      CloseKeepsHold(s, e, h);
    } else if IsFileEvent(e) {
      FilesKeepHold(s, e, h);
    } else if IsPlainStep(e) {
      PlainKeepsHold(s, e, h);
    } else {
      ConnectKeepsHold(s, e, h);
    }
  }

  lemma {:induction false} CoveredAlongRun(r: seq<State>, es: seq<Event>, m: nat, n: nat, h: nat)
    requires Run(r, es) && m <= n < |r| && Covered(r[m], h) && r[m].conns[h].returned
    requires forall k :: m <= k < n ==> es[k] != Destroy(h)
    ensures Covered(r[n], h) && r[n].conns[h] == r[m].conns[h]
  {
    hide Inv, Enabled, Apply, Covered;
    if m < n {
      CoveredAlongRun(r, es, m, n - 1, h);
      RunKeeps(r, es, n - 1);
      StaysCovered(r[n - 1], es[n - 1], h);
    }
  }

  /**
   Over every run: from the moment `held_connect` returns a connection (event `m`) until it is
   destroyed, no descriptor the cache closes is on the inode that connection has open, provided
   the two stats of the call disagreed or one of them named that inode.
   */
  lemma NoCloseHitsConnection(r: seq<State>, es: seq<Event>, m: nat, n: nat, t: nat, h: nat)
    requires Run(r, es) && m < n < |es| && es[m] == CountAfter(t)
    requires t in r[m].threads && r[m].threads[t].phase.Count? && r[m].threads[t].phase.hold == h && h in r[m].conns
    requires r[m].conns[h].inst in r[m].num && SeenByStats(r[m], t)
    requires forall k :: m < k < n ==> es[k] != Destroy(h)
    requires Closes(r[n], es[n]).Some?
    ensures var fd := Closes(r[n], es[n]).value.fd;
            fd in r[n].open && r[n].open[fd] != r[m].conns[h].inst
  {
    hide Inv, FileEnabled, PlainEnabled, ReadEnabled, CloseEnabled, ConnectEnabled, Apply, Closes, Covered;
    RunKeeps(r, es, m);
    ReturnedIsCovered(r[m], t, r[m + 1]);
    CoveredAlongRun(r, es, m + 1, n, h);
    RunKeeps(r, es, n);
    CloseMissesHeld(r[n], es[n], Closes(r[n], es[n]).value, h);
  }
}
