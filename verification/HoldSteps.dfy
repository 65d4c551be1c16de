/** Sweeping, evicting, connecting and destroying connections keep the invariant; so every state of every run has it. */
module HoldSteps {
  import opened Basics
  import opened CacheModel
  import opened CacheInvariant
  import opened CacheSystem
  import opened SystemInvariant
  import opened SystemSteps
  import opened ThreadSteps

  // ---- The dead-path sweep -----------------------------------------------------------

  lemma NoSentinel(s: State)
    requires Inv(s)
    ensures NO_INODE !in s.c.fds
  {
  }

  lemma ForgetShape(s: State, t: nat)
    requires t in s.threads && s.threads[t].phase.Forget?
    ensures var swept := ForgetDead(s.c, s.threads[t].phase.dead);
            DoForget(s, t) ==
              s.(c := swept.cache, tokens := SetCache(s, swept.cache).tokens,
                 threads := s.threads[t := s.threads[t].(swept := true, stale := swept.stale,
                                                         phase := if swept.dropped > 0 then Want else Phase.Evict)])
  {
  }

  lemma ForgetKeeps(s: State, t: nat)
    requires Inv(s) && At(s, t) && s.threads[t].phase.Forget?
    ensures Inv(DoForget(s, t))
  {
    hide MapsAgree, Accounted, WorldOk, HoldsCounted, ConnsOk, LocksOk, PinsOk, StalesDistinct, DoForget, ForgetDead;
    ForgetShape(s, t);
    ThreadFacts(s, t);
    NoSentinel(s);
    var swept := ForgetDead(s.c, s.threads[t].phase.dead);
    var th := s.threads[t].(swept := true, stale := swept.stale,
                            phase := if swept.dropped > 0 then Want else Phase.Evict);
    ForgetDeadAgrees(s.c, s.threads[t].phase.dead);
    ForgetDeadAccounts(s.c, s.threads[t].phase.dead, s.open, s.num, Flight(s.threads));
    ForgetDeadCounts(s.c, s.threads[t].phase.dead, s.tokens);
    assert Owed(s.threads, t) == {};
    assert Flight(s.threads) - {} == Flight(s.threads);
    FlightUpdate(s.threads, t, th);
    ConnsSection(s, swept.cache);
    ConnsUpdate(s.threads, s.conns, SetCache(s, swept.cache).tokens, Ids(swept.cache.pending), t, th);
    PinsUpdate(s.threads, s.c.inodeLocks, s.open, s.num, t, th);
    LocksUpdate(s.threads, s.owner, s.mapOwner, s.c.nextLock, t, th, s.owner, s.mapOwner, swept.cache.nextLock);
  }

  // ---- Eviction ----------------------------------------------------------------------

  /** The cache, the descriptor table and the pins after an eviction. */
  lemma EvictShared(s: State, named: map<Path, Key>)
    requires Inv(s)
    ensures var ev := EvictIdle(s.c, named, s.owner.Keys);
            && MapsAgree(ev.cache) && s.c.nextLock <= ev.cache.nextLock
            && Accounted(ev.cache.fds, ev.cache.raceLosers, LeftOpen(s.open, ev.closed), s.num, Flight(s.threads))
            && WorldOk(s.names, LeftOpen(s.open, ev.closed), s.conns, s.num)
            && PinsOk(s.threads, ev.cache.inodeLocks, LeftOpen(s.open, ev.closed), s.num)
            && HoldsCounted(ev.cache, SetCache(s, ev.cache).tokens) && ev.cache.pending == []
  {
    hide MapsAgree, WorldOk, HoldsCounted, ConnsOk, PinsOk, StalesDistinct, EvictIdle;
    var taken := s.owner.Keys;
    assert forall l :: l in taken ==> l < s.c.nextLock;
    EvictAgrees(s.c, named, taken);
    EvictCounts(s.c, named, taken, s.tokens);
    EvictShape(s.c, named, taken);
    DrainFrame(s.c);
    var ev := EvictIdle(s.c, named, taken);
    if ev.closed.Some? {
      var x := ev.closed.value;
      EvictAccounts(s.c.fds, s.c.raceLosers, s.open, s.num, Flight(s.threads), x.key);
      WorldClose(s.names, s.open, s.conns, s.num, x.fd);
      PinsClose(s.threads, s.c.inodeLocks, s.open, s.num, x.key, x.fd);
    }
  }

  lemma EvictStateShape(s: State, t: nat, named: map<Path, Key>)
    requires t in s.threads
    ensures var ev := EvictIdle(s.c, named, s.owner.Keys);
            DoEvict(s, t, named) == s.(c := ev.cache, tokens := SetCache(s, ev.cache).tokens,
                                       open := LeftOpen(s.open, ev.closed),
                                       threads := s.threads[t := AfterEvict(s.threads[t], ev.outcome)])
  {
    hide EvictIdle, LeftOpen, AfterEvict;
  }

  lemma EvictKeeps(s: State, t: nat, named: map<Path, Key>)
    requires Inv(s) && At(s, t) && s.threads[t].phase == Phase.Evict
    ensures Inv(DoEvict(s, t, named))
  {
    hide MapsAgree, Accounted, WorldOk, HoldsCounted, ConnsOk, LocksOk, PinsOk, StalesDistinct, DoEvict, EvictIdle;
    ThreadFacts(s, t);
    EvictStateShape(s, t, named);
    EvictShared(s, named);
    var ev := EvictIdle(s.c, named, s.owner.Keys);
    var th := AfterEvict(s.threads[t], ev.outcome);
    FlightSame(s.threads, t, th);
    ConnsSection(s, ev.cache);
    ConnsUpdate(s.threads, s.conns, SetCache(s, ev.cache).tokens, Ids(ev.cache.pending), t, th);
    PinsUpdate(s.threads, ev.cache.inodeLocks, LeftOpen(s.open, ev.closed), s.num, t, th);
    LocksUpdate(s.threads, s.owner, s.mapOwner, s.c.nextLock, t, th, s.owner, s.mapOwner, ev.cache.nextLock);
  }

  // ---- Holds -------------------------------------------------------------------------

  lemma TakeHoldTally(held: map<Key, int>, doubts: int, tokens: map<nat, Release>, h: nat, path: Path,
                      before: Option<Key>)
    requires Tokens(tokens) && Counts(held, doubts, tokens) && h !in tokens
    ensures var after := tokens[h := Release(h, path, HoldsOf(before), false)];
            Tokens(after) && Counts(if before.Some? then Increment(held, before.value) else held, doubts, after)
  {
    hide Counts, Tokens;
    NewToken(held, doubts, tokens, h, path);
    if before.Some? {
      var one := tokens[h := Release(h, path, [], false)];
      CountOneMore(held, doubts, one, h, Release(h, path, [before.value], false), before.value);
      assert one[h := Release(h, path, HoldsOf(before), false)] == tokens[h := Release(h, path, HoldsOf(before), false)];
    }
  }

  lemma TakeHoldCounts(c: Cache, tokens: map<nat, Release>, h: nat, path: Path, before: Option<Key>)
    requires HoldsCounted(c, tokens) && h !in tokens
    ensures var d := TakeHold(c, path, before);
            && d.pending == []
            && HoldsCounted(d, (tokens - Ids(c.pending))[h := Release(h, path, HoldsOf(before), false)])
  {
    hide Counts, Tokens;
    DrainFrame(c);
    DrainCounts(c, tokens);
    var d := Drain(c);
    TakeHoldTally(d.heldInodes, d.uncertain, tokens - Ids(c.pending), h, path, before);
  }

  lemma TakeHoldShape(s: State, t: nat, h: nat)
    requires NamesNumbered(s) && t in s.threads
    ensures var path := s.threads[t].path;
            var before := NamedKey(s, path);
            var c := TakeHold(s.c, path, before);
            DoTakeHold(s, t, h) ==
              s.(c := c, tokens := SetCache(s, c).tokens[h := Release(h, path, HoldsOf(before), false)],
                 threads := s.threads[t := s.threads[t].(phase := Connect(h, before))])
  {
  }

  /** A thread that takes a new hold owns it alone. */
  lemma ConnsNewHold(threads: map<nat, Thread>, conns: map<nat, Connection>, tokens: map<nat, Release>,
                     queued: set<nat>, t: nat, th: Thread, r: Release)
    requires ConnsOk(threads, conns, tokens, queued) && th.phase.Connect?
    requires th.phase.hold !in tokens && th.phase.hold !in queued
    requires r == Release(th.phase.hold, th.path, HoldsOf(th.phase.before), false)
    ensures ConnsOk(threads[t := th], conns, tokens[th.phase.hold := r], queued)
  {
  }

  lemma TakeHoldKeeps(s: State, t: nat, h: nat)
    requires Inv(s) && NamesNumbered(s) && At(s, t) && s.threads[t].phase == Hold && MapFree(s) && h !in s.tokens
    ensures Inv(DoTakeHold(s, t, h))
  {
    hide MapsAgree, Accounted, WorldOk, ConnsOk, LocksOk, PinsOk, StalesDistinct, DoTakeHold, TakeHold;
    TakeHoldShape(s, t, h);
    ThreadFacts(s, t);
    var th := s.threads[t];
    var before := NamedKey(s, th.path);
    var c := TakeHold(s.c, th.path, before);
    var after := th.(phase := Connect(h, before));
    TakeHoldCounts(s.c, s.tokens, h, th.path, before);
    TakeHoldMaps(s.c, th.path, before);
    ConnsSection(s, c);
    FlightSame(s.threads, t, after);
    ConnsNewHold(s.threads, s.conns, SetCache(s, c).tokens, Ids(c.pending), t, after,
                 Release(h, th.path, HoldsOf(before), false));
    PinsUpdate(s.threads, s.c.inodeLocks, s.open, s.num, t, after);
    LocksUpdate(s.threads, s.owner, s.mapOwner, s.c.nextLock, t, after, s.owner, s.mapOwner, s.c.nextLock);
  }

  lemma TakeHoldMaps(c: Cache, path: Path, before: Option<Key>)
    requires MapsAgree(c)
    ensures var d := TakeHold(c, path, before);
            && MapsAgree(d) && d.fds == c.fds && d.raceLosers == c.raceLosers && d.inodeLocks == c.inodeLocks
            && d.nextLock == c.nextLock
  {
    DrainFrame(c);
  }

  // ---- Connections -------------------------------------------------------------------

  lemma WorldConns(names: map<Path, nat>, open: map<nat, nat>, conns: map<nat, Connection>, conns': map<nat, Connection>,
                   num: map<nat, Key>)
    requires WorldOk(names, open, conns, num)
    requires forall h :: h in conns' ==> conns'[h].inst in Alive(names, open, conns)
    ensures WorldOk(names, open, conns', num)
  {
    assert Alive(names, open, conns') <= Alive(names, open, conns);
  }

  lemma ConnsOpened(threads: map<nat, Thread>, conns: map<nat, Connection>, tokens: map<nat, Release>,
                    queued: set<nat>, t: nat, th: Thread, conn: Connection)
    requires ConnsOk(threads, conns, tokens, queued) && t in threads && threads[t].phase.Connect?
    requires th.path == threads[t].path && th.phase == Look(threads[t].phase.hold, threads[t].phase.before)
    requires !conn.returned
    ensures ConnsOk(threads[t := th], conns[th.phase.hold := conn], tokens, queued)
  {
  }

  lemma ConnectOkKeeps(s: State, t: nat)
    requires Inv(s) && At(s, t) && s.threads[t].phase.Connect? && s.threads[t].path in s.names
    ensures var h := s.threads[t].phase.hold;
            Inv(SetPhase(s.(conns := s.conns[h := Connection(s.names[s.threads[t].path], false)]),
                         t, Look(h, s.threads[t].phase.before)))
  {
    hide MapsAgree, Accounted, HoldsCounted, WorldOk, ConnsOk, LocksOk, PinsOk, StalesDistinct;
    ThreadFacts(s, t);
    var h := s.threads[t].phase.hold;
    var conn := Connection(s.names[s.threads[t].path], false);
    var th := s.threads[t].(phase := Look(h, s.threads[t].phase.before));
    FlightSame(s.threads, t, th);
    ConnsOpened(s.threads, s.conns, s.tokens, Ids(s.c.pending), t, th, conn);
    assert conn.inst in s.names.Values;
    WorldConns(s.names, s.open, s.conns, s.conns[h := conn], s.num);
    PinsUpdate(s.threads, s.c.inodeLocks, s.open, s.num, t, th);
    LocksUpdate(s.threads, s.owner, s.mapOwner, s.c.nextLock, t, th, s.owner, s.mapOwner, s.c.nextLock);
  }

  /** Queueing an outstanding hold nobody else will queue keeps the counts. */
  lemma QueueCounts(c: Cache, tokens: map<nat, Release>, h: nat)
    requires HoldsCounted(c, tokens) && h in tokens && h !in Ids(c.pending)
    ensures HoldsCounted(c.(pending := c.pending + [tokens[h]]), tokens)
    ensures Ids(c.pending + [tokens[h]]) == Ids(c.pending) + {h}
  {
    var after := c.pending + [tokens[h]];
    assert tokens[h].id == h;
    forall i | 0 <= i < |c.pending| ensures c.pending[i].id in Ids(c.pending) { }
    forall x | x in Ids(c.pending) + {h} ensures x in Ids(after) {
      if x == h {
        assert after[|c.pending|].id == h;
      } else {
        var i :| 0 <= i < |c.pending| && c.pending[i].id == x;
        assert after[i].id == x;
      }
    }
  }

  lemma ConnsFailed(threads: map<nat, Thread>, conns: map<nat, Connection>, tokens: map<nat, Release>,
                    queued: set<nat>, t: nat, th: Thread)
    requires ConnsOk(threads, conns, tokens, queued) && t in threads && threads[t].phase.Connect?
    requires !Connecting(th.phase)
    ensures ConnsOk(threads[t := th], conns, tokens, queued + {threads[t].phase.hold})
  {
  }

  lemma ConnectFailsKeeps(s: State, t: nat)
    requires Inv(s) && At(s, t) && s.threads[t].phase.Connect? && s.threads[t].phase.hold in s.tokens
    ensures Inv(SetPhase(Queue(s, s.tokens[s.threads[t].phase.hold]), t, Idle))
  {
    hide MapsAgree, Accounted, HoldsCounted, WorldOk, LocksOk, PinsOk, StalesDistinct;
    ThreadFacts(s, t);
    var h := s.threads[t].phase.hold;
    var th := s.threads[t].(phase := Idle);
    FlightSame(s.threads, t, th);
    QueueCounts(s.c, s.tokens, h);
    QueueMaps(s.c, s.tokens[h]);
    ConnsFailed(s.threads, s.conns, s.tokens, Ids(s.c.pending), t, th);
    PinsUpdate(s.threads, s.c.inodeLocks, s.open, s.num, t, th);
    LocksUpdate(s.threads, s.owner, s.mapOwner, s.c.nextLock, t, th, s.owner, s.mapOwner, s.c.nextLock);
  }

  lemma QueueMaps(c: Cache, r: Release)
    requires MapsAgree(c)
    ensures MapsAgree(c.(pending := c.pending + [r]))
  {
  }

  lemma ConnsDestroyed(threads: map<nat, Thread>, conns: map<nat, Connection>, tokens: map<nat, Release>,
                       queued: set<nat>, h: nat)
    requires ConnsOk(threads, conns, tokens, queued) && h in conns && conns[h].returned
    ensures ConnsOk(threads, conns - {h}, tokens, queued + {h})
  {
  }

  lemma DestroyKeeps(s: State, h: nat)
    requires Inv(s) && h in s.conns && s.conns[h].returned && h in s.tokens
    ensures Inv(Queue(s.(conns := s.conns - {h}), s.tokens[h]))
  {
    hide MapsAgree, Accounted, HoldsCounted, WorldOk, LocksOk, PinsOk, StalesDistinct;
    QueueCounts(s.c, s.tokens, h);
    QueueMaps(s.c, s.tokens[h]);
    ConnsDestroyed(s.threads, s.conns, s.tokens, Ids(s.c.pending), h);
    WorldConns(s.names, s.open, s.conns, s.conns - {h}, s.num);
  }

  lemma ConnsLooked(threads: map<nat, Thread>, conns: map<nat, Connection>, tokens: map<nat, Release>,
                    queued: set<nat>, t: nat, th: Thread)
    requires ConnsOk(threads, conns, tokens, queued) && t in threads && threads[t].phase.Look? && th.phase.Count?
    requires th.path == threads[t].path && th.phase.hold == threads[t].phase.hold
    requires th.phase.before == threads[t].phase.before
    ensures ConnsOk(threads[t := th], conns, tokens, queued)
  {
  }

  lemma LookAgainKeeps(s: State, t: nat)
    requires Inv(s) && NamesNumbered(s) && At(s, t) && s.threads[t].phase.Look?
    ensures Inv(SetPhase(s, t, Count(s.threads[t].phase.hold, s.threads[t].phase.before,
                                     NamedKey(s, s.threads[t].path))))
  {
    hide MapsAgree, Accounted, HoldsCounted, WorldOk, ConnsOk, LocksOk, PinsOk, StalesDistinct;
    ThreadFacts(s, t);
    var th := s.threads[t].(phase := Count(s.threads[t].phase.hold, s.threads[t].phase.before,
                                           NamedKey(s, s.threads[t].path)));
    FlightSame(s.threads, t, th);
    ConnsLooked(s.threads, s.conns, s.tokens, Ids(s.c.pending), t, th);
    PinsUpdate(s.threads, s.c.inodeLocks, s.open, s.num, t, th);
    LocksUpdate(s.threads, s.owner, s.mapOwner, s.c.nextLock, t, th, s.owner, s.mapOwner, s.c.nextLock);
  }

  function FullHold(hold: Release, before: Option<Key>, after: Option<Key>): Release {
    hold.(inodes := HoldInodes(before, after), uncertain := SwappedMidOpen(before, after))
  }

  lemma QueuedUpdate(pending: seq<Release>, tokens: map<nat, Release>, h: nat, r: Release)
    requires Queued(pending, tokens) && h !in Ids(pending)
    ensures Queued(pending, tokens[h := r])
  {
    forall i | 0 <= i < |pending| ensures pending[i].id in Ids(pending) { }
  }

  /** The second section's counting: the inode found after the open, and the doubt when it is another one. */
  lemma CompleteTally(held: map<Key, int>, doubts: int, tokens: map<nat, Release>, h: nat, before: Option<Key>,
                      after: Option<Key>)
    requires Tokens(tokens) && Counts(held, doubts, tokens) && h in tokens
    requires tokens[h].inodes == HoldsOf(before) && !tokens[h].uncertain
    ensures var full := tokens[h := FullHold(tokens[h], before, after)];
            && Tokens(full)
            && Counts(if after.Some? && after != before then Increment(held, after.value) else held,
                      if SwappedMidOpen(before, after) then doubts + 1 else doubts, full)
  {
    hide Counts, Tokens;
    var hold := FullHold(tokens[h], before, after);
    var counted := tokens[h := hold.(uncertain := false)];
    var held' := if after.Some? && after != before then Increment(held, after.value) else held;
    if after.Some? && after != before {
      CountOneMore(held, doubts, tokens, h, hold.(uncertain := false), after.value);
    } else {
      assert hold.inodes == tokens[h].inodes;
      assert counted == tokens;
    }
    if hold.uncertain {
      MarkDoubtful(held', doubts, counted, h);
      assert counted[h := counted[h].(uncertain := true)] == tokens[h := hold];
    } else {
      assert counted == tokens[h := hold];
    }
  }

  lemma CompleteCounts(c: Cache, tokens: map<nat, Release>, h: nat, before: Option<Key>, after: Option<Key>)
    requires HoldsCounted(c, tokens) && h in tokens && h !in Ids(c.pending)
    requires tokens[h].inodes == HoldsOf(before) && !tokens[h].uncertain
    ensures HoldsCounted(CompleteHold(c, before, after), tokens[h := FullHold(tokens[h], before, after)])
    ensures CompleteHold(c, before, after).pending == c.pending
  {
    hide Counts, Tokens, Queued;
    CompleteTally(c.heldInodes, c.uncertain, tokens, h, before, after);
    QueuedUpdate(c.pending, tokens, h, FullHold(tokens[h], before, after));
  }

  lemma ConnsReturned(threads: map<nat, Thread>, conns: map<nat, Connection>, tokens: map<nat, Release>,
                      queued: set<nat>, t: nat, th: Thread, conn: Connection, r: Release)
    requires ConnsOk(threads, conns, tokens, queued) && t in threads && threads[t].phase.Count? && !Connecting(th.phase)
    ensures var h := threads[t].phase.hold;
            ConnsOk(threads[t := th], conns[h := conn], tokens[h := r], queued)
  {
  }

  lemma CompleteMaps(c: Cache, before: Option<Key>, after: Option<Key>)
    requires MapsAgree(c)
    ensures var d := CompleteHold(c, before, after);
            && MapsAgree(d) && d.fds == c.fds && d.raceLosers == c.raceLosers && d.inodeLocks == c.inodeLocks
            && d.nextLock == c.nextLock
  {
    hide PathsAgree, OrderAgrees, LocksDistinct;
  }

  lemma CountShape(s: State, t: nat)
    requires t in s.threads && s.threads[t].phase.Count?
    requires s.threads[t].phase.hold in s.tokens && s.threads[t].phase.hold in s.conns
    ensures var Count(h, before, after) := s.threads[t].phase;
            DoCount(s, t) ==
              s.(c := CompleteHold(s.c, before, after), tokens := s.tokens[h := FullHold(s.tokens[h], before, after)],
                 conns := s.conns[h := s.conns[h].(returned := true)],
                 threads := s.threads[t := s.threads[t].(phase := Idle)])
  {
  }

  lemma CountKeeps(s: State, t: nat)
    requires Inv(s) && At(s, t) && s.threads[t].phase.Count?
    requires s.threads[t].phase.hold in s.tokens && s.threads[t].phase.hold in s.conns
    ensures Inv(DoCount(s, t))
  {
    hide MapsAgree, Accounted, HoldsCounted, WorldOk, LocksOk, PinsOk, StalesDistinct, DoCount, CompleteHold;
    CountShape(s, t);
    ThreadFacts(s, t);
    var Count(h, before, after) := s.threads[t].phase;
    var th := s.threads[t].(phase := Idle);
    FlightSame(s.threads, t, th);
    CompleteMaps(s.c, before, after);
    CompleteCounts(s.c, s.tokens, h, before, after);
    ConnsReturned(s.threads, s.conns, s.tokens, Ids(s.c.pending), t, th, s.conns[h].(returned := true),
                  FullHold(s.tokens[h], before, after));
    WorldConns(s.names, s.open, s.conns, s.conns[h := s.conns[h].(returned := true)], s.num);
    PinsUpdate(s.threads, s.c.inodeLocks, s.open, s.num, t, th);
    LocksUpdate(s.threads, s.owner, s.mapOwner, s.c.nextLock, t, th, s.owner, s.mapOwner, s.c.nextLock);
  }
}
