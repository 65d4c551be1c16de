/** Each event keeps the invariant. */
module SystemSteps {
  import opened Basics
  import opened CacheModel
  import opened CacheInvariant
  import opened CacheSystem
  import opened SystemInvariant

  // ---- One thread changes ------------------------------------------------------------

  lemma LocksUpdate(threads: map<nat, Thread>, owner: map<nat, nat>, mapOwner: Option<nat>, next: nat,
                    t: nat, th: Thread, owner': map<nat, nat>, mapOwner': Option<nat>, next': nat)
    requires LocksOk(threads, owner, mapOwner, next) && ThreadOk(th, next') && next <= next'
    requires forall l :: l in owner' && owner'[l] == t <==> Owns(th, l)
    requires forall l :: l in owner && owner[l] != t ==> l in owner' && owner'[l] == owner[l]
    requires forall l :: l in owner' && owner'[l] != t ==> l in owner && owner[l] == owner'[l]
    requires th.phase == Opening <==> mapOwner' == Some(t)
    requires mapOwner == None || mapOwner == Some(t) || mapOwner' == mapOwner
    requires mapOwner' == None || mapOwner' == Some(t) || mapOwner' == mapOwner
    ensures LocksOk(threads[t := th], owner', mapOwner', next')
  {
    hide Owns, ThreadOk;
    forall u | u in threads ensures ThreadOk(threads[u], next') { ThreadOkLater(threads[u], next, next'); }
  }

  lemma ThreadOkLater(th: Thread, next: nat, next': nat)
    requires ThreadOk(th, next) && next <= next'
    ensures ThreadOk(th, next')
  {
  }

  lemma PinsUpdate(threads: map<nat, Thread>, locks: map<Key, nat>, open: map<nat, nat>, num: map<nat, Key>,
                   t: nat, th: Thread)
    requires PinsOk(threads, locks, open, num)
    requires HasPin(th.phase) ==> PinOk(th.phase.pin, locks, open, num)
    ensures PinsOk(threads[t := th], locks, open, num)
  {
  }

  lemma ConnsUpdate(threads: map<nat, Thread>, conns: map<nat, Connection>, tokens: map<nat, Release>,
                    queued: set<nat>, t: nat, th: Thread)
    requires ConnsOk(threads, conns, tokens, queued) && !Connecting(th.phase)
    ensures ConnsOk(threads[t := th], conns, tokens, queued)
  {
  }

  /** What a thread that owes the same closes, connects to nothing and pins nothing leaves in order. */
  lemma ThreadMoves(s: State, t: nat, th: Thread)
    requires Inv(s)
    requires th.stale == (if t in s.threads then s.threads[t].stale else [])
    requires !Connecting(th.phase) && !HasPin(th.phase)
    ensures var after := s.threads[t := th];
            && StalesDistinct(after) && Flight(after) == Flight(s.threads)
            && ConnsOk(after, s.conns, s.tokens, Ids(s.c.pending))
            && PinsOk(after, s.c.inodeLocks, s.open, s.num)
  {
    FlightSame(s.threads, t, th);
    ConnsUpdate(s.threads, s.conns, s.tokens, Ids(s.c.pending), t, th);
    PinsUpdate(s.threads, s.c.inodeLocks, s.open, s.num, t, th);
  }

  /** A thread moves on without touching anything shared. */
  lemma MoveOn(s: State, t: nat, th: Thread)
    requires Inv(s)
    requires th.stale == (if t in s.threads then s.threads[t].stale else []) && ThreadOk(th, s.c.nextLock)
    requires forall l :: (t in s.threads && Owns(s.threads[t], l)) <==> Owns(th, l)
    requires th.phase != Opening && s.mapOwner != Some(t) && !Connecting(th.phase) && !HasPin(th.phase)
    ensures Inv(SetThread(s, t, th))
  {
    ThreadMoves(s, t, th);
    LocksUpdate(s.threads, s.owner, s.mapOwner, s.c.nextLock, t, th, s.owner, s.mapOwner, s.c.nextLock);
  }

  // ---- Files -------------------------------------------------------------------------

  lemma NewNumber(s: State, i: nat, k: Key)
    requires Inv(s) && i !in s.num && k != NO_INODE
    ensures Accounted(s.c.fds, s.c.raceLosers, s.open, s.num[i := k], Flight(s.threads))
    ensures PinsOk(s.threads, s.c.inodeLocks, s.open, s.num[i := k])
  {
  }

  lemma CreateKeeps(s: State, path: Path, i: nat, k: Key)
    requires Inv(s) && i !in s.num && k != NO_INODE && (forall j :: Live(s, j) && j in s.num ==> s.num[j] != k)
    ensures Inv(s.(names := s.names[path := i], num := s.num[i := k]))
  {
    hide MapsAgree, Accounted, HoldsCounted, ConnsOk, LocksOk, PinsOk, StalesDistinct, WorldOk;
    NewNumber(s, i, k);
    NewName(s, path, i, k);
  }

  lemma NewName(s: State, path: Path, i: nat, k: Key)
    requires WorldOk(s.names, s.open, s.conns, s.num)
    requires i !in s.num && k != NO_INODE && (forall j :: Live(s, j) && j in s.num ==> s.num[j] != k)
    ensures WorldOk(s.names[path := i], s.open, s.conns, s.num[i := k])
  {
    var names := s.names[path := i];
    forall j | j in Alive(names, s.open, s.conns) && j != i ensures j in Alive(s.names, s.open, s.conns) && Live(s, j) {
      if j in names.Values { assert j in s.names.Values; }
    }
  }

  /** Names that only lead to files named before keep the world in order. */
  lemma RenameKeeps(s: State, names: map<Path, nat>)
    requires Inv(s) && forall p :: p in names ==> names[p] in s.names.Values
    ensures Inv(s.(names := names))
  {
    assert Alive(names, s.open, s.conns) <= Alive(s.names, s.open, s.conns);
  }

  // ---- Pins, closes and drains -------------------------------------------------------

  /** New locks are new objects and new descriptors take unused numbers, so no pin is disturbed. */
  lemma PinsExtend(threads: map<nat, Thread>, locks: map<Key, nat>, locks': map<Key, nat>, next: nat,
                   open: map<nat, nat>, open': map<nat, nat>, num: map<nat, Key>)
    requires PinsOk(threads, locks, open, num)
    requires forall t :: t in threads ==> ThreadOk(threads[t], next)
    requires LocksExtend(locks, locks', next)
    requires forall f :: f in open ==> f in open' && open'[f] == open[f]
    ensures PinsOk(threads, locks', open', num)
  {
  }

  /** Closing a descriptor retires its inode's lock with it, so no pin that is still current loses its descriptor. */
  lemma PinsClose(threads: map<nat, Thread>, locks: map<Key, nat>, open: map<nat, nat>, num: map<nat, Key>,
                  key: Key, fd: nat)
    requires PinsOk(threads, locks, open, num) && fd in open && open[fd] in num && num[open[fd]] == key
    ensures PinsOk(threads, locks - {key}, open - {fd}, num)
  {
  }

  lemma ConnsDrained(threads: map<nat, Thread>, conns: map<nat, Connection>, tokens: map<nat, Release>, queued: set<nat>)
    requires ConnsOk(threads, conns, tokens, queued)
    ensures ConnsOk(threads, conns, tokens - queued, {})
  {
  }

  /** A section that leaves the queue alone or empties it keeps the connections' holds. */
  lemma ConnsSection(s: State, c: Cache)
    requires ConnsOk(s.threads, s.conns, s.tokens, Ids(s.c.pending))
    requires c.pending == [] || c.pending == s.c.pending
    ensures ConnsOk(s.threads, s.conns, SetCache(s, c).tokens, Ids(c.pending))
  {
    ConnsDrained(s.threads, s.conns, s.tokens, Ids(s.c.pending));
    if c.pending == [] {
      assert Ids(c.pending) == {};
    }
  }

  lemma WorldOpen(names: map<Path, nat>, open: map<nat, nat>, conns: map<nat, Connection>, num: map<nat, Key>,
                  fd: nat, path: Path)
    requires WorldOk(names, open, conns, num) && path in names && fd !in open
    ensures WorldOk(names, open[fd := names[path]], conns, num)
  {
    var open' := open[fd := names[path]];
    forall i | i in Alive(names, open', conns) ensures i in Alive(names, open, conns) {
      if i in open'.Values && i != names[path] { assert i in open.Values; }
    }
  }

  lemma WorldClose(names: map<Path, nat>, open: map<nat, nat>, conns: map<nat, Connection>, num: map<nat, Key>, fd: nat)
    requires WorldOk(names, open, conns, num)
    ensures WorldOk(names, open - {fd}, conns, num)
  {
    forall i | i in Alive(names, open - {fd}, conns) ensures i in Alive(names, open, conns) {
      if i in (open - {fd}).Values { assert i in open.Values; }
    }
  }

  // ---- Resolving a path --------------------------------------------------------------

  ghost predicate LocksExtend(before: map<Key, nat>, after: map<Key, nat>, next: nat) {
    && (forall k :: k in before ==> k in after && after[k] == before[k])
    && (forall k :: k in after && k !in before ==> after[k] >= next)
  }

  /** What a resolving section leaves behind, given the descriptors in flight and the outstanding holds before it. */
  ghost predicate PinnedWell(c: Cache, p: Pinned, key: Key, open: map<nat, nat>, num: map<nat, Key>,
                             flight: set<Stale>, tokens: map<nat, Release>) {
    && MapsAgree(p.cache)
    && key in p.cache.inodeLocks && p.cache.inodeLocks[key] == p.lock && p.lock < p.cache.nextLock
    && c.nextLock <= p.cache.nextLock && LocksExtend(c.inodeLocks, p.cache.inodeLocks, c.nextLock)
    && Accounted(p.cache.fds, p.cache.raceLosers, open, num, flight + Fresh(p.stale))
    && (p.stale.Some? ==> p.stale.value !in flight)
    && (p.cache.pending == [] || p.cache.pending == c.pending)
    && HoldsCounted(p.cache, if p.cache.pending == [] then tokens - Ids(c.pending) else tokens)
  }

  lemma SettleWell(c: Cache, path: Path, fd: nat, key: Key, open: map<nat, nat>, num: map<nat, Key>,
                   flight: set<Stale>, tokens: map<nat, Release>)
    requires MapsAgree(c) && PinnedAs(c, key, fd) && Accounted(c.fds, c.raceLosers, open, num, flight)
    requires HoldsCounted(c, tokens)
    ensures PinnedWell(c, Settle(c, path, fd, key), key, open, num, flight, tokens)
  {
    hide MapsAgree, Accounted, HoldsCounted;
    SettleAgrees(c, path, fd, key);
    SettleAccounts(c, path, fd, key, open, num, flight);
    SettleCounts(c, path, fd, key, tokens);
    SettleLocks(c, path, fd, key);
  }

  lemma SettleLocks(c: Cache, path: Path, fd: nat, key: Key)
    requires MapsAgree(c) && PinnedAs(c, key, fd)
    ensures var p := Settle(c, path, fd, key);
            && p.lock < p.cache.nextLock && c.nextLock <= p.cache.nextLock
            && LocksExtend(c.inodeLocks, p.cache.inodeLocks, c.nextLock)
  {
    AssociateAgrees(c, path, key);
    LockForAgrees(Associate(c, path, key).0, key);
  }

  /** Facts about one thread the invariant gives. */
  lemma ThreadFacts(s: State, t: nat)
    requires Inv(s) && t in s.threads
    ensures ThreadOk(s.threads[t], s.c.nextLock)
    ensures forall l :: l in s.owner && s.owner[l] == t <==> Owns(s.threads[t], l)
    ensures s.mapOwner == Some(t) <==> s.threads[t].phase == Opening
    ensures forall l :: l in s.owner ==> l < s.c.nextLock
    ensures forall u :: u in s.threads ==> ThreadOk(s.threads[u], s.c.nextLock)
  {
  }

  /** The thread leaves the section with its pin and perhaps a descriptor to close. */
  lemma AfterPinKeeps(s: State, t: nat, p: Pinned, key: Key, inst: nat)
    requires Inv(s) && At(s, t)
    requires s.threads[t].phase == Opening || (s.threads[t].phase == Want && MapFree(s))
    requires PinnedWell(s.c, p, key, s.open, s.num, Flight(s.threads), s.tokens)
    requires inst in s.num && s.num[inst] == key && p.fd in s.open && s.open[p.fd] == inst
    ensures Inv(AfterPin(s, t, p, key, inst).(mapOwner := None))
  {
    hide MapsAgree, Accounted, WorldOk, HoldsCounted, ConnsOk, LocksOk, PinsOk, StalesDistinct, LocksExtend;
    ThreadFacts(s, t);
    var th := s.threads[t].(phase := Acquire(Pin(p.fd, key, p.lock, inst)), stale := StaleList(p.stale));
    assert Members(th.stale) == Fresh(p.stale);
    assert Owed(s.threads, t) == {};
    FlightUpdate(s.threads, t, th);
    assert Flight(s.threads) - {} == Flight(s.threads);
    ConnsSection(s, p.cache);
    ConnsUpdate(s.threads, s.conns, SetCache(s, p.cache).tokens, Ids(p.cache.pending), t, th);
    PinsExtend(s.threads, s.c.inodeLocks, p.cache.inodeLocks, s.c.nextLock, s.open, s.open, s.num);
    PinsUpdate(s.threads, p.cache.inodeLocks, s.open, s.num, t, th);
    LocksUpdate(s.threads, s.owner, s.mapOwner, s.c.nextLock, t, th, s.owner, None, p.cache.nextLock);
  }

  /** A number names one live instance, so a descriptor pinned under the number a path names is on the path's file. */
  lemma PinnedIsNamed(s: State, path: Path)
    requires Inv(s) && path in s.names && s.num[s.names[path]] in s.c.fds
    ensures var fd := s.c.fds[s.num[s.names[path]]]; fd in s.open && s.open[fd] == s.names[path]
  {
    var fd := s.c.fds[s.num[s.names[path]]];
    assert s.open[fd] in s.open.Values;
    assert s.open[fd] in Alive(s.names, s.open, s.conns);
    assert s.names[path] in s.names.Values;
    assert s.names[path] in Alive(s.names, s.open, s.conns);
  }

  lemma StatKeeps(s: State, t: nat)
    requires Inv(s) && NamesNumbered(s) && At(s, t) && s.threads[t].phase == Want && MapFree(s)
    ensures Inv(DoStat(s, t))
  {
    hide MapsAgree, Accounted, WorldOk, HoldsCounted, ConnsOk, LocksOk, PinsOk, StalesDistinct;
    ThreadFacts(s, t);
    var th := s.threads[t];
    if th.path !in s.names {
      MoveOn(s, t, th.(phase := Idle));
    } else {
      var inst := s.names[th.path];
      match LookUp(s.c, th.path, s.num[inst])
      case Hit(fd) =>
        PinnedIsNamed(s, th.path);
        SettleWell(s.c, th.path, fd, s.num[inst], s.open, s.num, Flight(s.threads), s.tokens);
        AfterPinKeeps(s, t, Settle(s.c, th.path, fd, s.num[inst]), s.num[inst], inst);
      case Full =>
        MoveOn(s, t, th.(phase := if th.swept then Phase.Evict else Snapshot));
      case Miss =>
        StartOpening(s, t);
    }
  }

  lemma StartOpening(s: State, t: nat)
    requires Inv(s) && At(s, t) && s.threads[t].phase == Want && MapFree(s)
    ensures Inv(SetPhase(s, t, Opening).(mapOwner := Some(t)))
  {
    hide MapsAgree, Accounted, WorldOk, HoldsCounted, ConnsOk, LocksOk, PinsOk, StalesDistinct;
    ThreadFacts(s, t);
    var th := s.threads[t].(phase := Opening);
    ThreadMoves(s, t, th);
    LocksUpdate(s.threads, s.owner, s.mapOwner, s.c.nextLock, t, th, s.owner, Some(t), s.c.nextLock);
  }

  lemma AdmitKeeps(s: State, fd: nat, path: Path)
    requires Inv(s) && path in s.names && fd !in s.open
    ensures var (d, used) := Admit(s.c, fd, s.num[s.names[path]]);
            Inv(s.(c := d, open := s.open[fd := s.names[path]])) && PinnedAs(d, s.num[s.names[path]], used)
  {
    hide MapsAgree, Accounted, ConnsOk, PinsOk, StalesDistinct;
    var inst := s.names[path];
    assert inst in s.names.Values;
    assert inst in Alive(s.names, s.open, s.conns);
    AdmitAgrees(s.c, fd, s.num[inst]);
    OpenAccounts(s.c.fds, s.c.raceLosers, s.open, s.num, Flight(s.threads), fd, inst);
    WorldOpen(s.names, s.open, s.conns, s.num, fd, path);
    PinsExtend(s.threads, s.c.inodeLocks, s.c.inodeLocks, s.c.nextLock, s.open, s.open[fd := inst], s.num);
  }

  /** The section with an open is: admit the descriptor, then settle the path, then free the map lock. */
  lemma OpenShape(s: State, t: nat, fd: nat)
    requires NamesNumbered(s) && t in s.threads && s.threads[t].path in s.names
    ensures var path := s.threads[t].path;
            var key := s.num[s.names[path]];
            var (d, used) := Admit(s.c, fd, key);
            DoOpen(s, t, fd) == AfterPin(s.(c := d, open := s.open[fd := s.names[path]]), t, Settle(d, path, used, key),
                                         key, s.names[path]).(mapOwner := None)
  {
  }

  lemma OpenFails(s: State, t: nat)
    requires Inv(s) && At(s, t) && s.threads[t].phase == Opening
    ensures Inv(SetPhase(s.(mapOwner := None), t, Idle))
  {
    hide MapsAgree, Accounted, WorldOk, HoldsCounted, ConnsOk, LocksOk, PinsOk, StalesDistinct;
    ThreadFacts(s, t);
    var th := s.threads[t].(phase := Idle);
    ThreadMoves(s, t, th);
    LocksUpdate(s.threads, s.owner, s.mapOwner, s.c.nextLock, t, th, s.owner, None, s.c.nextLock);
  }

  lemma OpenKeeps(s: State, t: nat, fd: nat)
    requires Inv(s) && NamesNumbered(s) && At(s, t) && s.threads[t].phase == Opening && fd !in s.open
    ensures Inv(DoOpen(s, t, fd))
  {
    hide MapsAgree, Accounted, WorldOk, HoldsCounted, ConnsOk, LocksOk, PinsOk, StalesDistinct, Settle, Admit, AfterPin;
    var path := s.threads[t].path;
    if path !in s.names {
      OpenFails(s, t);
    } else {
      AdmitKeeps(s, fd, path);
      var inst := s.names[path];
      var (d, used) := Admit(s.c, fd, s.num[inst]);
      var u := s.(c := d, open := s.open[fd := inst]);
      PinnedIsNamed(u, path);
      SettleWell(d, path, used, s.num[inst], u.open, u.num, Flight(u.threads), u.tokens);
      assert Settle(d, path, used, s.num[inst]).fd == used by { SettleFd(d, path, used, s.num[inst]); }
      AfterPinKeeps(u, t, Settle(d, path, used, s.num[inst]), s.num[inst], inst);
      OpenShape(s, t, fd);
    }
  }

  lemma SettleFd(c: Cache, path: Path, fd: nat, key: Key)
    ensures Settle(c, path, fd, key).fd == fd
  {
  }
}
