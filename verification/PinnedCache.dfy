/**
 The cache's module-level variables as an object, and the sections that run under the
 map lock as methods that update it in place.  Every method takes the abstract cache to
 what the corresponding function of `CacheModel` says, keeps the object valid, and says
 what that means: for the descriptors, and for the connections whose holds are outstanding.
 */
module PinnedCache {
  import opened Basics
  import opened CacheModel
  import opened CacheInvariant
  import opened CacheRetirement
  import CacheSystem
  import HoldSteps

  class Pins {
    var fds: map<Key, nat>
    var pathInode: map<Path, Key>
    var inodePaths: map<Key, set<Path>>
    var inodeLocks: map<Key, nat>
    var nextLock: nat
    var raceLosers: seq<nat>
    var useOrder: seq<Key>
    var holds: map<Path, int>
    var heldInodes: map<Key, int>
    var uncertain: int
    var pending: seq<Release>

    /** The holds taken and not yet given back to the counters. */
    ghost var tokens: map<nat, Release>

    function Abs(): Cache
      reads this
    {
      Cache(fds, pathInode, inodePaths, inodeLocks, nextLock, raceLosers, useOrder,
            holds, heldInodes, uncertain, pending)
    }

    /** The maps agree, no inode has the sentinel's number, and the counters count the outstanding holds. */
    ghost predicate Valid()
      reads this
    {
      MapsAgree(Abs()) && NO_INODE !in fds && HoldsCounted(Abs(), tokens)
    }

    constructor ()
      ensures Abs() == EMPTY_CACHE && tokens == map[] && Valid()
    {
      fds, pathInode, inodePaths, inodeLocks, nextLock := map[], map[], map[], map[], 0;
      raceLosers, useOrder, holds, heldInodes, uncertain, pending := [], [], map[], map[], 0, [];
      tokens := map[];
      new;
      NothingHeld();
    }

    /** `__del__`: queues the hold without taking any lock. What it forbids stays forbidden until the queue is
        drained; from then on exactly one hold fewer is counted. */
    method QueueRelease(r: Release)
      requires Valid() && r.id in tokens && tokens[r.id] == r && r.id !in Ids(pending)
      modifies this
      ensures Valid() && tokens == old(tokens) && Abs() == old(Abs()).(pending := old(pending) + [r])
      ensures forall key :: Held(Abs(), key) <==> old(Held(Abs(), key))
      ensures forall key :: Held(Drain(Abs()), key) <==> HeldBy(tokens - Ids(old(pending)) - {r.id}, key)
    {
      hide MapsAgree, HoldsCounted, HeldBy, Drain;
      HoldSteps.QueueCounts(Abs(), tokens, r.id);
      ghost var queued := Ids(pending);
      pending := pending + [r];
      HoldSteps.QueueMaps(old(Abs()), r);
      forall key ensures Held(Drain(Abs()), key) <==> HeldBy(tokens - queued - {r.id}, key) {
        HeldAfterDrain(Abs(), tokens, key);
        assert tokens - Ids(pending) == tokens - queued - {r.id};
      }
    }

    method ReleaseInodes(inodes: seq<Key>)
      modifies this`heldInodes
      ensures heldInodes == DecrementAll(old(heldInodes), inodes)
    {
      for i := 0 to |inodes|
        invariant DecrementAll(heldInodes, inodes[i..]) == DecrementAll(old(heldInodes), inodes)
      {
        assert inodes[i..][1..] == inodes[i + 1..];
        heldInodes := Decrement(heldInodes, inodes[i]);
      }
    }

    /** Afterwards an inode is held if and only if an outstanding hold, none of them queued any more, counts it or
        does not know its inode. */
    method DrainReleases()
      requires HoldsCounted(Abs(), tokens)
      modifies this`pending, this`holds, this`heldInodes, this`uncertain, this`tokens
      ensures Abs() == Drain(old(Abs())) && pending == []
      ensures HoldsCounted(Abs(), tokens) && tokens == old(tokens) - Ids(old(pending))
      ensures forall key :: Held(Abs(), key) <==> HeldBy(tokens, key)
    {
      hide DecrementAll, Decrement, HoldsCounted, HeldBy, Held;
      ghost var start, left := Abs(), tokens - Ids(pending);
      DrainedMeans(start, tokens);
      while pending != []
        invariant Drain(Abs()) == Drain(start)
        decreases |pending|
      {
        ghost var before := Abs();
        var r := pending[0];
        pending := pending[1..];
        holds := Decrement(holds, r.path);
        ReleaseInodes(r.inodes);
        if r.uncertain {
          uncertain := uncertain - 1;
        }
        assert Abs() == ApplyRelease(before, r).(pending := before.pending[1..]);
      }
      tokens := left;
    }

    method InodeLock(key: Key) returns (lock: nat)
      modifies this`inodeLocks, this`nextLock
      ensures (Abs(), lock) == LockFor(old(Abs()), key)
    {
      if key !in inodeLocks {
        inodeLocks := inodeLocks[key := nextLock];
        nextLock := nextLock + 1;
      }
      lock := inodeLocks[key];
    }

    /** Hands out the descriptor of the inode the path named before if and only if no other path names it and no
        connection that is still there holds it; only then does the descriptor leave the map. */
    method RetireLocked(path: Path, current: Key) returns (stale: Option<Stale>)
      requires Valid()
      modifies this`fds, this`inodePaths, this`useOrder, this`holds, this`heldInodes, this`uncertain, this`pending, this`tokens
      ensures (Abs(), stale) == Retire(old(Abs()), path, current) && HoldsCounted(Abs(), tokens)
      ensures RetiresWell(old(Abs()), old(tokens), path, current, Abs(), stale)
    {
      hide MapsAgree, HoldsCounted, RetiresWell, HeldBy, Drain, Held, Ids, Without, Retire, GetOr;
      RetiredMeans(Abs(), tokens, path, current);
      RetireCases(Abs(), path, current);
      NoneQueued(tokens);
      ghost var c := Abs();
      ghost var d := Retire(c, path, current);
      if path !in pathInode || pathInode[path] == current {
        assert d == (c, None);
        return None;
      }
      var previous := pathInode[path];
      if previous in inodePaths {
        var siblings := inodePaths[previous] - {path};
        if siblings != {} {
          assert d == (c.(inodePaths := c.inodePaths[previous := siblings]), None);
          inodePaths := inodePaths[previous := siblings];
          return None;
        }
      }
      inodePaths := inodePaths - {previous};
      KeepsCounts(c, Abs(), tokens);
      DrainReleases();
      if Held(Abs(), previous) {
        assert d == (Abs(), None);
        return None;
      }
      stale := if previous in fds then Some(Stale(previous, fds[previous])) else None;
      fds := fds - {previous};
      useOrder := Without(useOrder, previous);
      assert d == (Abs(), stale);
    }

    /** The end of `_pinned_fd_locked`, and the per-inode lock its caller takes next. */
    method Record(path: Path, key: Key, ghost fd: nat) returns (lock: nat, stale: Option<Stale>)
      requires Valid()
      modifies this
      ensures Pinned(Abs(), fd, lock, stale) == Settle(old(Abs()), path, fd, key) && HoldsCounted(Abs(), tokens)
    {
      hide MapsAgree, HoldsCounted, Retire, RetiresWell, Settle, LockFor, GetOr;
      SettleIs(Abs(), path, fd, key);
      stale := RetireLocked(path, key);
      ghost var retired := Abs();
      pathInode := pathInode[path := key];
      inodePaths := inodePaths[key := GetOr(inodePaths, key, {}) + {path}];
      lock := InodeLock(key);
      LockKeepsCounts(retired.(pathInode := pathInode, inodePaths := inodePaths), key);
      KeepsCounts(retired, Abs(), tokens);
    }

    /** The middle of `_pinned_fd_locked`: the descriptor just opened is pinned, or, when its inode already is, kept
        as a race loser while the pinned one is used. */
    method PinOpenedFd(openedFd: nat, key: Key) returns (fd: nat)
      requires Valid() && key != NO_INODE
      modifies this`fds, this`useOrder, this`raceLosers
      ensures Valid() && (Abs(), fd) == Admit(old(Abs()), openedFd, key) && PinnedAs(Abs(), key, fd)
    {
      hide MapsAgree, HoldsCounted, AppendUse;
      AdmitAgrees(Abs(), openedFd, key);
      AdmitKeepsCounts(Abs(), tokens, openedFd, key);
      if key in fds {
        raceLosers := raceLosers + [openedFd];
        fd := fds[key];
      } else {
        fds := fds[key := openedFd];
        useOrder := AppendUse(useOrder, key);
        fd := openedFd;
      }
    }

    /** What `_pinned_fd_locked` returns together with the per-inode lock its caller takes next;
        `None` is the refusal at the cap.  `statted` is the inode the stat named; an open, when
        one is needed, returns `openedFd` on inode `openedKey`. */
    method PinnedFd(path: Path, statted: Key, openedFd: nat, openedKey: Key)
        returns (r: Option<(nat, Key, nat, Option<Stale>)>)
      requires Valid() && statted != NO_INODE && openedKey != NO_INODE
      modifies this
      ensures Valid()
      ensures r == None <==> old(statted !in fds && |fds| >= MAX_PINNED_FDS && !FreesSlot(Abs(), path, statted))
      ensures r == None ==> Abs() == old(Abs()) && tokens == old(tokens)
      ensures r.Some? ==>
                var (fd, key, lock, stale) := r.value;
                var hit := old(statted in fds);
                && key == (if hit then statted else openedKey)
                && fd == (if old(key in fds) then old(fds)[key] else openedFd)
                && PinsWell(old(Abs()), old(tokens), path, key, fd, Pinned(Abs(), fd, lock, stale))
                && raceLosers == old(raceLosers) + if !hit && old(key in fds) then [openedFd] else []
    {
      hide MapsAgree, HoldsCounted, PinsWell, Settle, Admit;
      PinnedMeans(Abs(), tokens, path, statted, openedFd, openedKey);
      if statted in fds {
        var fd := fds[statted];
        var lock, stale := Record(path, statted, fd);
        return Some((fd, statted, lock, stale));
      }
      var freesASlot := path in pathInode && pathInode[path] != statted && pathInode[path] in inodePaths
                        && inodePaths[pathInode[path]] == {path};
      if |fds| >= MAX_PINNED_FDS && !freesASlot {
        return None;
      }
      var fd := PinOpenedFd(openedFd, openedKey);
      var lock, stale := Record(path, openedKey, fd);
      r := Some((fd, openedKey, lock, stale));
    }

    method MarkRead(key: Key)
      modifies this`useOrder
      ensures Abs() == CacheModel.MarkRead(old(Abs()), key)
    {
      useOrder := Without(useOrder, key) + [key];
    }

    /** Closed if and only if nothing pins the inode again and no counted hold is on it; then no map knows the inode
        or its lock. Otherwise the descriptor is pinned again, because of a hold, or kept as a race loser. */
    method CloseStaleLocked(stale: Stale) returns (fate: Fate)
      requires Valid() && stale.key != NO_INODE
      modifies this`fds, this`useOrder, this`raceLosers, this`inodeLocks
      ensures Valid() && fate == StaleFate(old(Abs()), stale) && Abs() == CloseStale(old(Abs()), stale)
      ensures ClosesWell(old(Abs()), tokens, stale, fate, Abs())
    {
      hide HoldsCounted, ClosesWell, MapsAgree, AppendUse;
      ClosedMeans(Abs(), tokens, stale);
      if stale.key !in fds && (stale.key in heldInodes || uncertain > 0) {
        fds := fds[stale.key := stale.fd];
        useOrder := AppendUse(useOrder, stale.key);
        return Kept;
      }
      if stale.key in fds {
        raceLosers := raceLosers + [stale.fd];
        return Lost;
      }
      inodeLocks := inodeLocks - {stale.key};
      return Closed;
    }

    /** One dead path: its inode's descriptor is handed out when nothing else needs it. */
    method ForgetPath(path: Path) returns (stale: Option<Stale>)
      requires Valid() && path in pathInode
      modifies this
      ensures Valid()
      ensures var (d, x) := Retire(old(Abs()), path, NO_INODE); Abs() == d.(pathInode := d.pathInode - {path}) && stale == x
    {
      hide Retire, MapsAgree, HoldsCounted, RetiresWell;
      ForgetOneAgrees(Abs(), path);
      stale := RetireLocked(path, NO_INODE);
      KeepsCounts(Abs(), Abs().(pathInode := pathInode - {path}), tokens);
      pathInode := pathInode - {path};
    }

    /** The second half of the dead-path sweep: forgets exactly the dead paths still mapped to the inode they were
        judged under, counts them, and hands out exactly the descriptors that leave the map. */
    method ForgetDeadPaths(dead: seq<(Path, Key)>) returns (stale: seq<Stale>, dropped: nat)
      requires Valid()
      modifies this
      ensures Valid() && Swept(Abs(), stale, dropped) == ForgetDead(old(Abs()), dead)
      ensures ForgetsWell(old(Abs()), dead, Swept(Abs(), stale, dropped))
    {
      hide Retire, MapsAgree, HoldsCounted, ForgetsWell;
      stale, dropped := [], 0;
      ghost var all := ForgetDead(Abs(), dead);
      ForgetDeadExact(Abs(), dead);
      for i := 0 to |dead|
        invariant Valid()
        invariant var rest := ForgetDead(Abs(), dead[i..]);
                  all == Swept(rest.cache, stale + rest.stale, dropped + rest.dropped)
      {
        assert dead[i..][1..] == dead[i + 1..];
        var (path, key) := dead[i];
        if path in pathInode && pathInode[path] == key {
          var retired := ForgetPath(path);
          dropped := dropped + 1;
          if retired.Some? {
            stale := stale + [retired.value];
          }
        }
      }
    }

    /** The loop over the paths of the inode being closed. */
    method ForgetPathsOf(paths: set<Path>, key: Key)
      modifies this`pathInode
      ensures pathInode == old(pathInode) - Named(old(pathInode), paths, key)
    {
      var todo := paths;
      while todo != {}
        invariant todo <= paths
        invariant pathInode == old(pathInode) - Named(old(pathInode), paths - todo, key)
        decreases |todo|
      {
        var p :| p in todo;
        NamedMore(old(pathInode), paths - todo, paths - (todo - {p}), p, key);
        todo := todo - {p};
        if p in pathInode && pathInode[p] == key {
          pathInode := pathInode - {p};
        }
      }
      assert paths - todo == paths;
    }

    /** The part of the eviction that forgets the inode being closed: of maps that agree, none knows the inode
        afterwards, and nothing else is forgotten. */
    method Unpin(key: Key)
      modifies this`fds, this`useOrder, this`pathInode, this`inodePaths, this`inodeLocks
      ensures Abs() == CacheModel.Unpin(old(Abs()), key)
      ensures key !in fds && key !in useOrder && key !in inodePaths && key !in inodeLocks
      ensures old(MapsAgree(Abs())) ==> MapsAgree(Abs()) && forall p :: p in pathInode <==> p in old(pathInode) && old(pathInode)[p] != key
      ensures forall p :: p in pathInode ==> p in old(pathInode) && pathInode[p] == old(pathInode)[p]
    {
      hide MapsAgree, CacheModel.Unpin, Named;
      UnpinIs(Abs(), key);
      if MapsAgree(Abs()) {
        UnpinAgrees(Abs(), key);
        UnpinForgets(Abs(), key);
      }
      fds := fds - {key};
      useOrder := Without(useOrder, key);
      var paths := GetOr(inodePaths, key, {});
      inodePaths := inodePaths - {key};
      ForgetPathsOf(paths, key);
      inodeLocks := inodeLocks - {key};
    }

    method ScanForIdle(held: set<Key>, taken: set<nat>) returns (outcome: Outcome, closed: Option<Stale>)
      modifies this`fds, this`useOrder, this`pathInode, this`inodePaths, this`inodeLocks, this`nextLock
      ensures Eviction(Abs(), outcome, closed) == EvictScan(old(Abs()), old(useOrder), held, taken, false)
    {
      var order, busy := useOrder, false;
      for i := 0 to |order|
        invariant EvictScan(Abs(), order[i..], held, taken, busy) == EvictScan(old(Abs()), order, held, taken, false)
      {
        assert order[i..][0] == order[i] && order[i..][1..] == order[i + 1..];
        var key := order[i];
        if key !in fds {
          useOrder := Without(useOrder, key);
        } else if key !in held {
          var fd := fds[key];
          var lock := InodeLock(key);
          if lock in taken {
            busy := true;
          } else {
            Unpin(key);
            return Evicted, Some(Stale(key, fd));
          }
        }
      }
      return if busy then Busy else AllHeld, None;
    }

    /** Closes at most one descriptor: one no connection or held path needs and no thread reads, the first such in read
        order; of it nothing is left. Any other answer leaves all descriptors pinned and has its reason. */
    method EvictIdleUnheld(named: map<Path, Key>, taken: set<nat>) returns (outcome: Outcome, closed: Option<Stale>)
      requires Valid() && forall l :: l in taken ==> l < nextLock
      modifies this
      ensures Valid() && Eviction(Abs(), outcome, closed) == EvictIdle(old(Abs()), named, taken)
      ensures tokens == old(tokens) - Ids(old(pending))
      ensures outcome == Evicted <==> closed.Some?
      ensures outcome == Evicted ==> WellEvicted(old(Abs()), tokens, named, taken, closed.value, Abs())
      ensures outcome != Evicted ==> Abs() == Drain(old(Abs()))
      ensures outcome == Room <==> |old(fds)| < MAX_PINNED_FDS
      ensures outcome == AllHeld ==> uncertain > 0 || forall k :: k in fds ==> k in HeldNow(Abs(), named)
      ensures outcome == Busy ==> exists k :: k in fds && k in inodeLocks && inodeLocks[k] in taken
    {
      hide MapsAgree, HoldsCounted, HeldNow, EvictScan, WellEvicted;
      EvictedWell(Abs(), tokens, named, taken);
      EvictRefusal(Abs(), named, taken);
      EvictShape(Abs(), named, taken);
      EvictAgrees(Abs(), named, taken);
      EvictCounts(Abs(), named, taken, tokens);
      DrainFrame(Abs());
      DrainReleases();
      if |fds| < MAX_PINNED_FDS {
        return Room, None;
      }
      if uncertain > 0 {
        return AllHeld, None;
      }
      outcome, closed := ScanForIdle(HeldNow(Abs(), named), taken);
    }

    /** A hold is counted for path and named inode before the file is opened: from here on no close is of that inode. */
    method HoldBeforeConnect(path: Path, before: Option<Key>, ghost h: nat)
      requires Valid() && h !in tokens
      modifies this
      ensures Valid() && Abs() == TakeHold(old(Abs()), path, before)
      ensures tokens == (old(tokens) - Ids(old(pending)))[h := Release(h, path, CacheSystem.HoldsOf(before), false)]
      ensures before.Some? ==> Held(Abs(), before.value)
      ensures GetOr(holds, path, 0) == GetOr(Drain(old(Abs())).holds, path, 0) + 1
    {
      hide MapsAgree, HoldsCounted, Drain;
      HoldSteps.TakeHoldCounts(Abs(), tokens, h, path, before);
      HoldSteps.TakeHoldMaps(Abs(), path, before);
      DrainReleases();
      holds := Increment(holds, path);
      if before.Some? {
        heldInodes := Increment(heldInodes, before.value);
      }
      tokens := tokens[h := Release(h, path, CacheSystem.HoldsOf(before), false)];
    }

    /** The inode the path names after the open is counted too; when it is not the one named before, nothing at all
        may be closed while the hold lives. */
    method HoldAfterConnect(before: Option<Key>, after: Option<Key>, ghost h: nat)
      requires Valid() && h in tokens && h !in Ids(pending) && tokens[h].inodes == CacheSystem.HoldsOf(before) && !tokens[h].uncertain
      modifies this
      ensures Valid() && Abs() == CompleteHold(old(Abs()), before, after)
      ensures tokens == old(tokens)[h := HoldSteps.FullHold(old(tokens)[h], before, after)]
      ensures forall key :: before == Some(key) || after == Some(key) || SwappedMidOpen(before, after) ==> Held(Abs(), key)
    {
      hide MapsAgree, HoldsCounted, Held, Increment;
      CompletedMeans(Abs(), tokens, h, before, after);
      HoldSteps.CompleteMaps(Abs(), before, after);
      if after.Some? && after != before {
        heldInodes := Increment(heldInodes, after.value);
      }
      if before.Some? && after != before {
        uncertain := uncertain + 1;
      }
      tokens := tokens[h := HoldSteps.FullHold(tokens[h], before, after)];
    }
  }

  lemma NothingHeld()
    ensures HoldsCounted(EMPTY_CACHE, map[]) && MapsAgree(EMPTY_CACHE)
  {
    assert forall k :: Holding(map[], k) == {};
    assert Doubtful(map[]) == {};
  }

  lemma DrainedMeans(c: Cache, tokens: map<nat, Release>)
    requires HoldsCounted(c, tokens)
    ensures var left := tokens - Ids(c.pending);
            && Drain(c).pending == [] && HoldsCounted(Drain(c), left)
            && forall key :: Held(Drain(c), key) <==> HeldBy(left, key)
  {
    hide HoldsCounted, Held, HeldBy, Drain;
    DrainFrame(c);
    DrainCounts(c, tokens);
    forall key ensures Held(Drain(c), key) <==> HeldBy(tokens - Ids(c.pending), key) { HeldAfterDrain(c, tokens, key); }
  }

  /** The ways retiring can go. */
  lemma RetireCases(c: Cache, path: Path, current: Key)
    ensures path !in c.pathInode || c.pathInode[path] == current ==> Retire(c, path, current) == (c, None)
    ensures path in c.pathInode && c.pathInode[path] != current ==>
              var previous := c.pathInode[path];
              var siblings := if previous in c.inodePaths then c.inodePaths[previous] - {path} else {};
              var e := Drain(c.(inodePaths := c.inodePaths - {previous}));
              Retire(c, path, current)
              == if siblings != {} then (c.(inodePaths := c.inodePaths[previous := siblings]), None)
                 else if Held(e, previous) then (e, None)
                 else (e.(fds := e.fds - {previous}, useOrder := Without(e.useOrder, previous)),
                       if previous in e.fds then Some(Stale(previous, e.fds[previous])) else None)
  {
  }

  lemma SettleIs(c: Cache, path: Path, fd: nat, key: Key)
    ensures var (d, stale) := Retire(c, path, key);
            var (e, lock) := LockFor(d.(pathInode := d.pathInode[path := key],
                                        inodePaths := d.inodePaths[key := GetOr(d.inodePaths, key, {}) + {path}]), key);
            Settle(c, path, fd, key) == Pinned(e, fd, lock, stale)
  {
    hide Retire, LockFor, GetOr;
  }

  lemma LockKeepsCounts(c: Cache, key: Key)
    ensures var d := LockFor(c, key).0; d.heldInodes == c.heldInodes && d.uncertain == c.uncertain && d.pending == c.pending
  {
  }

  lemma RetiredMeans(c: Cache, tokens: map<nat, Release>, path: Path, current: Key)
    requires MapsAgree(c) && HoldsCounted(c, tokens)
    ensures var (d, stale) := Retire(c, path, current);
            && RetiresWell(c, tokens, path, current, d, stale)
            && HoldsCounted(d, if d.pending == [] then tokens - Ids(c.pending) else tokens)
            && (d.pending == [] || d.pending == c.pending)
  {
    hide HoldsCounted, Unneeded, MapsAgree;
    RetiresUnneeded(c, tokens, path, current);
    RetireCounts(c, path, current, tokens);
    if path in c.pathInode && c.pathInode[path] != current {
      RetireShape(c, path, current);
    }
  }

  lemma PinnedMeans(c: Cache, tokens: map<nat, Release>, path: Path, statted: Key, openedFd: nat, openedKey: Key)
    requires MapsAgree(c) && HoldsCounted(c, tokens) && NO_INODE !in c.fds && statted != NO_INODE && openedKey != NO_INODE
    ensures statted in c.fds ==>
              var p := PinHit(c, path, statted);
              && PinsWell(c, tokens, path, statted, c.fds[statted], p) && p.cache.raceLosers == c.raceLosers
              && MapsAgree(p.cache) && NO_INODE !in p.cache.fds
    ensures var p := PinOpened(c, path, openedFd, openedKey);
            && PinsWell(c, tokens, path, openedKey, if openedKey in c.fds then c.fds[openedKey] else openedFd, p)
            && p.cache.raceLosers == c.raceLosers + (if openedKey in c.fds then [openedFd] else [])
            && MapsAgree(p.cache) && NO_INODE !in p.cache.fds
            && p.fd == (if openedKey in c.fds then c.fds[openedKey] else openedFd)
  {
    hide HoldsCounted, MapsAgree, PinsWell, Settle;
    OpensWell(c, tokens, path, openedFd, openedKey);
    WellPinned(c, tokens, path, openedKey, GetOr(c.fds, openedKey, openedFd), PinOpened(c, path, openedFd, openedKey));
    if statted in c.fds {
      SettlesWell(c, tokens, path, statted, c.fds[statted]);
      WellPinned(c, tokens, path, statted, c.fds[statted], PinHit(c, path, statted));
    }
  }

  lemma KeptWell(c: Cache, tokens: map<nat, Release>, x: Stale, order: seq<Key>)
    requires x.key !in c.fds && HeldBy(tokens, x.key)
    ensures ClosesWell(c, tokens, x, Kept, c.(fds := c.fds[x.key := x.fd], useOrder := order))
  {
    hide HeldBy;
    assert c.fds[x.key := x.fd] - {x.key} == c.fds - {x.key};
  }

  lemma LostWell(c: Cache, tokens: map<nat, Release>, x: Stale)
    requires x.key in c.fds
    ensures ClosesWell(c, tokens, x, Lost, c.(raceLosers := c.raceLosers + [x.fd]))
  {
    hide HeldBy;
  }

  lemma ClosedWell(c: Cache, tokens: map<nat, Release>, x: Stale)
    requires MapsAgree(c) && x.key !in c.fds && !HeldBy(tokens, x.key)
    ensures ClosesWell(c, tokens, x, Closed, c.(inodeLocks := c.inodeLocks - {x.key}))
  {
    hide HeldBy, MapsAgree;
    NotListed(c, x.key);
    assert c.inodeLocks - {x.key} - {x.key} == c.inodeLocks - {x.key};
  }

  lemma ClosedMeans(c: Cache, tokens: map<nat, Release>, x: Stale)
    requires MapsAgree(c) && HoldsCounted(c, tokens) && NO_INODE !in c.fds && x.key != NO_INODE
    ensures var d, fate := CloseStale(c, x), StaleFate(c, x);
            ClosesWell(c, tokens, x, fate, d) && MapsAgree(d) && HoldsCounted(d, tokens) && NO_INODE !in d.fds
  {
    hide HoldsCounted, HeldBy, MapsAgree, Held, AppendUse, ClosesWell;
    HeldIff(c, tokens, x.key);
    CloseStaleAgrees(c, x);
    KeepsCounts(c, CloseStale(c, x), tokens);
    match StaleFate(c, x)
    case Kept => KeptWell(c, tokens, x, AppendUse(c.useOrder, x.key));
    case Lost => LostWell(c, tokens, x);
    case Closed => ClosedWell(c, tokens, x);
  }

  /** Both inodes of a completed hold are held, and every inode when they differ. */
  lemma CompletedMeans(c: Cache, tokens: map<nat, Release>, h: nat, before: Option<Key>, after: Option<Key>)
    requires HoldsCounted(c, tokens) && h in tokens && h !in Ids(c.pending)
    requires tokens[h].inodes == CacheSystem.HoldsOf(before) && !tokens[h].uncertain
    ensures var d, full := CompleteHold(c, before, after), tokens[h := HoldSteps.FullHold(tokens[h], before, after)];
            && HoldsCounted(d, full)
            && forall key :: before == Some(key) || after == Some(key) || SwappedMidOpen(before, after) ==> Held(d, key)
  {
    hide HoldsCounted, HeldBy, Held, CompleteHold;
    HoldSteps.CompleteCounts(c, tokens, h, before, after);
    var d, full := CompleteHold(c, before, after), tokens[h := HoldSteps.FullHold(tokens[h], before, after)];
    forall key | before == Some(key) || after == Some(key) || SwappedMidOpen(before, after) ensures Held(d, key) {
      CountedIsHeld(full, h, key);
      HeldIff(d, full, key);
    }
  }

  lemma WellPinned(c: Cache, tokens: map<nat, Release>, path: Path, key: Key, fd: nat, p: Pinned)
    requires PinsWell(c, tokens, path, key, fd, p) && NO_INODE !in c.fds && key != NO_INODE
    ensures MapsAgree(p.cache) && NO_INODE !in p.cache.fds && p.fd == fd
  {
  }

  lemma NoneQueued(tokens: map<nat, Release>)
    ensures tokens - Ids([]) == tokens
  {
    assert Ids([]) == {};
  }

  lemma CountedIsHeld(tokens: map<nat, Release>, h: nat, key: Key)
    requires h in tokens && (tokens[h].uncertain || key in tokens[h].inodes)
    ensures HeldBy(tokens, key)
  {
  }

  /** The counters do not depend on the paths, descriptors and locks. */
  lemma KeepsCounts(c: Cache, d: Cache, tokens: map<nat, Release>)
    requires HoldsCounted(c, tokens) && d.heldInodes == c.heldInodes && d.uncertain == c.uncertain && d.pending == c.pending
    ensures HoldsCounted(d, tokens)
  {
  }

  /** The paths of the set that name the inode. */
  function Named(pathInode: map<Path, Key>, paths: set<Path>, key: Key): set<Path> {
    set p | p in paths && p in pathInode && pathInode[p] == key
  }

  lemma NamedMore(pathInode: map<Path, Key>, paths: set<Path>, more: set<Path>, p: Path, key: Key)
    requires more == paths + {p}
    ensures Named(pathInode, more, key) == Named(pathInode, paths, key) + if p in pathInode && pathInode[p] == key then {p} else {}
  {
  }

  lemma UnpinIs(c: Cache, key: Key)
    ensures CacheModel.Unpin(c, key)
            == c.(fds := c.fds - {key}, useOrder := Without(c.useOrder, key),
                  pathInode := c.pathInode - Named(c.pathInode, GetOr(c.inodePaths, key, {}), key),
                  inodePaths := c.inodePaths - {key}, inodeLocks := c.inodeLocks - {key})
  {
  }

  lemma UnpinForgets(c: Cache, key: Key)
    requires MapsAgree(c)
    ensures forall p :: p in CacheModel.Unpin(c, key).pathInode <==> p in c.pathInode && c.pathInode[p] != key
  {
  }
}
