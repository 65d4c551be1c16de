/** When a descriptor is retired or evicted, and what the sweep of dead paths forgets, exactly. */
module CacheRetirement {
  import opened Basics
  import opened CacheModel
  import opened CacheInvariant

  /** Draining does not look at the paths. */
  lemma {:induction false} DrainPaths(c: Cache, inodePaths: map<Key, set<Path>>)
    ensures Drain(c.(inodePaths := inodePaths)) == Drain(c).(inodePaths := inodePaths)
    decreases |c.pending|
  {
    if c.pending != [] {
      DrainPaths(ApplyRelease(c, c.pending[0]).(pending := c.pending[1..]), inodePaths);
    }
  }

  /** Retiring a path hands out the descriptor of its previous inode if and only if no other path names that
      inode and, with all queued releases applied, no hold is on it. */
  lemma RetiredIffUnneeded(c: Cache, path: Path, current: Key)
    requires MapsAgree(c) && path in c.pathInode && c.pathInode[path] != current
    ensures var previous := c.pathInode[path];
            Retire(c, path, current).1
            == if c.inodePaths[previous] == {path} && !Held(Drain(c), previous) then Some(Stale(previous, c.fds[previous]))
               else None
  {
    hide Drain;
    var previous := c.pathInode[path];
    DrainPaths(c, c.inodePaths - {previous});
    DrainFrame(c);
    assert path in c.inodePaths[previous];
    assert c.inodePaths[previous] == {path} <==> c.inodePaths[previous] - {path} == {} by {
      if c.inodePaths[previous] - {path} == {} {
        assert forall p :: p in c.inodePaths[previous] ==> p == path by {
          forall p | p in c.inodePaths[previous] ensures p == path {
            assert p in c.inodePaths[previous] - {path} <==> p != path;
          }
        }
      }
    }
  }

  /** The sweep forgets exactly the dead paths still mapped to the inode they were judged under; it counts them,
      and hands out exactly the descriptors that leave the map, none of them named by a path any more. */
  lemma {:induction false} ForgetDeadExact(c: Cache, dead: seq<(Path, Key)>)
    requires MapsAgree(c) && NO_INODE !in c.fds
    ensures ForgetsWell(c, dead, ForgetDead(c, dead))
    decreases |dead|
  {
    if dead != [] {
      var (path, key) := dead[0];
      assert forall y :: y in dead <==> y == dead[0] || y in dead[1..];
      if path !in c.pathInode || c.pathInode[path] != key {
        ForgetDeadExact(c, dead[1..]);
      } else {
        ForgetStep(c, dead, path);
      }
    } else {
      NothingSwept(c);
    }
  }

  lemma NothingSwept(c: Cache)
    requires MapsAgree(c)
    ensures forall x: Stale :: !(PinnedAs(c, x.key, x.fd) && x.key !in c.fds)
  {
  }

  lemma ForgetStep(c: Cache, dead: seq<(Path, Key)>, path: Path)
    requires MapsAgree(c) && NO_INODE !in c.fds && dead != [] && path in c.pathInode && dead[0] == (path, c.pathInode[path])
    ensures ForgetsWell(c, dead, ForgetDead(c, dead))
    decreases |dead|, 0
  {
    hide Retire, MapsAgree, ForgetsWell;
    ForgetOneAgrees(c, path);
    var (r, stale) := Retire(c, path, NO_INODE);
    var d := r.(pathInode := r.pathInode - {path});
    assert r.pathInode == c.pathInode by { RetireKeepsPaths(c, path); }
    ForgetDeadExact(d, dead[1..]);
    FewerPins(d, dead[1..]);
    var rest := ForgetDead(d, dead[1..]);
    ListedAfter(rest.cache);
    ForgetsOneMore(c, dead, path, d, stale, rest);
  }

  lemma ForgetsOneMore(c: Cache, dead: seq<(Path, Key)>, path: Path, d: Cache, stale: Option<Stale>, rest: Swept)
    requires dead != [] && path in c.pathInode && dead[0] == (path, c.pathInode[path])
    requires d.pathInode == c.pathInode - {path} && d.fds == if stale.Some? then c.fds - {stale.value.key} else c.fds
    requires stale.Some? ==> PinnedAs(c, stale.value.key, stale.value.fd)
    requires ForgetsWell(d, dead[1..], rest)
    requires (forall k :: k in rest.cache.fds ==> k in d.fds) && (forall k :: k in rest.cache.inodePaths ==> k in rest.cache.fds)
    ensures ForgetsWell(c, dead, Swept(rest.cache, (if stale.Some? then [stale.value] else []) + rest.stale, rest.dropped + 1))
  {
    hide PathsForgotten, DescriptorsHanded;
    OnePathMore(c.pathInode, dead, path, rest.cache.pathInode, rest.dropped);
    HandedMore(c, d, stale, rest);
  }

  lemma OnePathMore(before: map<Path, Key>, dead: seq<(Path, Key)>, path: Path, after: map<Path, Key>, dropped: nat)
    requires dead != [] && path in before && dead[0] == (path, before[path])
    requires PathsForgotten(before - {path}, dead[1..], after, dropped)
    ensures PathsForgotten(before, dead, after, dropped + 1)
  {
    MapRemoveSize(before, path);
    assert forall y :: y in dead <==> y == dead[0] || y in dead[1..];
  }

  lemma HandedMore(c: Cache, d: Cache, stale: Option<Stale>, rest: Swept)
    requires d.fds == if stale.Some? then c.fds - {stale.value.key} else c.fds
    requires stale.Some? ==> PinnedAs(c, stale.value.key, stale.value.fd)
    requires DescriptorsHanded(d, rest.stale, rest.cache)
    requires (forall k :: k in rest.cache.fds ==> k in d.fds) && (forall k :: k in rest.cache.inodePaths ==> k in rest.cache.fds)
    ensures DescriptorsHanded(c, (if stale.Some? then [stale.value] else []) + rest.stale, rest.cache)
  {
  }

  lemma RetireKeepsPaths(c: Cache, path: Path)
    requires MapsAgree(c) && NO_INODE !in c.fds && path in c.pathInode
    ensures Retire(c, path, NO_INODE).0.pathInode == c.pathInode
  {
    RetireShape(c, path, NO_INODE);
  }

  lemma FewerPins(c: Cache, dead: seq<(Path, Key)>)
    requires MapsAgree(c) && NO_INODE !in c.fds
    ensures forall k :: k in ForgetDead(c, dead).cache.fds ==> k in c.fds
    ensures MapsAgree(ForgetDead(c, dead).cache)
    decreases |dead|
  {
    hide MapsAgree, Retire;
    ForgetDeadAgrees(c, dead);
    if dead != [] {
      var (path, key) := dead[0];
      if path !in c.pathInode || c.pathInode[path] != key {
        FewerPins(c, dead[1..]);
      } else {
        ForgetOneAgrees(c, path);
        var d := Retire(c, path, NO_INODE).0;
        FewerPins(d.(pathInode := d.pathInode - {path}), dead[1..]);
      }
    }
  }

  lemma ListedAfter(c: Cache)
    requires MapsAgree(c)
    ensures forall k :: k in c.inodePaths ==> k in c.fds
  {
  }

  // ---- Holds, by the connections that have them --------------------------------------

  /** Some outstanding hold counts the inode, or does not know which inode it is on. */
  ghost predicate HeldBy(tokens: map<nat, Release>, key: Key) {
    exists h :: h in tokens && (tokens[h].uncertain || key in tokens[h].inodes)
  }

  /** The counters forbid closing an inode if and only if some outstanding hold does. */
  lemma HeldIff(c: Cache, tokens: map<nat, Release>, key: Key)
    requires HoldsCounted(c, tokens)
    ensures Held(c, key) <==> HeldBy(tokens, key)
  {
    if h :| h in tokens && (tokens[h].uncertain || key in tokens[h].inodes) {
      if tokens[h].uncertain {
        assert h in Doubtful(tokens);
      } else {
        assert h in Holding(tokens, key);
      }
    }
    if Held(c, key) {
      if key in c.heldInodes {
        var h :| h in Holding(tokens, key);
      } else {
        var h :| h in Doubtful(tokens);
      }
    }
  }

  /** With the queued releases applied, only the holds not queued are left. */
  lemma HeldAfterDrain(c: Cache, tokens: map<nat, Release>, key: Key)
    requires HoldsCounted(c, tokens)
    ensures Held(Drain(c), key) <==> HeldBy(tokens - Ids(c.pending), key)
  {
    hide Drain, HoldsCounted, Held, HeldBy;
    DrainCounts(c, tokens);
    HeldIff(Drain(c), tokens - Ids(c.pending), key);
  }

  /** What is handed out for closing when `path` comes to name `key`: the descriptor of the inode it named, if no other
      path names that inode and no connection that is still there holds it. */
  ghost function Unneeded(c: Cache, tokens: map<nat, Release>, path: Path, key: Key): Option<Stale> {
    if path !in c.pathInode || c.pathInode[path] == key then None
    else
      var previous := c.pathInode[path];
      if previous in c.fds && GetOr(c.inodePaths, previous, {}) == {path} && !HeldBy(tokens - Ids(c.pending), previous)
      then Some(Stale(previous, c.fds[previous])) else None
  }

  lemma RetiresUnneeded(c: Cache, tokens: map<nat, Release>, path: Path, current: Key)
    requires MapsAgree(c) && HoldsCounted(c, tokens)
    ensures Retire(c, path, current).1 == Unneeded(c, tokens, path, current)
  {
    hide Drain, HoldsCounted, HeldBy;
    if path in c.pathInode && c.pathInode[path] != current {
      RetiredIffUnneeded(c, path, current);
      HeldAfterDrain(c, tokens, c.pathInode[path]);
    }
  }

  /** What retiring hands out and leaves behind: the descriptor is handed out, and leaves the map, exactly when nothing
      needs it any more; paths, locks and race losers stay. */
  ghost predicate RetiresWell(c: Cache, tokens: map<nat, Release>, path: Path, current: Key, d: Cache, stale: Option<Stale>) {
    && stale == Unneeded(c, tokens, path, current)
    && d.fds == (if stale.Some? then c.fds - {stale.value.key} else c.fds)
    && d.pathInode == c.pathInode && d.inodeLocks == c.inodeLocks && d.raceLosers == c.raceLosers
  }

  /** What becomes of a retired descriptor: closed exactly when its inode is not pinned again and no outstanding hold is
      on it, and then no map knows the inode or its lock; pinned again because of a hold; or kept as a race loser.
      Other inodes are not touched. */
  ghost predicate ClosesWell(c: Cache, tokens: map<nat, Release>, x: Stale, fate: Fate, d: Cache) {
    && (fate == Closed <==> x.key !in c.fds && !HeldBy(tokens, x.key))
    && (fate == Closed ==> x.key !in d.fds && x.key !in d.inodePaths && x.key !in d.useOrder && x.key !in d.inodeLocks)
    && (fate == Kept <==> x.key !in c.fds && PinnedAs(d, x.key, x.fd))
    && (fate == Lost <==> d.raceLosers == c.raceLosers + [x.fd])
    && d.pathInode == c.pathInode && d.fds - {x.key} == c.fds - {x.key} && d.inodeLocks - {x.key} == c.inodeLocks - {x.key}
  }

  lemma NotListed(c: Cache, key: Key)
    requires MapsAgree(c)
    ensures key !in c.fds ==> key !in c.inodePaths && key !in c.useOrder
  {
  }

  /** Exactly the dead paths still mapped to the inode they were judged under are forgotten, and they are counted. */
  ghost predicate PathsForgotten(before: map<Path, Key>, dead: seq<(Path, Key)>, after: map<Path, Key>, dropped: nat) {
    && (forall p :: p in after <==> p in before && (p, before[p]) !in dead)
    && (forall p :: p in after ==> after[p] == before[p])
    && dropped == |before| - |after|
  }

  /** Exactly the descriptors that leave the map are handed out, of inodes no path names any more. */
  ghost predicate DescriptorsHanded(c: Cache, stale: seq<Stale>, after: Cache) {
    && (forall x :: x in stale <==> PinnedAs(c, x.key, x.fd) && x.key !in after.fds)
    && (forall x :: x in stale ==> x.key !in after.inodePaths)
  }

  ghost predicate ForgetsWell(c: Cache, dead: seq<(Path, Key)>, swept: Swept) {
    && PathsForgotten(c.pathInode, dead, swept.cache.pathInode, swept.dropped)
    && DescriptorsHanded(c, swept.stale, swept.cache)
  }

  /** What a reader leaves the map lock with, and what it leaves behind. */
  ghost predicate PinsWell(c: Cache, tokens: map<nat, Release>, path: Path, key: Key, fd: nat, p: Pinned) {
    && MapsAgree(p.cache) && p.fd == fd && PinnedAs(p.cache, key, fd)
    && key in p.cache.inodeLocks && p.cache.inodeLocks[key] == p.lock
    && p.cache.pathInode == c.pathInode[path := key]
    && p.stale == Unneeded(c, tokens, path, key)
    && p.cache.fds == if p.stale.Some? then c.fds[key := fd] - {p.stale.value.key} else c.fds[key := fd]
  }

  lemma SettlesWell(c: Cache, tokens: map<nat, Release>, path: Path, key: Key, fd: nat)
    requires MapsAgree(c) && HoldsCounted(c, tokens) && PinnedAs(c, key, fd)
    ensures PinsWell(c, tokens, path, key, fd, Settle(c, path, fd, key))
    ensures Settle(c, path, fd, key).cache.raceLosers == c.raceLosers
  {
    hide HoldsCounted, MapsAgree, Unneeded;
    SettleAgrees(c, path, fd, key);
    AssociateAgrees(c, path, key);
    RetiresUnneeded(c, tokens, path, key);
    SamePaths(c, path, key);
    assert c.fds[key := fd] == c.fds;
  }

  lemma SamePaths(c: Cache, path: Path, key: Key)
    requires MapsAgree(c)
    ensures Retire(c, path, key).0.pathInode == c.pathInode
  {
    if path in c.pathInode && c.pathInode[path] != key {
      RetireShape(c, path, key);
    }
  }

  /** What a path's previous inode needs does not depend on the descriptor just admitted. */
  lemma AdmitUnneeded(c: Cache, tokens: map<nat, Release>, path: Path, fd: nat, key: Key)
    ensures Unneeded(Admit(c, fd, key).0, tokens, path, key) == Unneeded(c, tokens, path, key)
  {
    hide HeldBy;
  }

  /** The same after an open, in terms of the cache before the new descriptor was admitted. */
  lemma OpensWell(c: Cache, tokens: map<nat, Release>, path: Path, fd: nat, key: Key)
    requires MapsAgree(c) && HoldsCounted(c, tokens)
    ensures PinsWell(c, tokens, path, key, GetOr(c.fds, key, fd), PinOpened(c, path, fd, key))
    ensures PinOpened(c, path, fd, key).cache.raceLosers == c.raceLosers + if key in c.fds then [fd] else []
  {
    hide HoldsCounted, MapsAgree, PinsWell, Settle, Unneeded;
    var (d, used) := Admit(c, fd, key);
    AdmitAgrees(c, fd, key);
    AdmitKeepsCounts(c, tokens, fd, key);
    AdmitUnneeded(c, tokens, path, fd, key);
    SettlesWell(d, tokens, path, key, used);
    assert d.fds[key := used] == c.fds[key := used];
    PinsWellBefore(c, d, tokens, path, key, used, Settle(d, path, used, key));
  }

  lemma PinsWellBefore(c: Cache, d: Cache, tokens: map<nat, Release>, path: Path, key: Key, fd: nat, p: Pinned)
    requires PinsWell(d, tokens, path, key, fd, p) && d.pathInode == c.pathInode && d.fds[key := fd] == c.fds[key := fd]
    requires Unneeded(d, tokens, path, key) == Unneeded(c, tokens, path, key)
    ensures PinsWell(c, tokens, path, key, fd, p)
  {
    hide Unneeded, MapsAgree;
  }

  lemma AdmitKeepsCounts(c: Cache, tokens: map<nat, Release>, fd: nat, key: Key)
    requires HoldsCounted(c, tokens)
    ensures HoldsCounted(Admit(c, fd, key).0, tokens)
  {
  }

  // ---- Eviction ----------------------------------------------------------------------

  /** A scan passes over an inode only if it is held or its lock is taken. */
  lemma {:induction false} ScanPasses(c: Cache, order: seq<Key>, held: set<Key>, taken: set<nat>, busy: bool) returns (i: nat)
    requires (forall k :: k in order ==> k in c.fds) && (forall l :: l in taken ==> l < c.nextLock)
    requires EvictScan(c, order, held, taken, busy).closed.Some?
    ensures i < |order| && order[i] == EvictScan(c, order, held, taken, busy).closed.value.key
    ensures forall j :: 0 <= j < i ==> order[j] in held || (order[j] in c.inodeLocks && c.inodeLocks[order[j]] in taken)
    decreases |order|
  {
    var key := order[0];
    if key in held {
      i := ScanPasses(c, order[1..], held, taken, busy);
      i := i + 1;
    } else if LockFor(c, key).1 in taken {
      assert key in c.inodeLocks;
      i := ScanPasses(c, order[1..], held, taken, true);
      i := i + 1;
    } else {
      i := 0;
    }
  }

  lemma EvictPasses(c: Cache, named: map<Path, Key>, taken: set<nat>) returns (i: nat)
    requires MapsAgree(c) && (forall l :: l in taken ==> l < c.nextLock) && EvictIdle(c, named, taken).closed.Some?
    ensures i < |c.useOrder| && c.useOrder[i] == EvictIdle(c, named, taken).closed.value.key
    ensures forall j :: 0 <= j < i ==> c.useOrder[j] in HeldNow(Drain(c), named)
                                       || (c.useOrder[j] in c.inodeLocks && c.inodeLocks[c.useOrder[j]] in taken)
  {
    hide Drain, HeldNow, EvictScan, PathsAgree, LocksDistinct;
    DrainFrame(c);
    var d := Drain(c);
    assert EvictIdle(c, named, taken) == EvictScan(d, d.useOrder, HeldNow(d, named), taken, false);
    i := ScanPasses(d, d.useOrder, HeldNow(d, named), taken, false);
  }

  /** The descriptor closed was pinned, needed by nobody and read by nobody; every inode read less recently is held or
      in use; and no map knows its inode any more, while nothing else was forgotten. */
  ghost predicate WellEvicted(c: Cache, tokens: map<nat, Release>, named: map<Path, Key>, taken: set<nat>, x: Stale, after: Cache) {
    && PinnedAs(c, x.key, x.fd) && !HeldBy(tokens, x.key) && x.key !in HeldNow(Drain(c), named)
    && (x.key in c.inodeLocks ==> c.inodeLocks[x.key] !in taken)
    && (exists i :: 0 <= i < |c.useOrder| && c.useOrder[i] == x.key && AllNeeded(c, named, taken, i))
    && after.fds == c.fds - {x.key} && after.inodeLocks == c.inodeLocks - {x.key}
    && x.key !in after.useOrder && x.key !in after.inodePaths
    && (forall p :: p in after.pathInode <==> p in c.pathInode && c.pathInode[p] != x.key)
    && (forall p :: p in after.pathInode ==> after.pathInode[p] == c.pathInode[p])
  }

  /** Each of the first `i` inodes in read order is held, named by a held path, or has its lock taken. */
  ghost predicate AllNeeded(c: Cache, named: map<Path, Key>, taken: set<nat>, i: nat)
    requires i <= |c.useOrder|
  {
    forall j :: 0 <= j < i ==> c.useOrder[j] in HeldNow(Drain(c), named)
                               || (c.useOrder[j] in c.inodeLocks && c.inodeLocks[c.useOrder[j]] in taken)
  }

  lemma EvictedWell(c: Cache, tokens: map<nat, Release>, named: map<Path, Key>, taken: set<nat>)
    requires MapsAgree(c) && HoldsCounted(c, tokens) && forall l :: l in taken ==> l < c.nextLock
    ensures var e := EvictIdle(c, named, taken);
            e.outcome == Evicted ==> e.closed.Some? && WellEvicted(c, tokens - Ids(c.pending), named, taken, e.closed.value, e.cache)
  {
    hide Drain, HeldNow, EvictScan, MapsAgree, HoldsCounted, HeldBy, EvictIdle;
    var e := EvictIdle(c, named, taken);
    EvictShape(c, named, taken);
    if e.outcome == Evicted {
      var x := e.closed.value;
      HeldAfterDrain(c, tokens, x.key);
      var i := EvictPasses(c, named, taken);
      assert AllNeeded(c, named, taken, i);
      EvictedForgets(c, named, taken);
    }
  }

  lemma EvictedForgets(c: Cache, named: map<Path, Key>, taken: set<nat>)
    requires MapsAgree(c) && (forall l :: l in taken ==> l < c.nextLock) && EvictIdle(c, named, taken).closed.Some?
    ensures var x, after := EvictIdle(c, named, taken).closed.value, EvictIdle(c, named, taken).cache;
            && x.key !in HeldNow(Drain(c), named) && x.key !in after.useOrder && x.key !in after.inodePaths
            && (forall p :: p in after.pathInode <==> p in c.pathInode && c.pathInode[p] != x.key)
            && (forall p :: p in after.pathInode ==> after.pathInode[p] == c.pathInode[p])
  {
    hide Drain, HeldNow, EvictScan;
    DrainFrame(c);
    var d := Drain(c);
    ScanResult(d, d.useOrder, HeldNow(d, named), taken, false);
  }
}
