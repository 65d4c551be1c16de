/** What every section under the map lock keeps true of the cache, its descriptors and its holds. */
module CacheInvariant {
  import opened Basics
  import opened CacheModel

  // ---- The maps agree with one another -----------------------------------------------

  /** Paths other than `except` and inode keys name each other, and a named inode is pinned. */
  ghost predicate PathsAgree(pathInode: map<Path, Key>, inodePaths: map<Key, set<Path>>, pinned: set<Key>,
                             except: set<Path>) {
    && (forall p :: p in pathInode && p !in except ==>
          pathInode[p] in inodePaths && p in inodePaths[pathInode[p]])
    && (forall k :: k in inodePaths ==> inodePaths[k] != {} && k in pinned)
    && (forall k, p :: k in inodePaths && p in inodePaths[k] ==>
          p !in except && p in pathInode && pathInode[p] == k)
  }

  ghost predicate OrderAgrees(order: seq<Key>, pinned: set<Key>) {
    NoDuplicates(order) && (forall k :: k in order <==> k in pinned)
  }

  ghost predicate LocksDistinct(locks: map<Key, nat>, next: nat) {
    && (forall k :: k in locks ==> locks[k] < next)
    && (forall j, k :: j in locks && k in locks && locks[j] == locks[k] ==> j == k)
  }

  /** The consistency of the cache's maps: a path's inode lists the path and conversely, a listed
      inode has at least one path and a pinned descriptor, and the read order has exactly the pinned inodes. */
  ghost predicate MapsAgree(c: Cache) {
    && PathsAgree(c.pathInode, c.inodePaths, c.fds.Keys, {})
    && OrderAgrees(c.useOrder, c.fds.Keys)
    && LocksDistinct(c.inodeLocks, c.nextLock)
  }

  // ---- Every descriptor is in exactly one place --------------------------------------

  ghost predicate PinnedAs(c: Cache, key: Key, fd: nat) {
    key in c.fds && c.fds[key] == fd
  }

  /** Of the open descriptors each is pinned under its own inode's number, a race loser, or
      retired and waiting in `flight` to be closed; no descriptor is in two of these places. */
  ghost predicate Accounted(fds: map<Key, nat>, losers: seq<nat>, open: map<nat, nat>, num: map<nat, Key>,
                            flight: set<Stale>) {
    && (forall f :: f in open ==> open[f] in num)
    && (forall k :: k in fds ==> fds[k] in open && num[open[fds[k]]] == k)
    && (forall x :: x in flight ==> x.fd in open && num[open[x.fd]] == x.key
                                    && !(x.key in fds && fds[x.key] == x.fd) && x.fd !in losers)
    && (forall f :: f in losers ==> f in open && !(num[open[f]] in fds && fds[num[open[f]]] == f))
    && NoDuplicates(losers)
    && (forall f :: f in open ==>
          (num[open[f]] in fds && fds[num[open[f]]] == f) || f in losers || Stale(num[open[f]], f) in flight)
  }

  // ---- Holds are counted exactly -----------------------------------------------------

  ghost function Holding(tokens: map<nat, Release>, key: Key): set<nat> {
    set h | h in tokens && key in tokens[h].inodes
  }

  ghost function Doubtful(tokens: map<nat, Release>): set<nat> {
    set h | h in tokens && tokens[h].uncertain
  }

  ghost predicate Counts(held: map<Key, int>, uncertain: int, tokens: map<nat, Release>) {
    && (forall k :: Holding(tokens, k) == {} ==> k !in held)
    && (forall k :: Holding(tokens, k) != {} ==> k in held && held[k] == |Holding(tokens, k)|)
    && uncertain == |Doubtful(tokens)|
  }

  ghost predicate Tokens(tokens: map<nat, Release>) {
    forall h :: h in tokens ==> tokens[h].id == h && NoDuplicates(tokens[h].inodes)
  }

  ghost predicate Queued(pending: seq<Release>, tokens: map<nat, Release>) {
    && (forall i :: 0 <= i < |pending| ==> pending[i].id in tokens && tokens[pending[i].id] == pending[i])
    && (forall i, j :: 0 <= i < j < |pending| ==> pending[i].id != pending[j].id)
  }

  ghost predicate HoldsCounted(c: Cache, tokens: map<nat, Release>) {
    Tokens(tokens) && Counts(c.heldInodes, c.uncertain, tokens) && Queued(c.pending, tokens)
  }

  // ---- Holds -------------------------------------------------------------------------

  lemma {:induction false} DecrementAllAt(counts: map<Key, int>, inodes: seq<Key>, k: Key)
    requires NoDuplicates(inodes)
    ensures k !in inodes ==> (k in DecrementAll(counts, inodes) <==> k in counts)
    ensures k !in inodes && k in counts ==> DecrementAll(counts, inodes)[k] == counts[k]
    ensures k in inodes && k in counts && counts[k] > 1 ==>
              k in DecrementAll(counts, inodes) && DecrementAll(counts, inodes)[k] == counts[k] - 1
    ensures k in inodes && (k in counts ==> counts[k] <= 1) ==> k !in DecrementAll(counts, inodes)
  {
    if inodes != [] {
      assert inodes == [inodes[0]] + inodes[1..];
      DecrementAllAt(Decrement(counts, inodes[0]), inodes[1..], k);
    }
  }

  lemma ReleaseCounts(held: map<Key, int>, uncertain: int, tokens: map<nat, Release>, h: nat)
    requires Tokens(tokens) && Counts(held, uncertain, tokens) && h in tokens
    ensures Counts(DecrementAll(held, tokens[h].inodes), if tokens[h].uncertain then uncertain - 1 else uncertain,
                   tokens - {h})
  {
    var after, rest := DecrementAll(held, tokens[h].inodes), tokens - {h};
    forall k
      ensures Holding(rest, k) == {} ==> k !in after
      ensures Holding(rest, k) != {} ==> k in after && after[k] == |Holding(rest, k)|
    {
      DecrementAllAt(held, tokens[h].inodes, k);
      assert Holding(rest, k) == Holding(tokens, k) - {h};
      if k in tokens[h].inodes {
        assert h in Holding(tokens, k);
        assert |Holding(rest, k)| == |Holding(tokens, k)| - 1;
      } else {
        assert Holding(rest, k) == Holding(tokens, k);
      }
    }
    assert Doubtful(rest) == Doubtful(tokens) - {h};
  }

  /** Draining touches nothing but the holds, and leaves exactly the outstanding ones counted. */
  lemma {:induction false} DrainFrame(c: Cache)
    ensures var d := Drain(c); d.pending == [] && d == c.(holds := d.holds, heldInodes := d.heldInodes,
                                                          uncertain := d.uncertain, pending := [])
    decreases |c.pending|
  {
    if c.pending != [] {
      DrainFrame(ApplyRelease(c, c.pending[0]).(pending := c.pending[1..]));
    }
  }

  lemma {:induction false} DrainCounts(c: Cache, tokens: map<nat, Release>)
    requires HoldsCounted(c, tokens)
    ensures HoldsCounted(Drain(c), tokens - Ids(c.pending))
    decreases |c.pending|
  {
    DrainFrame(c);
    if c.pending == [] {
      assert tokens - Ids(c.pending) == tokens;
    } else {
      var r, rest := c.pending[0], c.pending[1..];
      ReleaseCounts(c.heldInodes, c.uncertain, tokens, r.id);
      var d, left := ApplyRelease(c, r).(pending := rest), tokens - {r.id};
      DrainCounts(d, left);
      assert Ids(c.pending) == Ids(rest) + {r.id} by {
        forall h | h in Ids(c.pending) ensures h in Ids(rest) + {r.id} {
          var i :| 0 <= i < |c.pending| && c.pending[i].id == h;
          if i > 0 { assert rest[i - 1].id == h; }
        }
        forall h | h in Ids(rest) + {r.id} ensures h in Ids(c.pending) {
          if h != r.id {
            var i :| 0 <= i < |rest| && rest[i].id == h;
            assert c.pending[i + 1].id == h;
          } else {
            assert c.pending[0].id == h;
          }
        }
      }
      assert left - Ids(rest) == tokens - Ids(c.pending);
    }
  }

  lemma CountOneMore(held: map<Key, int>, uncertain: int, tokens: map<nat, Release>, h: nat, r: Release, key: Key)
    requires Tokens(tokens) && Counts(held, uncertain, tokens)
    requires h in tokens && r == tokens[h].(inodes := tokens[h].inodes + [key]) && key !in tokens[h].inodes
    ensures Tokens(tokens[h := r]) && Counts(Increment(held, key), uncertain, tokens[h := r])
  {
    hide Counts, Doubtful;
    HoldingMore(tokens, h, r, key);
    CountsMore(held, uncertain, tokens, tokens[h := r], h, key);
  }

  lemma HoldingMore(tokens: map<nat, Release>, h: nat, r: Release, key: Key)
    requires h in tokens && r == tokens[h].(inodes := tokens[h].inodes + [key])
    ensures forall k :: Holding(tokens[h := r], k) == if k == key then Holding(tokens, k) + {h} else Holding(tokens, k)
    ensures Doubtful(tokens[h := r]) == Doubtful(tokens)
  {
    assert forall k :: k in r.inodes <==> k == key || k in tokens[h].inodes;
  }

  lemma CountsMore(held: map<Key, int>, uncertain: int, tokens: map<nat, Release>, after: map<nat, Release>, h: nat, key: Key)
    requires Counts(held, uncertain, tokens) && h !in Holding(tokens, key) && Doubtful(after) == Doubtful(tokens)
    requires forall k :: Holding(after, k) == if k == key then Holding(tokens, k) + {h} else Holding(tokens, k)
    ensures Counts(Increment(held, key), uncertain, after)
  {
    hide Holding, Doubtful;
  }

  lemma NewToken(held: map<Key, int>, uncertain: int, tokens: map<nat, Release>, h: nat, path: Path)
    requires Tokens(tokens) && Counts(held, uncertain, tokens) && h !in tokens
    ensures Tokens(tokens[h := Release(h, path, [], false)])
    ensures Counts(held, uncertain, tokens[h := Release(h, path, [], false)])
  {
    var after := tokens[h := Release(h, path, [], false)];
    assert forall k :: Holding(after, k) == Holding(tokens, k);
    assert Doubtful(after) == Doubtful(tokens);
  }

  lemma MarkDoubtful(held: map<Key, int>, uncertain: int, tokens: map<nat, Release>, h: nat)
    requires Tokens(tokens) && Counts(held, uncertain, tokens) && h in tokens && !tokens[h].uncertain
    ensures var after := tokens[h := tokens[h].(uncertain := true)];
            Tokens(after) && Counts(held, uncertain + 1, after)
  {
    var after := tokens[h := tokens[h].(uncertain := true)];
    assert forall k :: Holding(after, k) == Holding(tokens, k);
    assert Doubtful(after) == Doubtful(tokens) + {h};
  }

  // ---- Paths -------------------------------------------------------------------------

  lemma DropSibling(pathInode: map<Path, Key>, inodePaths: map<Key, set<Path>>, pinned: set<Key>, path: Path)
    requires PathsAgree(pathInode, inodePaths, pinned, {}) && path in pathInode
    requires inodePaths[pathInode[path]] - {path} != {}
    ensures PathsAgree(pathInode, inodePaths[pathInode[path] := inodePaths[pathInode[path]] - {path}], pinned, {path})
  {
  }

  lemma DropLast(pathInode: map<Path, Key>, inodePaths: map<Key, set<Path>>, pinned: set<Key>, path: Path)
    requires PathsAgree(pathInode, inodePaths, pinned, {}) && path in pathInode
    requires inodePaths[pathInode[path]] - {path} == {}
    ensures PathsAgree(pathInode, inodePaths - {pathInode[path]}, pinned, {path})
    ensures PathsAgree(pathInode, inodePaths - {pathInode[path]}, pinned - {pathInode[path]}, {path})
  {
  }

  lemma DropFromOrder(order: seq<Key>, pinned: set<Key>, key: Key)
    requires OrderAgrees(order, pinned)
    ensures OrderAgrees(Without(order, key), pinned - {key})
  {
    WithoutKeepsDistinct(order, key);
  }

  /** Recording a path's inode restores the agreement about it. */
  lemma RecordPath(pathInode: map<Path, Key>, inodePaths: map<Key, set<Path>>, pinned: set<Key>, path: Path, key: Key)
    requires key in pinned
    requires PathsAgree(pathInode, inodePaths, pinned, {path})
          || (PathsAgree(pathInode, inodePaths, pinned, {}) && (path in pathInode ==> pathInode[path] == key))
    ensures PathsAgree(pathInode[path := key], inodePaths[key := GetOr(inodePaths, key, {}) + {path}], pinned, {})
  {
  }

  lemma ForgetPath(pathInode: map<Path, Key>, inodePaths: map<Key, set<Path>>, pinned: set<Key>, path: Path)
    requires PathsAgree(pathInode, inodePaths, pinned, {path})
    ensures PathsAgree(pathInode - {path}, inodePaths, pinned, {})
  {
  }

  /** Fields retiring leaves alone, and the one descriptor it may take out of the map. */
  lemma RetireShape(c: Cache, path: Path, current: Key)
    requires MapsAgree(c)
    requires path in c.pathInode && c.pathInode[path] != current
    ensures var (d, stale) := Retire(c, path, current);
            var previous := c.pathInode[path];
            var siblings := c.inodePaths[previous] - {path};
            && d.pathInode == c.pathInode && d.inodeLocks == c.inodeLocks && d.nextLock == c.nextLock
            && d.raceLosers == c.raceLosers
            && d.inodePaths == (if siblings != {} then c.inodePaths[previous := siblings] else c.inodePaths - {previous})
            && (stale.Some? ==> siblings == {} && stale.value == Stale(previous, c.fds[previous])
                                && d.fds == c.fds - {previous} && d.useOrder == Without(c.useOrder, previous))
            && (stale.None? ==> d.fds == c.fds && d.useOrder == c.useOrder)
            && (stale.None? && siblings == {} ==> Held(d, previous))
  {
    DrainFrame(c.(inodePaths := c.inodePaths - {c.pathInode[path]}));
  }

  /** Retiring leaves the maps agreeing about every other path. */
  lemma RetireAgrees(c: Cache, path: Path, current: Key)
    requires MapsAgree(c)
    requires path in c.pathInode && c.pathInode[path] != current
    ensures var (d, _) := Retire(c, path, current);
            PathsAgree(d.pathInode, d.inodePaths, d.fds.Keys, {path}) && OrderAgrees(d.useOrder, d.fds.Keys)
  {
    var previous := c.pathInode[path];
    RetireShape(c, path, current);
    assert (c.fds - {previous}).Keys == c.fds.Keys - {previous};
    if c.inodePaths[previous] - {path} == {} {
      DropLast(c.pathInode, c.inodePaths, c.fds.Keys, path);
      DropFromOrder(c.useOrder, c.fds.Keys, previous);
    } else {
      DropSibling(c.pathInode, c.inodePaths, c.fds.Keys, path);
    }
  }

  /** `Retire` changes the holds only by draining the queue. */
  lemma RetireCounts(c: Cache, path: Path, current: Key, tokens: map<nat, Release>)
    requires HoldsCounted(c, tokens)
    ensures var (d, _) := Retire(c, path, current);
            && (d.pending == [] || d.pending == c.pending)
            && HoldsCounted(d, if d.pending == [] then tokens - Ids(c.pending) else tokens)
  {
    if c.pending == [] {
      assert tokens - Ids(c.pending) == tokens;
    }
    if path in c.pathInode && c.pathInode[path] != current {
      var previous := c.pathInode[path];
      var e := c.(inodePaths := c.inodePaths - {previous});
      DrainFrame(e);
      DrainCounts(e, tokens);
    }
  }

  lemma AssociateAgrees(c: Cache, path: Path, key: Key)
    requires MapsAgree(c) && key in c.fds
    ensures var (d, stale) := Associate(c, path, key);
            && MapsAgree(d) && key in d.fds && d.fds[key] == c.fds[key]
            && d.inodeLocks == c.inodeLocks && d.nextLock == c.nextLock && d.raceLosers == c.raceLosers
            && d.fds == (if stale.Some? then c.fds - {stale.value.key} else c.fds)
            && (stale.Some? ==> stale.value.key != key && PinnedAs(c, stale.value.key, stale.value.fd))
  {
    if path in c.pathInode && c.pathInode[path] != key {
      RetireShape(c, path, key);
      RetireAgrees(c, path, key);
      var d := Retire(c, path, key).0;
      RecordPath(d.pathInode, d.inodePaths, d.fds.Keys, path, key);
    } else {
      RecordPath(c.pathInode, c.inodePaths, c.fds.Keys, path, key);
    }
  }

  lemma LockForAgrees(c: Cache, key: Key)
    requires MapsAgree(c)
    ensures var (d, lock) := LockFor(c, key);
            MapsAgree(d) && key in d.inodeLocks && d.inodeLocks[key] == lock && lock < d.nextLock
            && c.nextLock <= d.nextLock
            && (forall k :: k in c.inodeLocks ==> k in d.inodeLocks && d.inodeLocks[k] == c.inodeLocks[k])
            && (forall k :: k in d.inodeLocks && k !in c.inodeLocks ==> d.inodeLocks[k] >= c.nextLock)
  {
  }

  lemma AdmitAgrees(c: Cache, fd: nat, key: Key)
    requires MapsAgree(c)
    ensures var (d, used) := Admit(c, fd, key); MapsAgree(d) && PinnedAs(d, key, used)
  {
    if key !in c.fds {
      assert c.fds[key := fd].Keys == c.fds.Keys + {key};
    }
  }

  lemma SettleAgrees(c: Cache, path: Path, fd: nat, key: Key)
    requires MapsAgree(c) && PinnedAs(c, key, fd)
    ensures var p := Settle(c, path, fd, key);
            MapsAgree(p.cache) && PinnedAs(p.cache, key, fd)
            && key in p.cache.inodeLocks && p.cache.inodeLocks[key] == p.lock
  {
    AssociateAgrees(c, path, key);
    LockForAgrees(Associate(c, path, key).0, key);
  }

  lemma CloseStaleAgrees(c: Cache, stale: Stale)
    requires MapsAgree(c)
    ensures MapsAgree(CloseStale(c, stale))
  {
    if StaleFate(c, stale) == Kept {
      assert c.fds[stale.key := stale.fd].Keys == c.fds.Keys + {stale.key};
    }
  }

  lemma ForgetOneAgrees(c: Cache, path: Path)
    requires MapsAgree(c) && NO_INODE !in c.fds && path in c.pathInode
    ensures var (d, stale) := Retire(c, path, NO_INODE);
            && MapsAgree(d.(pathInode := d.pathInode - {path}))
            && d.fds == (if stale.Some? then c.fds - {stale.value.key} else c.fds)
            && (stale.Some? ==> PinnedAs(c, stale.value.key, stale.value.fd))
            && d.raceLosers == c.raceLosers && d.inodeLocks == c.inodeLocks && d.nextLock == c.nextLock
  {
    RetireShape(c, path, NO_INODE);
    RetireAgrees(c, path, NO_INODE);
    var d := Retire(c, path, NO_INODE).0;
    ForgetPath(d.pathInode, d.inodePaths, d.fds.Keys, path);
  }

  lemma {:induction false} ForgetDeadAgrees(c: Cache, dead: seq<(Path, Key)>)
    requires MapsAgree(c) && NO_INODE !in c.fds
    ensures var swept := ForgetDead(c, dead);
            && MapsAgree(swept.cache)
            && swept.cache.inodeLocks == c.inodeLocks && swept.cache.nextLock == c.nextLock
    decreases |dead|
  {
    if dead != [] {
      var (path, key) := dead[0];
      if path !in c.pathInode || c.pathInode[path] != key {
        ForgetDeadAgrees(c, dead[1..]);
      } else {
        ForgetOneAgrees(c, path);
        var d := Retire(c, path, NO_INODE).0;
        ForgetDeadAgrees(d.(pathInode := d.pathInode - {path}), dead[1..]);
      }
    }
  }

  lemma UnpinPaths(pathInode: map<Path, Key>, inodePaths: map<Key, set<Path>>, pinned: set<Key>, key: Key)
    requires PathsAgree(pathInode, inodePaths, pinned, {})
    ensures var paths := GetOr(inodePaths, key, {});
            var gone := set p | p in paths && p in pathInode && pathInode[p] == key;
            PathsAgree(pathInode - gone, inodePaths - {key}, pinned - {key}, {})
  {
  }

  lemma UnpinAgrees(c: Cache, key: Key)
    requires MapsAgree(c)
    ensures MapsAgree(Unpin(c, key))
  {
    UnpinPaths(c.pathInode, c.inodePaths, c.fds.Keys, key);
    DropFromOrder(c.useOrder, c.fds.Keys, key);
    assert (c.fds - {key}).Keys == c.fds.Keys - {key};
  }

  /** What a scan over pinned inodes returns: it unpins at most one, which is neither held nor
      locked by anyone; finding none, every inode it saw was held, or some lock was taken. */
  lemma {:induction false} ScanResult(c: Cache, order: seq<Key>, held: set<Key>, taken: set<nat>, busy: bool)
    requires forall k :: k in order ==> k in c.fds
    requires forall l :: l in taken ==> l < c.nextLock
    ensures var e := EvictScan(c, order, held, taken, busy);
            match e.outcome
            case Evicted =>
              && e.closed.Some? && PinnedAs(c, e.closed.value.key, e.closed.value.fd)
              && e.closed.value.key !in held
              && (e.closed.value.key in c.inodeLocks ==> c.inodeLocks[e.closed.value.key] !in taken)
              && e.cache == Unpin(LockFor(c, e.closed.value.key).0, e.closed.value.key)
            case Busy =>
              && e.closed == None && e.cache == c
              && (busy || exists k :: k in order && k !in held && k in c.inodeLocks && c.inodeLocks[k] in taken)
            case AllHeld => e.closed == None && e.cache == c && !busy && forall k :: k in order ==> k in held
            case Room => false
    decreases |order|
  {
    if order != [] {
      var key := order[0];
      if key in held {
        ScanResult(c, order[1..], held, taken, busy);
      } else if LockFor(c, key).1 in taken {
        assert key in c.inodeLocks;
        ScanResult(c, order[1..], held, taken, true);
      }
      assert forall k :: k in order <==> k == key || k in order[1..];
    }
  }

  lemma EvictAgrees(c: Cache, named: map<Path, Key>, taken: set<nat>)
    requires MapsAgree(c)
    requires forall l :: l in taken ==> l < c.nextLock
    ensures MapsAgree(EvictIdle(c, named, taken).cache)
  {
    DrainFrame(c);
    var d := Drain(c);
    if |d.fds| >= MAX_PINNED_FDS && d.uncertain <= 0 {
      ScanResult(d, d.useOrder, HeldNow(d, named), taken, false);
      var e := EvictIdle(c, named, taken);
      if e.outcome == Evicted {
        var key := e.closed.value.key;
        LockForAgrees(d, key);
        UnpinAgrees(LockFor(d, key).0, key);
      }
    }
  }

  // ---- Descriptors -------------------------------------------------------------------

  lemma OpenAccounts(fds: map<Key, nat>, losers: seq<nat>, open: map<nat, nat>, num: map<nat, Key>,
                     flight: set<Stale>, fd: nat, inst: nat)
    requires Accounted(fds, losers, open, num, flight) && fd !in open && inst in num
    ensures num[inst] !in fds ==> Accounted(fds[num[inst] := fd], losers, open[fd := inst], num, flight)
    ensures num[inst] in fds ==> Accounted(fds, losers + [fd], open[fd := inst], num, flight)
  {
  }

  lemma RetireAccounts(fds: map<Key, nat>, losers: seq<nat>, open: map<nat, nat>, num: map<nat, Key>,
                       flight: set<Stale>, key: Key)
    requires Accounted(fds, losers, open, num, flight) && key in fds
    ensures Accounted(fds - {key}, losers, open, num, flight + {Stale(key, fds[key])})
    ensures Stale(key, fds[key]) !in flight
  {
  }

  lemma EvictAccounts(fds: map<Key, nat>, losers: seq<nat>, open: map<nat, nat>, num: map<nat, Key>,
                      flight: set<Stale>, key: Key)
    requires Accounted(fds, losers, open, num, flight) && key in fds
    ensures Accounted(fds - {key}, losers, open - {fds[key]}, num, flight)
  {
  }

  lemma CloseStaleAccounts(c: Cache, open: map<nat, nat>, num: map<nat, Key>, flight: set<Stale>, x: Stale)
    requires Accounted(c.fds, c.raceLosers, open, num, flight) && x in flight
    ensures var d := CloseStale(c, x);
            var left := if StaleFate(c, x) == Closed then open - {x.fd} else open;
            Accounted(d.fds, d.raceLosers, left, num, flight - {x})
  {
  }

  lemma SettleAccounts(c: Cache, path: Path, fd: nat, key: Key, open: map<nat, nat>, num: map<nat, Key>,
                       flight: set<Stale>)
    requires MapsAgree(c) && PinnedAs(c, key, fd) && Accounted(c.fds, c.raceLosers, open, num, flight)
    ensures var p := Settle(c, path, fd, key);
            && Accounted(p.cache.fds, p.cache.raceLosers, open, num,
                         flight + Fresh(p.stale))
            && (p.stale.Some? ==> p.stale.value !in flight && p.stale.value.key != key)
  {
    hide MapsAgree, Accounted;
    AssociateAgrees(c, path, key);
    var (d, stale) := Associate(c, path, key);
    if stale.Some? {
      RetireAccounts(c.fds, c.raceLosers, open, num, flight, stale.value.key);
    } else {
      assert flight + {} == flight;
    }
  }

  lemma ForgetOneAccounts(c: Cache, path: Path, open: map<nat, nat>, num: map<nat, Key>, flight: set<Stale>)
    requires MapsAgree(c) && NO_INODE !in c.fds && path in c.pathInode
    requires Accounted(c.fds, c.raceLosers, open, num, flight)
    ensures var (d, stale) := Retire(c, path, NO_INODE);
            && Accounted(d.fds, d.raceLosers, open, num, flight + Fresh(stale))
            && (stale.Some? ==> stale.value !in flight)
  {
    ForgetOneAgrees(c, path);
    var (d, stale) := Retire(c, path, NO_INODE);
    if stale.Some? {
      RetireAccounts(c.fds, c.raceLosers, open, num, flight, stale.value.key);
    }
  }

  function Fresh(stale: Option<Stale>): set<Stale> {
    if stale.Some? then {stale.value} else {}
  }

  function Members(stale: seq<Stale>): set<Stale> {
    set x | x in stale
  }

  lemma {:induction false} ForgetDeadAccounts(c: Cache, dead: seq<(Path, Key)>, open: map<nat, nat>,
                                              num: map<nat, Key>, flight: set<Stale>)
    requires MapsAgree(c) && NO_INODE !in c.fds && Accounted(c.fds, c.raceLosers, open, num, flight)
    ensures var swept := ForgetDead(c, dead);
            && Accounted(swept.cache.fds, swept.cache.raceLosers, open, num, flight + Members(swept.stale))
            && NoDuplicates(swept.stale)
            && Members(swept.stale) !! flight
    decreases |dead|
  {
    hide MapsAgree, Accounted, Retire;
    var swept := ForgetDead(c, dead);
    if dead == [] {
      assert flight + Members(swept.stale) == flight;
    } else {
      var (path, key) := dead[0];
      if path !in c.pathInode || c.pathInode[path] != key {
        ForgetDeadAccounts(c, dead[1..], open, num, flight);
      } else {
        ForgetOneAgrees(c, path);
        ForgetOneAccounts(c, path, open, num, flight);
        var (d, stale) := Retire(c, path, NO_INODE);
        var next := d.(pathInode := d.pathInode - {path});
        ForgetDeadAccounts(next, dead[1..], open, num, flight + Fresh(stale));
        var rest := ForgetDead(next, dead[1..]).stale;
        assert flight + Fresh(stale) + Members(rest) == flight + Members(swept.stale);
      }
    }
  }

  /** The sweep, too, changes the holds only by draining. */
  lemma {:induction false} ForgetDeadCounts(c: Cache, dead: seq<(Path, Key)>, tokens: map<nat, Release>)
    requires HoldsCounted(c, tokens)
    ensures var d := ForgetDead(c, dead).cache;
            && (d.pending == [] || d.pending == c.pending)
            && HoldsCounted(d, if d.pending == [] then tokens - Ids(c.pending) else tokens)
    decreases |dead|
  {
    if dead == [] {
      if c.pending == [] {
        assert tokens - Ids(c.pending) == tokens;
      }
    } else {
      var (path, key) := dead[0];
      if path !in c.pathInode || c.pathInode[path] != key {
        ForgetDeadCounts(c, dead[1..], tokens);
      } else {
        RetireCounts(c, path, NO_INODE, tokens);
        var d := Retire(c, path, NO_INODE).0;
        var left := if d.pending == [] then tokens - Ids(c.pending) else tokens;
        ForgetDeadCounts(d.(pathInode := d.pathInode - {path}), dead[1..], left);
        if d.pending == [] {
          assert left - Ids(d.pending) == left;
        }
      }
    }
  }

  lemma SettleCounts(c: Cache, path: Path, fd: nat, key: Key, tokens: map<nat, Release>)
    requires HoldsCounted(c, tokens)
    ensures var d := Settle(c, path, fd, key).cache;
            && (d.pending == [] || d.pending == c.pending)
            && HoldsCounted(d, if d.pending == [] then tokens - Ids(c.pending) else tokens)
  {
    RetireCounts(c, path, key, tokens);
  }

  lemma EvictCounts(c: Cache, named: map<Path, Key>, taken: set<nat>, tokens: map<nat, Release>)
    requires MapsAgree(c) && HoldsCounted(c, tokens)
    requires forall l :: l in taken ==> l < c.nextLock
    ensures var d := EvictIdle(c, named, taken).cache;
            d.pending == [] && HoldsCounted(d, tokens - Ids(c.pending))
  {
    DrainFrame(c);
    DrainCounts(c, tokens);
    var d := Drain(c);
    if |d.fds| >= MAX_PINNED_FDS && d.uncertain <= 0 {
      ScanResult(d, d.useOrder, HeldNow(d, named), taken, false);
    }
  }

  /** What an eviction does to the descriptors: at most one, unheld and with a free lock, is closed. */
  ghost predicate ClosesOne(c: Cache, d: Cache, closed: Stale, taken: set<nat>, after: Cache) {
    && PinnedAs(c, closed.key, closed.fd) && !Held(d, closed.key)
    && (closed.key in c.inodeLocks ==> c.inodeLocks[closed.key] !in taken)
    && after.fds == c.fds - {closed.key} && after.inodeLocks == c.inodeLocks - {closed.key}
    && after.raceLosers == c.raceLosers && after.nextLock >= c.nextLock
  }

  lemma ScanShape(d: Cache, held: set<Key>, taken: set<nat>)
    requires MapsAgree(d) && (forall k :: k !in held ==> !Held(d, k))
    requires forall l :: l in taken ==> l < d.nextLock
    ensures var e := EvictScan(d, d.useOrder, held, taken, false);
            && (e.closed.Some? <==> e.outcome == Evicted)
            && (e.closed.Some? ==> ClosesOne(d, d, e.closed.value, taken, e.cache))
            && (e.closed.None? ==> e.cache == d)
  {
    ScanResult(d, d.useOrder, held, taken, false);
    var e := EvictScan(d, d.useOrder, held, taken, false);
    if e.outcome == Evicted {
      var key := e.closed.value.key;
      assert LockFor(d, key).0.inodeLocks - {key} == d.inodeLocks - {key};
    }
  }

  lemma EvictShape(c: Cache, named: map<Path, Key>, taken: set<nat>)
    requires MapsAgree(c)
    requires forall l :: l in taken ==> l < c.nextLock
    ensures var e := EvictIdle(c, named, taken);
            && (e.closed.Some? <==> e.outcome == Evicted)
            && (e.closed.Some? ==> ClosesOne(c, Drain(c), e.closed.value, taken, e.cache))
            && (e.closed.None? ==> e.cache == Drain(c))
  {
    DrainFrame(c);
    var d := Drain(c);
    if |d.fds| >= MAX_PINNED_FDS && d.uncertain <= 0 {
      ScanShape(d, HeldNow(d, named), taken);
    }
  }

  /** Why an eviction closed nothing. */
  lemma EvictRefusal(c: Cache, named: map<Path, Key>, taken: set<nat>)
    requires MapsAgree(c)
    requires forall l :: l in taken ==> l < c.nextLock
    ensures var d := Drain(c);
            match EvictIdle(c, named, taken).outcome
            case Evicted => true
            case Room => |c.fds| < MAX_PINNED_FDS
            case AllHeld => |c.fds| >= MAX_PINNED_FDS
                            && (d.uncertain > 0 || forall k :: k in c.fds ==> k in HeldNow(d, named))
            case Busy => |c.fds| >= MAX_PINNED_FDS
                         && exists k :: k in c.fds && k in c.inodeLocks && c.inodeLocks[k] in taken
  {
    DrainFrame(c);
    var d := Drain(c);
    if |d.fds| >= MAX_PINNED_FDS && d.uncertain <= 0 {
      ScanResult(d, d.useOrder, HeldNow(d, named), taken, false);
    }
  }
}
