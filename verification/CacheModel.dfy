/**
 The pinned-descriptor cache as a value, and what each section of code that runs
 under the map lock does to it.  The answers of the kernel (what a stat names, which
 descriptor an open returns, which per-inode locks are taken) are parameters.
 */
module CacheModel {
  import opened Basics

  const MAX_PINNED_FDS: nat := 64
  const BUSY_RETRIES: nat := 200

  /** `(st_dev, st_ino)`: reusable once no link, descriptor or connection needs the inode. */
  datatype Key = Key(dev: int, ino: int)

  /** The sentinel the dead-path sweep retires towards: no inode has this number. */
  const NO_INODE := Key(-1, -1)

  /** A retired descriptor its retirer still has to close. */
  datatype Stale = Stale(key: Key, fd: nat)

  /** What a held connection gives back when it is destroyed; `id` is the identity of the hold tuple. */
  datatype Release = Release(id: nat, path: Path, inodes: seq<Key>, uncertain: bool)

  /** The module-level state; a lock object is the number it was created under, so numbers are never reused. */
  datatype Cache = Cache(
    fds: map<Key, nat>,
    pathInode: map<Path, Key>,
    inodePaths: map<Key, set<Path>>,
    inodeLocks: map<Key, nat>,
    nextLock: nat,
    raceLosers: seq<nat>,
    useOrder: seq<Key>,
    holds: map<Path, int>,
    heldInodes: map<Key, int>,
    uncertain: int,
    pending: seq<Release>)

  const EMPTY_CACHE := Cache(map[], map[], map[], map[], 0, [], [], map[], map[], 0, [])

  // ---- Holds -------------------------------------------------------------------------

  function Decrement<K>(counts: map<K, int>, key: K): map<K, int> {
    var remaining := GetOr(counts, key, 0) - 1;
    if remaining > 0 then counts[key := remaining] else counts - {key}
  }

  function DecrementAll(counts: map<Key, int>, inodes: seq<Key>): map<Key, int> {
    if inodes == [] then counts else DecrementAll(Decrement(counts, inodes[0]), inodes[1..])
  }

  function Increment<K>(counts: map<K, int>, key: K): map<K, int> {
    counts[key := GetOr(counts, key, 0) + 1]
  }

  function ApplyRelease(c: Cache, r: Release): Cache {
    c.(holds := Decrement(c.holds, r.path),
       heldInodes := DecrementAll(c.heldInodes, r.inodes),
       uncertain := if r.uncertain then c.uncertain - 1 else c.uncertain)
  }

  /** Applies the queued releases oldest first. */
  function Drain(c: Cache): Cache
    decreases |c.pending|
  {
    if c.pending == [] then c
    else Drain(ApplyRelease(c, c.pending[0]).(pending := c.pending[1..]))
  }

  function Ids(pending: seq<Release>): set<nat> {
    set i | 0 <= i < |pending| :: pending[i].id
  }

  predicate Held(c: Cache, key: Key) {
    key in c.heldInodes || c.uncertain > 0
  }

  /** First section of `held_connect`: the path and the inode it names now are counted before the file is opened. */
  function TakeHold(c: Cache, path: Path, before: Option<Key>): Cache {
    var d := Drain(c);
    var e := d.(holds := Increment(d.holds, path));
    if before.Some? then e.(heldInodes := Increment(e.heldInodes, before.value)) else e
  }

  predicate SwappedMidOpen(before: Option<Key>, after: Option<Key>) {
    before.Some? && after != before
  }

  /** Second section of `held_connect`: the inode the path names after the open is counted too. */
  function CompleteHold(c: Cache, before: Option<Key>, after: Option<Key>): Cache {
    var d := if after.Some? && after != before
             then c.(heldInodes := Increment(c.heldInodes, after.value)) else c;
    if SwappedMidOpen(before, after) then d.(uncertain := d.uncertain + 1) else d
  }

  /** The inodes the hold of a returned connection releases. */
  function HoldInodes(before: Option<Key>, after: Option<Key>): seq<Key> {
    (if before.Some? then [before.value] else []) +
    (if after.Some? && after != before then [after.value] else [])
  }

  // ---- Locks and read order ----------------------------------------------------------

  function LockFor(c: Cache, key: Key): (Cache, nat) {
    if key in c.inodeLocks then (c, c.inodeLocks[key])
    else (c.(inodeLocks := c.inodeLocks[key := c.nextLock], nextLock := c.nextLock + 1), c.nextLock)
  }

  function AppendUse(order: seq<Key>, key: Key): seq<Key> {
    if key in order then order else order + [key]
  }

  function MarkRead(c: Cache, key: Key): Cache {
    c.(useOrder := Without(c.useOrder, key) + [key])
  }

  // ---- Pinning and retiring ----------------------------------------------------------

  /** `path` stops naming its previous inode; the descriptor is handed out for closing when
      nothing else names it and no hold forbids the close. */
  function Retire(c: Cache, path: Path, current: Key): (Cache, Option<Stale>) {
    if path !in c.pathInode || c.pathInode[path] == current then (c, None)
    else
      var previous := c.pathInode[path];
      var siblings := GetOr(c.inodePaths, previous, {}) - {path};
      if previous in c.inodePaths && siblings != {} then
        (c.(inodePaths := c.inodePaths[previous := siblings]), None)
      else
        var d := Drain(c.(inodePaths := c.inodePaths - {previous}));
        if Held(d, previous) then (d, None)
        else
          var e := d.(fds := d.fds - {previous}, useOrder := Without(d.useOrder, previous));
          (e, if previous in d.fds then Some(Stale(previous, d.fds[previous])) else None)
  }

  /** True when retiring the path's previous association would free the slot a new descriptor takes. */
  predicate FreesSlot(c: Cache, path: Path, key: Key) {
    && path in c.pathInode
    && c.pathInode[path] != key
    && c.pathInode[path] in c.inodePaths
    && c.inodePaths[c.pathInode[path]] == {path}
  }

  datatype Lookup = Hit(fd: nat) | Full | Miss

  function LookUp(c: Cache, path: Path, key: Key): Lookup {
    if key in c.fds then Hit(c.fds[key])
    else if |c.fds| >= MAX_PINNED_FDS && !FreesSlot(c, path, key) then Full
    else Miss
  }

  /** A descriptor was opened on inode `key`; if that inode is already pinned the new one is a race loser. */
  function Admit(c: Cache, fd: nat, key: Key): (Cache, nat) {
    if key in c.fds then (c.(raceLosers := c.raceLosers + [fd]), c.fds[key])
    else (c.(fds := c.fds[key := fd], useOrder := AppendUse(c.useOrder, key)), fd)
  }

  /** `path` now names `key`: retire what it named before, then record it. */
  function Associate(c: Cache, path: Path, key: Key): (Cache, Option<Stale>) {
    var (d, stale) := Retire(c, path, key);
    (d.(pathInode := d.pathInode[path := key],
        inodePaths := d.inodePaths[key := GetOr(d.inodePaths, key, {}) + {path}]),
     stale)
  }

  /** What a caller leaves the map lock with. */
  datatype Pinned = Pinned(cache: Cache, fd: nat, lock: nat, stale: Option<Stale>)

  function Settle(c: Cache, path: Path, fd: nat, key: Key): Pinned {
    var (d, stale) := Associate(c, path, key);
    var (e, lock) := LockFor(d, key);
    Pinned(e, fd, lock, stale)
  }

  /** The whole section for a path whose inode is already pinned under `fd`. */
  function PinHit(c: Cache, path: Path, key: Key): Pinned
    requires key in c.fds
  {
    Settle(c, path, c.fds[key], key)
  }

  /** The whole section after the open returned `fd` on inode `key`. */
  function PinOpened(c: Cache, path: Path, fd: nat, key: Key): Pinned {
    var (d, used) := Admit(c, fd, key);
    Settle(d, path, used, key)
  }

  // ---- Closing -----------------------------------------------------------------------

  datatype Fate = Kept | Lost | Closed

  function StaleFate(c: Cache, stale: Stale): Fate {
    if stale.key in c.fds then Lost
    else if Held(c, stale.key) then Kept
    else Closed
  }

  /** The section of `_close_stale` that decides and closes, run with the looked-up lock held. */
  function CloseStale(c: Cache, stale: Stale): Cache {
    match StaleFate(c, stale)
    case Kept => c.(fds := c.fds[stale.key := stale.fd], useOrder := AppendUse(c.useOrder, stale.key))
    case Lost => c.(raceLosers := c.raceLosers + [stale.fd])
    case Closed => c.(inodeLocks := c.inodeLocks - {stale.key})
  }

  datatype Swept = Swept(cache: Cache, stale: seq<Stale>, dropped: nat)

  /** Forgets the paths found dead that still map to the inode the sweep saw. */
  function ForgetDead(c: Cache, dead: seq<(Path, Key)>): Swept
    decreases |dead|
  {
    if dead == [] then Swept(c, [], 0)
    else
      var (path, key) := dead[0];
      if path !in c.pathInode || c.pathInode[path] != key then ForgetDead(c, dead[1..])
      else
        var (d, stale) := Retire(c, path, NO_INODE);
        var rest := ForgetDead(d.(pathInode := d.pathInode - {path}), dead[1..]);
        Swept(rest.cache, (if stale.Some? then [stale.value] else []) + rest.stale, rest.dropped + 1)
  }

  datatype Outcome = Evicted | Room | Busy | AllHeld

  datatype Eviction = Eviction(cache: Cache, outcome: Outcome, closed: Option<Stale>)

  /** Drops every trace of an inode whose descriptor is being closed. */
  function Unpin(c: Cache, key: Key): Cache {
    var paths := GetOr(c.inodePaths, key, {});
    var gone := set p | p in paths && p in c.pathInode && c.pathInode[p] == key;
    c.(fds := c.fds - {key},
       useOrder := Without(c.useOrder, key),
       pathInode := c.pathInode - gone,
       inodePaths := c.inodePaths - {key},
       inodeLocks := c.inodeLocks - {key})
  }

  /** Walks the inodes least recently read first and closes the first one neither held nor being read. */
  function EvictScan(c: Cache, order: seq<Key>, held: set<Key>, taken: set<nat>, busy: bool): Eviction
    decreases |order|
  {
    if order == [] then Eviction(c, if busy then Busy else AllHeld, None)
    else
      var key := order[0];
      if key !in c.fds then
        EvictScan(c.(useOrder := Without(c.useOrder, key)), order[1..], held, taken, busy)
      else if key in held then EvictScan(c, order[1..], held, taken, busy)
      else
        var (d, lock) := LockFor(c, key);
        if lock in taken then EvictScan(d, order[1..], held, taken, true)
        else Eviction(Unpin(d, key), Evicted, Some(Stale(key, c.fds[key])))
  }

  /** The inodes no eviction may close: those counted, and those the held paths name now. */
  function HeldNow(c: Cache, named: map<Path, Key>): set<Key> {
    c.heldInodes.Keys + (set p | p in c.holds && p in named :: named[p])
  }

  /** `named` is what the stats of the held paths answered, `taken` the locks some reader or closer has. */
  function EvictIdle(c: Cache, named: map<Path, Key>, taken: set<nat>): Eviction {
    var d := Drain(c);
    if |d.fds| < MAX_PINNED_FDS then Eviction(d, Room, None)
    else if d.uncertain > 0 then Eviction(d, AllHeld, None)
    else EvictScan(d, d.useOrder, HeldNow(d, named), taken, false)
  }
}
