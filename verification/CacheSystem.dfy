/**
 The whole process around the cache as a transition system: files that other programs
 create, rename, link and unlink; threads that read through the cache; threads that open
 held connections; connections destroyed at any moment.  One event is one atomic step.
 A section under the map lock is one event, except that a stat and the open after it are
 two, so files may change between them while the map lock is held.
 */
module CacheSystem {
  import opened Basics
  import opened CacheModel

  /** What a reader resolved; `inst` records which inode instance its path named at that moment. */
  datatype Pin = Pin(fd: nat, key: Key, lock: nat, inst: nat)

  datatype Phase =
    | Idle
    // read_at / copy_to
    | Want                                   // about to resolve the path
    | Opening                                // map lock held, the stat missed, about to open
    | Acquire(pin: Pin)                      // about to take the per-inode lock
    | Check(pin: Pin)                        // per-inode lock held, about to revalidate
    | Reading(pin: Pin)                      // revalidated: I/O until the lock is released
    | Snapshot                               // refused at the cap, about to list the tracked paths
    | Probe(todo: seq<(Path, Key)>, dead: seq<(Path, Key)>)
    | Forget(dead: seq<(Path, Key)>)
    | Evict
    | Refused                                // PinnedReadCapacityExceeded escapes
    // held_connect
    | Hold                                   // about to count the hold
    | Connect(hold: nat, before: Option<Key>)
    | Look(hold: nat, before: Option<Key>)   // opened, about to stat the path again
    | Count(hold: nat, before: Option<Key>, after: Option<Key>)

  /** Progress of `_close_stale` on the first descriptor of `stale`. */
  datatype Closing = NotClosing | LookedUp(lock: nat) | Locked(lock: nat)

  datatype Thread = Thread(path: Path, phase: Phase, swept: bool, waits: nat, stale: seq<Stale>, closing: Closing)

  /** An open connection; it is named by its hold. */
  datatype Connection = Connection(inst: nat, returned: bool)

  datatype State = State(
    c: Cache,
    names: map<Path, nat>,           // the inode instance each path names
    num: map<nat, Key>,              // the number of every instance ever created
    open: map<nat, nat>,             // descriptor table: which instance each open descriptor is on
    conns: map<nat, Connection>,
    tokens: map<nat, Release>,       // holds taken and not yet applied as released
    owner: map<nat, nat>,            // per-inode lock -> the thread that has it
    mapOwner: Option<nat>,           // who holds the map lock between events
    threads: map<nat, Thread>)

  const INITIAL := State(EMPTY_CACHE, map[], map[], map[], map[], map[], map[], None, map[])

  /** Instances something still refers to: a link, a descriptor of the cache, or a connection. */
  ghost predicate Live(s: State, i: nat) {
    || i in s.names.Values
    || i in s.open.Values
    || exists h :: h in s.conns && s.conns[h].inst == i
  }

  datatype Event =
    // other programs, and the garbage collector
    | Create(path: Path, inst: nat, key: Key)   // a new file appears at, or is renamed onto, the path
    | Move(source: Path, target: Path)
    | Link(source: Path, target: Path)
    | Unlink(path: Path)
    | Destroy(hold: nat)
    // calls
    | StartRead(t: nat, path: Path)
    | StartConnect(t: nat, path: Path)
    // readers
    | StatPath(t: nat)
    | OpenPath(t: nat, fd: nat)
    | TakeLock(t: nat)
    | Revalidate(t: nat)
    | FinishRead(t: nat)
    | CloseLookUp(t: nat)
    | CloseTakeLock(t: nat)
    | CloseDecide(t: nat)
    | ListPaths(t: nat, todo: seq<(Path, Key)>)
    | ProbeNext(t: nat)
    | ForgetPaths(t: nat)
    | EvictNow(t: nat, named: map<Path, Key>)
    | GiveUp(t: nat)
    // connecting threads
    | TakeHoldNow(t: nat, hold: nat)
    | ConnectOk(t: nat)
    | ConnectFails(t: nat)
    | LookAgain(t: nat)
    | CountAfter(t: nat)

  predicate IsFileEvent(e: Event) {
    e.Create? || e.Move? || e.Link? || e.Unlink? || e.Destroy?
  }

  predicate IsPlainStep(e: Event) {
    e.StartRead? || e.StartConnect? || e.ListPaths? || e.ProbeNext? || e.GiveUp?
  }

  predicate IsReadStep(e: Event) {
    e.StatPath? || e.OpenPath? || e.TakeLock? || e.Revalidate? || e.FinishRead?
  }

  predicate IsCloseStep(e: Event) {
    e.CloseLookUp? || e.CloseTakeLock? || e.CloseDecide? || e.ForgetPaths? || e.EvictNow?
  }

  predicate IsConnectStep(e: Event) {
    e.TakeHoldNow? || e.ConnectOk? || e.ConnectFails? || e.LookAgain? || e.CountAfter?
  }

  /** The thread's next statement is its own, not a close it still owes. */
  predicate At(s: State, t: nat) {
    t in s.threads && s.threads[t].stale == []
  }

  predicate MapFree(s: State) { s.mapOwner == None }

  function NamedKey(s: State, path: Path): Option<Key>
    requires forall p :: p in s.names ==> s.names[p] in s.num
  {
    if path in s.names then Some(s.num[s.names[path]]) else None
  }

  ghost predicate NamesNumbered(s: State) {
    forall p :: p in s.names ==> s.names[p] in s.num
  }

  /** `todo` is a listing of the tracked paths with their inodes. */
  ghost predicate Lists(c: Cache, todo: seq<(Path, Key)>) {
    NoDuplicates(todo) && (forall x :: x in todo <==> x in c.pathInode.Items)
  }

  ghost predicate FileEnabled(s: State, e: Event) {
    match e
    case Create(_, i, k) => i !in s.num && k != NO_INODE && (forall j :: Live(s, j) && j in s.num ==> s.num[j] != k)
    case Move(p, q) => p in s.names && p != q
    case Link(p, q) => p in s.names && q !in s.names
    case Unlink(p) => p in s.names
    case Destroy(h) => h in s.conns && s.conns[h].returned && h in s.tokens
    case _ => false
  }

  ghost predicate PlainEnabled(s: State, e: Event) {
    match e
    case StartRead(t, _) => t !in s.threads || s.threads[t].phase == Idle
    case StartConnect(t, _) => t !in s.threads || s.threads[t].phase == Idle
    case ListPaths(t, todo) => At(s, t) && s.threads[t].phase == Snapshot && MapFree(s) && Lists(s.c, todo)
    case ProbeNext(t) => At(s, t) && s.threads[t].phase.Probe?
    case GiveUp(t) => At(s, t) && s.threads[t].phase == Refused
    case _ => false
  }

  predicate ReadEnabled(s: State, e: Event) {
    match e
    case StatPath(t) => At(s, t) && s.threads[t].phase == Want && MapFree(s)
    case OpenPath(t, fd) => At(s, t) && s.threads[t].phase == Opening && fd !in s.open
    case TakeLock(t) => At(s, t) && s.threads[t].phase.Acquire? && s.threads[t].phase.pin.lock !in s.owner
    case Revalidate(t) => At(s, t) && s.threads[t].phase.Check? && MapFree(s)
    case FinishRead(t) => At(s, t) && s.threads[t].phase.Reading?
    case _ => false
  }

  predicate CloseEnabled(s: State, e: Event) {
    match e
    case CloseLookUp(t) => t in s.threads && s.threads[t].stale != [] && s.threads[t].closing == NotClosing && MapFree(s)
    case CloseTakeLock(t) => t in s.threads && s.threads[t].stale != [] && s.threads[t].closing.LookedUp?
                             && s.threads[t].closing.lock !in s.owner
    case CloseDecide(t) => t in s.threads && s.threads[t].stale != [] && s.threads[t].closing.Locked? && MapFree(s)
    case ForgetPaths(t) => At(s, t) && s.threads[t].phase.Forget? && MapFree(s)
    case EvictNow(t, _) => At(s, t) && s.threads[t].phase == Phase.Evict && MapFree(s)
    case _ => false
  }

  predicate ConnectEnabled(s: State, e: Event) {
    match e
    case TakeHoldNow(t, h) => At(s, t) && s.threads[t].phase == Hold && MapFree(s) && h !in s.tokens
    case ConnectOk(t) => At(s, t) && s.threads[t].phase.Connect? && s.threads[t].path in s.names
                         && s.threads[t].phase.hold !in s.conns
    case ConnectFails(t) => At(s, t) && s.threads[t].phase.Connect? && s.threads[t].phase.hold in s.tokens
    case LookAgain(t) => At(s, t) && s.threads[t].phase.Look?
    case CountAfter(t) => At(s, t) && s.threads[t].phase.Count? && MapFree(s)
                          && s.threads[t].phase.hold in s.tokens && s.threads[t].phase.hold in s.conns
    case _ => false
  }

  ghost predicate Enabled(s: State, e: Event) {
    && NamesNumbered(s)
    && if IsFileEvent(e) then FileEnabled(s, e)
       else if IsPlainStep(e) then PlainEnabled(s, e)
       else if IsReadStep(e) then ReadEnabled(s, e)
       else if IsCloseStep(e) then CloseEnabled(s, e)
       else ConnectEnabled(s, e)
  }

  function SetThread(s: State, t: nat, th: Thread): State {
    s.(threads := s.threads[t := th])
  }

  function SetPhase(s: State, t: nat, phase: Phase): State
    requires t in s.threads
  {
    SetThread(s, t, s.threads[t].(phase := phase))
  }

  /** Replaces the cache; the holds a drain applied are no longer outstanding. */
  function SetCache(s: State, c: Cache): State {
    s.(c := c, tokens := if c.pending == [] then s.tokens - Ids(s.c.pending) else s.tokens)
  }

  function StaleList(stale: Option<Stale>): seq<Stale> {
    if stale.Some? then [stale.value] else []
  }

  /** A section ended with `p`: the thread leaves the map lock with a pin and perhaps a descriptor to close. */
  function AfterPin(s: State, t: nat, p: Pinned, key: Key, inst: nat): State
    requires t in s.threads
  {
    SetThread(SetCache(s, p.cache), t,
              s.threads[t].(phase := Acquire(Pin(p.fd, key, p.lock, inst)), stale := StaleList(p.stale)))
  }

  function DoStat(s: State, t: nat): State
    requires t in s.threads && forall p :: p in s.names ==> s.names[p] in s.num
  {
    var th := s.threads[t];
    if th.path !in s.names then SetPhase(s, t, Idle)
    else
      var inst := s.names[th.path];
      var key := s.num[inst];
      match LookUp(s.c, th.path, key)
      case Hit(_) => AfterPin(s, t, PinHit(s.c, th.path, key), key, inst)
      case Full => SetPhase(s, t, if th.swept then Phase.Evict else Snapshot)
      case Miss => SetPhase(s, t, Opening).(mapOwner := Some(t))
  }

  function DoOpen(s: State, t: nat, fd: nat): State
    requires t in s.threads && forall p :: p in s.names ==> s.names[p] in s.num
  {
    var th := s.threads[t];
    var u := s.(mapOwner := None);
    if th.path !in s.names then SetPhase(u, t, Idle)
    else
      var inst := s.names[th.path];
      var key := s.num[inst];
      AfterPin(u.(open := s.open[fd := inst]), t, PinOpened(s.c, th.path, fd, key), key, inst)
  }

  function DoRevalidate(s: State, t: nat): State
    requires t in s.threads && s.threads[t].phase.Check?
  {
    var pin := s.threads[t].phase.pin;
    if pin.key in s.c.fds && s.c.fds[pin.key] == pin.fd
       && pin.key in s.c.inodeLocks && s.c.inodeLocks[pin.key] == pin.lock then
      SetPhase(s.(c := MarkRead(s.c, pin.key)), t, Reading(pin))
    else
      SetPhase(s.(owner := s.owner - {pin.lock}), t, Want)
  }

  function DoCloseDecide(s: State, t: nat): State
    requires t in s.threads && s.threads[t].stale != [] && s.threads[t].closing.Locked?
  {
    var th := s.threads[t];
    var stale := th.stale[0];
    var u := s.(c := CloseStale(s.c, stale),
                open := if StaleFate(s.c, stale) == Closed then s.open - {stale.fd} else s.open,
                owner := s.owner - {th.closing.lock});
    SetThread(u, t, th.(stale := th.stale[1..], closing := NotClosing))
  }

  function DoProbe(s: State, t: nat): State
    requires t in s.threads && s.threads[t].phase.Probe?
  {
    var ph := s.threads[t].phase;
    if ph.todo == [] then SetPhase(s, t, Forget(ph.dead))
    else
      var x := ph.todo[0];
      SetPhase(s, t, Probe(ph.todo[1..], if x.0 in s.names then ph.dead else ph.dead + [x]))
  }

  function DoForget(s: State, t: nat): State
    requires t in s.threads && s.threads[t].phase.Forget?
  {
    var th := s.threads[t];
    var swept := ForgetDead(s.c, th.phase.dead);
    SetThread(SetCache(s, swept.cache), t,
              th.(swept := true, stale := swept.stale, phase := if swept.dropped > 0 then Want else Phase.Evict))
  }

  function AfterEvict(th: Thread, outcome: Outcome): Thread {
    match outcome
    case Evicted => th.(phase := Want)
    case Room => th.(phase := Want)
    case Busy => if th.waits < BUSY_RETRIES then th.(phase := Want, waits := th.waits + 1) else th.(phase := Refused)
    case AllHeld => th.(phase := Refused)
  }

  function LeftOpen(open: map<nat, nat>, closed: Option<Stale>): map<nat, nat> {
    if closed.Some? then open - {closed.value.fd} else open
  }

  function DoEvict(s: State, t: nat, named: map<Path, Key>): State
    requires t in s.threads
  {
    var ev := EvictIdle(s.c, named, s.owner.Keys);
    SetThread(SetCache(s, ev.cache).(open := LeftOpen(s.open, ev.closed)), t, AfterEvict(s.threads[t], ev.outcome))
  }

  function HoldsOf(before: Option<Key>): seq<Key> {
    if before.Some? then [before.value] else []
  }

  function DoTakeHold(s: State, t: nat, h: nat): State
    requires t in s.threads && forall p :: p in s.names ==> s.names[p] in s.num
  {
    var path := s.threads[t].path;
    var before := NamedKey(s, path);
    var u := SetCache(s, TakeHold(s.c, path, before));
    SetPhase(u.(tokens := u.tokens[h := Release(h, path, HoldsOf(before), false)]), t, Connect(h, before))
  }

  function DoCount(s: State, t: nat): State
    requires t in s.threads && s.threads[t].phase.Count?
    requires s.threads[t].phase.hold in s.tokens && s.threads[t].phase.hold in s.conns
  {
    var Count(h, before, after) := s.threads[t].phase;
    var hold := s.tokens[h].(inodes := HoldInodes(before, after), uncertain := SwappedMidOpen(before, after));
    SetPhase(s.(c := CompleteHold(s.c, before, after),
                tokens := s.tokens[h := hold],
                conns := s.conns[h := s.conns[h].(returned := true)]), t, Idle)
  }

  function Queue(s: State, r: Release): State {
    s.(c := s.c.(pending := s.c.pending + [r]))
  }

  ghost function ApplyFile(s: State, e: Event): State
    requires IsFileEvent(e) && FileEnabled(s, e)
  {
    match e
    case Create(p, i, k) => s.(names := s.names[p := i], num := s.num[i := k])
    case Move(p, q) => s.(names := s.names[q := s.names[p]] - {p})
    case Link(p, q) => s.(names := s.names[q := s.names[p]])
    case Unlink(p) => s.(names := s.names - {p})
    case Destroy(h) => Queue(s.(conns := s.conns - {h}), s.tokens[h])
  }

  ghost function ApplyPlain(s: State, e: Event): State
    requires IsPlainStep(e) && PlainEnabled(s, e)
  {
    match e
    case StartRead(t, p) => SetThread(s, t, Thread(p, Want, false, 0, [], NotClosing))
    case StartConnect(t, p) => SetThread(s, t, Thread(p, Hold, false, 0, [], NotClosing))
    case ListPaths(t, todo) => SetPhase(s, t, Probe(todo, []))
    case ProbeNext(t) => DoProbe(s, t)
    case GiveUp(t) => SetPhase(s, t, Idle)
  }

  function ApplyRead(s: State, e: Event): State
    requires IsReadStep(e) && ReadEnabled(s, e) && forall p :: p in s.names ==> s.names[p] in s.num
  {
    match e
    case StatPath(t) => DoStat(s, t)
    case OpenPath(t, fd) => DoOpen(s, t, fd)
    case TakeLock(t) => var pin := s.threads[t].phase.pin;
                        SetPhase(s.(owner := s.owner[pin.lock := t]), t, Check(pin))
    case Revalidate(t) => DoRevalidate(s, t)
    case FinishRead(t) => SetPhase(s.(owner := s.owner - {s.threads[t].phase.pin.lock}), t, Idle)
  }

  function ApplyClose(s: State, e: Event): State
    requires IsCloseStep(e) && CloseEnabled(s, e)
  {
    match e
    case CloseLookUp(t) => var (c, lock) := LockFor(s.c, s.threads[t].stale[0].key);
                           SetThread(s.(c := c), t, s.threads[t].(closing := LookedUp(lock)))
    case CloseTakeLock(t) => var lock := s.threads[t].closing.lock;
                             SetThread(s.(owner := s.owner[lock := t]), t, s.threads[t].(closing := Locked(lock)))
    case CloseDecide(t) => DoCloseDecide(s, t)
    case ForgetPaths(t) => DoForget(s, t)
    case EvictNow(t, named) => DoEvict(s, t, named)
  }

  function ApplyConnect(s: State, e: Event): State
    requires IsConnectStep(e) && ConnectEnabled(s, e) && forall p :: p in s.names ==> s.names[p] in s.num
  {
    match e
    case TakeHoldNow(t, h) => DoTakeHold(s, t, h)
    case ConnectOk(t) => var h := s.threads[t].phase.hold;
                         SetPhase(s.(conns := s.conns[h := Connection(s.names[s.threads[t].path], false)]),
                                  t, Look(h, s.threads[t].phase.before))
    case ConnectFails(t) => SetPhase(Queue(s, s.tokens[s.threads[t].phase.hold]), t, Idle)
    case LookAgain(t) => SetPhase(s, t, Count(s.threads[t].phase.hold, s.threads[t].phase.before,
                                              NamedKey(s, s.threads[t].path)))
    case CountAfter(t) => DoCount(s, t)
  }

  ghost function Apply(s: State, e: Event): State
    requires Enabled(s, e)
  {
    if IsFileEvent(e) then ApplyFile(s, e)
    else if IsPlainStep(e) then ApplyPlain(s, e)
    else if IsReadStep(e) then ApplyRead(s, e)
    else if IsCloseStep(e) then ApplyClose(s, e)
    else ApplyConnect(s, e)
  }

  /** A run: states from the initial one, each the result of an enabled event. */
  ghost predicate Run(r: seq<State>, es: seq<Event>) {
    && |r| == |es| + 1
    && r[0] == INITIAL
    && forall n :: 0 <= n < |es| ==> Enabled(r[n], es[n]) && r[n + 1] == Apply(r[n], es[n])
  }
}
