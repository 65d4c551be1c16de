/**
 A run in which a reader loses its descriptor.  Two descriptors of one inode are retired one after
 the other; the first closer looked its lock up before the second one dropped that lock, so its own
 close drops the lock a later reader holds, and the descriptor under that reader can be closed.
 */
module RetiredTwice {
  import opened Basics
  import opened CacheModel
  import opened CacheSystem
  import opened CacheInvariant
  import opened ReadGuarantee

  ghost predicate Reached(s: State) {
    exists r, es :: Run(r, es) && r[|es|] == s
  }

  lemma StartReached()
    ensures Reached(INITIAL)
  {
    assert Run([INITIAL], []);
  }

  lemma StepReached(s: State, e: Event, u: State)
    requires Reached(s) && Enabled(s, e) && u == Apply(s, e)
    ensures Reached(u)
  {
    hide Enabled, Apply;
    var r, es :| Run(r, es) && r[|es|] == s;
    assert Run(r + [u], es + [e]);
  }

  // ---- One event of each kind --------------------------------------------------------

  lemma Creates(s: State, path: Path, inst: nat, key: Key)
    requires Reached(s) && NamesNumbered(s) && FileEnabled(s, Create(path, inst, key))
    ensures Reached(s.(names := s.names[path := inst], num := s.num[inst := key]))
  {
    StepReached(s, Create(path, inst, key), s.(names := s.names[path := inst], num := s.num[inst := key]));
  }

  lemma Links(s: State, source: Path, target: Path)
    requires Reached(s) && NamesNumbered(s) && source in s.names && target !in s.names
    ensures Reached(s.(names := s.names[target := s.names[source]]))
  {
    StepReached(s, Link(source, target), s.(names := s.names[target := s.names[source]]));
  }

  lemma Drops<K, V>(m: map<K, V>, k: K, n: map<K, V>)
    requires k !in n && k in m && m == n[k := m[k]]
    ensures m - {k} == n
  {
  }

  lemma Moves(s: State, source: Path, target: Path, after: map<Path, nat>)
    requires Reached(s) && NamesNumbered(s) && source in s.names && source != target && source !in after
    requires s.names[target := s.names[source]] == after[source := s.names[source]]
    ensures Reached(s.(names := after))
  {
    Drops(s.names[target := s.names[source]], source, after);
    StepReached(s, Move(source, target), s.(names := after));
  }

  function Starting(s: State, t: nat, path: Path): State {
    SetThread(s, t, Thread(path, Want, false, 0, [], NotClosing))
  }

  lemma Starts(s: State, t: nat, path: Path)
    requires Reached(s) && NamesNumbered(s) && t !in s.threads
    ensures Reached(Starting(s, t, path))
  {
    StepReached(s, StartRead(t, path), Starting(s, t, path));
  }

  lemma Stats(s: State, t: nat)
    requires Reached(s) && NamesNumbered(s) && At(s, t) && s.threads[t].phase == Want && MapFree(s)
    ensures Reached(DoStat(s, t))
  {
    hide DoStat, Reached;
    StepReached(s, StatPath(t), DoStat(s, t));
  }

  lemma Opens(s: State, t: nat, fd: nat)
    requires Reached(s) && NamesNumbered(s) && At(s, t) && s.threads[t].phase == Opening && fd !in s.open
    ensures Reached(DoOpen(s, t, fd))
  {
    hide DoOpen, Reached;
    StepReached(s, OpenPath(t, fd), DoOpen(s, t, fd));
  }

  function InPhase(s: State, t: nat, phase: Phase): map<nat, Thread>
    requires t in s.threads
  {
    s.threads[t := s.threads[t].(phase := phase)]
  }

  lemma Locks(s: State, t: nat, pin: Pin)
    requires Reached(s) && NamesNumbered(s) && At(s, t) && s.threads[t].phase == Acquire(pin) && s.owner == map[]
    ensures Reached(s.(owner := map[pin.lock := t], threads := InPhase(s, t, Check(pin))))
  {
    hide Reached;
    StepReached(s, TakeLock(t), s.(owner := map[pin.lock := t], threads := InPhase(s, t, Check(pin))));
  }

  lemma Revalidates(s: State, t: nat, pin: Pin)
    requires Reached(s) && NamesNumbered(s) && At(s, t) && s.threads[t].phase == Check(pin) && MapFree(s)
    requires PinnedAs(s.c, pin.key, pin.fd) && pin.key in s.c.inodeLocks && s.c.inodeLocks[pin.key] == pin.lock
    requires MarkRead(s.c, pin.key) == s.c
    ensures Reached(s.(threads := InPhase(s, t, Reading(pin))))
  {
    hide Reached, MarkRead;
    StepReached(s, Revalidate(t), s.(threads := InPhase(s, t, Reading(pin))));
  }

  function Pinning(path: Path, pin: Pin, stale: seq<Stale>, closing: Closing): Thread {
    Thread(path, Acquire(pin), false, 0, stale, closing)
  }

  function PinnedBy(s: State, t: nat, path: Path, p: Pinned, inst: nat): State
    requires inst in s.num
  {
    s.(c := p.cache, threads := s.threads[t := Pinning(path, Pin(p.fd, s.num[inst], p.lock, inst), StaleList(p.stale), NotClosing)])
  }

  /** A new thread reads a path whose inode is pinned, up to leaving the map lock. */
  lemma ReadsHit(s: State, t: nat, path: Path, inst: nat, p: Pinned)
    requires Reached(s) && NamesNumbered(s) && t !in s.threads && MapFree(s) && s.tokens == map[]
    requires path in s.names && s.names[path] == inst && s.num[inst] in s.c.fds && p == PinHit(s.c, path, s.num[inst])
    ensures Reached(PinnedBy(s, t, path, p, inst))
  {
    hide Reached, PinHit;
    Starts(s, t, path);
    Stats(Starting(s, t, path), t);
    assert DoStat(Starting(s, t, path), t) == PinnedBy(s, t, path, p, inst);
  }

  /** A new thread stats a path whose inode is not pinned. */
  lemma StatsMiss(s: State, t: nat, path: Path)
    requires Reached(s) && NamesNumbered(s) && t !in s.threads && MapFree(s)
    requires path in s.names && LookUp(s.c, path, s.num[s.names[path]]) == Miss
    ensures Reached(s.(threads := s.threads[t := Thread(path, Opening, false, 0, [], NotClosing)], mapOwner := Some(t)))
  {
    hide Reached, LookUp;
    Starts(s, t, path);
    var u := Starting(s, t, path);
    Stats(u, t);
    assert DoStat(u, t) == s.(threads := s.threads[t := Thread(path, Opening, false, 0, [], NotClosing)], mapOwner := Some(t));
  }

  /** A new thread reads a path whose inode is not pinned, up to leaving the map lock; its open returns `fd`. */
  lemma ReadsMiss(s: State, t: nat, path: Path, inst: nat, fd: nat, p: Pinned, open: map<nat, nat>)
    requires Reached(s) && NamesNumbered(s) && t !in s.threads && MapFree(s) && s.tokens == map[] && fd !in s.open
    requires path in s.names && s.names[path] == inst && LookUp(s.c, path, s.num[inst]) == Miss
    requires p == PinOpened(s.c, path, fd, s.num[inst]) && open == s.open[fd := inst]
    ensures Reached(PinnedBy(s, t, path, p, inst).(open := open))
  {
    hide Reached, PinOpened, LookUp;
    StatsMiss(s, t, path);
    var u := s.(threads := s.threads[t := Thread(path, Opening, false, 0, [], NotClosing)], mapOwner := Some(t));
    Opens(u, t, fd);
    assert DoOpen(u, t, fd) == PinnedBy(s, t, path, p, inst).(open := s.open[fd := inst]);
  }

  /** The closer looks its inode's lock up, or creates one. */
  lemma LooksUp(s: State, t: nat, key: Key, c: Cache, lock: nat)
    requires Reached(s) && NamesNumbered(s) && t in s.threads && s.threads[t].stale != [] && s.threads[t].closing == NotClosing
    requires MapFree(s) && s.threads[t].stale[0].key == key && LockFor(s.c, key) == (c, lock)
    ensures Reached(s.(c := c, threads := s.threads[t := s.threads[t].(closing := LookedUp(lock))]))
  {
    hide Reached, LockFor;
    StepReached(s, CloseLookUp(t), s.(c := c, threads := s.threads[t := s.threads[t].(closing := LookedUp(lock))]));
  }

  function TakingLock(s: State, t: nat): State
    requires t in s.threads && s.threads[t].closing.LookedUp?
  {
    var lock := s.threads[t].closing.lock;
    SetThread(s.(owner := s.owner[lock := t]), t, s.threads[t].(closing := Locked(lock)))
  }

  /** The closer takes the lock it looked up and closes its descriptor; `locks` and `open` are what is left. */
  lemma Closes(s: State, t: nat, x: Stale, lock: nat, locks: map<Key, nat>, open: map<nat, nat>)
    requires Reached(s) && NamesNumbered(s) && MapFree(s) && t in s.threads && s.threads[t].stale == [x]
    requires s.threads[t].closing == LookedUp(lock) && lock !in s.owner && x.key !in s.c.fds && !Held(s.c, x.key)
    requires x.key !in locks && x.key in s.c.inodeLocks && s.c.inodeLocks == locks[x.key := s.c.inodeLocks[x.key]]
    requires x.fd !in open && x.fd in s.open && s.open == open[x.fd := s.open[x.fd]]
    ensures Reached(s.(c := s.c.(inodeLocks := locks), open := open,
                       threads := s.threads[t := s.threads[t].(stale := [], closing := NotClosing)]))
  {
    hide DoCloseDecide, TakingLock, Reached;
    TakesLock(s, t);
    DecidesClose(TakingLock(s, t), t);
    CloseResult(s, t, x, lock);
    Drops(s.c.inodeLocks, x.key, locks);
    Drops(s.open, x.fd, open);
  }

  lemma TakesLock(s: State, t: nat)
    requires Reached(s) && NamesNumbered(s) && t in s.threads && s.threads[t].stale != [] && s.threads[t].closing.LookedUp?
    requires s.threads[t].closing.lock !in s.owner
    ensures Reached(TakingLock(s, t))
    ensures var u := TakingLock(s, t);
            NamesNumbered(u) && u.mapOwner == s.mapOwner
            && t in u.threads && u.threads[t] == s.threads[t].(closing := Locked(s.threads[t].closing.lock))
  {
    hide Reached;
    StepReached(s, CloseTakeLock(t), TakingLock(s, t));
  }

  lemma DecidesClose(s: State, t: nat)
    requires Reached(s) && NamesNumbered(s) && MapFree(s) && t in s.threads && s.threads[t].stale != []
    requires s.threads[t].closing.Locked?
    ensures Reached(DoCloseDecide(s, t))
  {
    hide DoCloseDecide, Reached;
    StepReached(s, CloseDecide(t), DoCloseDecide(s, t));
  }

  lemma CloseResult(s: State, t: nat, x: Stale, lock: nat)
    requires t in s.threads && s.threads[t].stale == [x] && s.threads[t].closing == LookedUp(lock)
    requires lock !in s.owner && x.key !in s.c.fds && !Held(s.c, x.key)
    ensures DoCloseDecide(TakingLock(s, t), t)
         == s.(c := s.c.(inodeLocks := s.c.inodeLocks - {x.key}), open := s.open - {x.fd},
               threads := s.threads[t := s.threads[t].(stale := [], closing := NotClosing)])
  {
    assert s.owner[lock := t] - {lock} == s.owner;
    assert [x][1..] == [];
    var th := s.threads[t];
    assert s.threads[t := th.(closing := Locked(lock))][t := th.(stale := [], closing := NotClosing)]
        == s.threads[t := th.(stale := [], closing := NotClosing)];
  }

  // ---- The run -----------------------------------------------------------------------

  // Two files of three names each; the names of the old one are replaced one by one.
  const OLD := Key(1, 10)
  const NEW := Key(1, 20)
  const P := Path("p")
  const R := Path("r")
  const S := Path("s")
  const PN := Path("p.new")
  const RN := Path("r.new")
  const SN := Path("s.new")

  function Maps(fds: map<Key, nat>, tracked: map<Path, Key>, named: map<Key, set<Path>>, locks: map<Key, nat>,
                next: nat, order: seq<Key>): Cache {
    Cache(fds, tracked, named, locks, next, [], order, map[], map[], 0, [])
  }

  const NAMES := map[P := 1, R := 1, S := 1, PN := 2, RN := 2, SN := 2]
  const NAMES_P := map[P := 2, R := 1, S := 1, RN := 2, SN := 2]
  const NAMES_R := map[P := 2, R := 2, S := 1, SN := 2]
  const NAMES_S := map[P := 2, R := 2, S := 2]

  const CACHE_0 := Maps(map[OLD := 0], map[P := OLD], map[OLD := {P}], map[OLD := 0], 1, [OLD])
  const CACHE_1 := Maps(map[NEW := 1], map[P := NEW], map[NEW := {P}], map[OLD := 0, NEW := 1], 2, [NEW])
  const CACHE_2 := Maps(map[NEW := 1, OLD := 2], map[P := NEW, R := OLD], map[NEW := {P}, OLD := {R}],
                        map[OLD := 0, NEW := 1], 2, [NEW, OLD])
  const CACHE_3 := Maps(map[NEW := 1], map[P := NEW, R := NEW], map[NEW := {P, R}], map[OLD := 0, NEW := 1], 2, [NEW])
  const CACHE_4 := CACHE_3.(inodeLocks := map[NEW := 1])
  const CACHE_5 := Maps(map[NEW := 1, OLD := 2], map[P := NEW, R := NEW, S := OLD], map[NEW := {P, R}, OLD := {S}],
                        map[NEW := 1, OLD := 2], 3, [NEW, OLD])
  const CACHE_6 := Maps(map[NEW := 1], map[P := NEW, R := NEW, S := NEW], map[NEW := {P, R, S}],
                        map[NEW := 1, OLD := 2], 3, [NEW])
  const CACHE_7 := CACHE_6.(inodeLocks := map[NEW := 1])
  const CACHE_8 := CACHE_6.(inodeLocks := map[NEW := 1, OLD := 3], nextLock := 4)
  const CACHE_9 := CACHE_8.(inodeLocks := map[NEW := 1])

  const PINS_FIRST := Pinned(CACHE_0, 0, 0, None)
  const RETIRES_FIRST := Pinned(CACHE_1, 1, 1, Some(Stale(OLD, 0)))
  const PINS_AGAIN := Pinned(CACHE_2, 2, 0, None)
  const RETIRES_AGAIN := Pinned(CACHE_3, 1, 1, Some(Stale(OLD, 2)))
  const PINS_ANEW := Pinned(CACHE_5, 2, 2, None)
  const RETIRES_UNDER := Pinned(CACHE_6, 1, 1, Some(Stale(OLD, 2)))
  const READING := Pin(2, OLD, 2, 1)

  lemma OrderWithout(x: Key, y: Key)
    requires x != y
    ensures Without([x, y], x) == [y] && Without([y, x], x) == [y]
  {
    assert [x, y][1..] == [y] && [y, x][1..] == [x] && [y][1..] == [] && [x][1..] == [];
  }

  /** Caches without holds are equal when their maps are. */
  lemma SameMaps(c: Cache, d: Cache)
    requires c.fds == d.fds && c.pathInode == d.pathInode && c.inodePaths == d.inodePaths && c.inodeLocks == d.inodeLocks
    requires c.nextLock == d.nextLock && c.useOrder == d.useOrder && c.raceLosers == d.raceLosers
    requires c.holds == d.holds && c.heldInodes == d.heldInodes && c.uncertain == d.uncertain && c.pending == d.pending
    ensures c == d
  {
  }

  lemma PinsFirst()
    ensures LookUp(EMPTY_CACHE, P, OLD) == Miss && PinOpened(EMPTY_CACHE, P, 0, OLD) == PINS_FIRST
  {
    assert GetOr(EMPTY_CACHE.inodePaths, OLD, {}) + {P} == {P};
    SameMaps(PinOpened(EMPTY_CACHE, P, 0, OLD).cache, CACHE_0);
  }

  lemma RetiresFirst()
    ensures LookUp(CACHE_0, P, NEW) == Miss && PinOpened(CACHE_0, P, 1, NEW) == RETIRES_FIRST
  {
    OrderWithout(OLD, NEW);
    var c := Admit(CACHE_0, 1, NEW).0;
    assert c.inodePaths[OLD] - {P} == {};
    assert GetOr(Retire(c, P, NEW).0.inodePaths, NEW, {}) + {P} == {P};
    SameMaps(PinOpened(CACHE_0, P, 1, NEW).cache, CACHE_1);
  }

  lemma PinsAgain()
    ensures LookUp(CACHE_1, R, OLD) == Miss && PinOpened(CACHE_1, R, 2, OLD) == PINS_AGAIN
  {
    assert GetOr(CACHE_1.inodePaths, OLD, {}) + {R} == {R};
    SameMaps(PinOpened(CACHE_1, R, 2, OLD).cache, CACHE_2);
  }

  lemma RetiresAgain()
    ensures PinHit(CACHE_2, R, NEW) == RETIRES_AGAIN
  {
    OrderWithout(OLD, NEW);
    assert CACHE_2.inodePaths[OLD] - {R} == {};
    assert GetOr(Retire(CACHE_2, R, NEW).0.inodePaths, NEW, {}) + {R} == {P, R};
    SameMaps(PinHit(CACHE_2, R, NEW).cache, CACHE_3);
  }

  lemma PinsUnderNewLock()
    ensures LookUp(CACHE_4, S, OLD) == Miss && PinOpened(CACHE_4, S, 2, OLD) == PINS_ANEW
  {
    assert GetOr(CACHE_4.inodePaths, OLD, {}) + {S} == {S};
    SameMaps(PinOpened(CACHE_4, S, 2, OLD).cache, CACHE_5);
  }

  lemma RetiresUnderReader()
    ensures PinHit(CACHE_5, S, NEW) == RETIRES_UNDER
  {
    OrderWithout(OLD, NEW);
    assert CACHE_5.inodePaths[OLD] - {S} == {};
    assert GetOr(Retire(CACHE_5, S, NEW).0.inodePaths, NEW, {}) + {S} == {P, R, S};
    SameMaps(PinHit(CACHE_5, S, NEW).cache, CACHE_6);
  }

  const FILES := INITIAL.(names := NAMES, num := map[1 := OLD, 2 := NEW])

  /** A state of the run between two sections under the map lock. */
  ghost predicate Scene(s: State, c: Cache, names: map<Path, nat>, open: map<nat, nat>, owner: map<nat, nat>) {
    && Reached(s)
    && s.c == c && s.names == names && s.num == map[1 := OLD, 2 := NEW] && s.open == open && s.owner == owner
    && s.tokens == map[] && s.conns == map[] && MapFree(s)
  }

  /** Thread `t` has the descriptor `x` to close, and nothing else. */
  predicate Retirer(s: State, t: nat, x: Stale, closing: Closing) {
    t in s.threads && s.threads[t].stale == [x] && s.threads[t].closing == closing
  }

  predicate InPhaseOf(s: State, t: nat, phase: Phase) {
    t in s.threads && s.threads[t].phase == phase && s.threads[t].stale == []
  }

  lemma OldFile()
    ensures Reached(INITIAL.(names := map[P := 1, R := 1, S := 1], num := map[1 := OLD]))
  {
    hide Reached;
    StartReached();
    Creates(INITIAL, P, 1, OLD);
    var s1 := INITIAL.(names := map[P := 1], num := map[1 := OLD]);
    Links(s1, P, R);
    var s2 := s1.(names := map[P := 1, R := 1]);
    Links(s2, P, S);
  }

  lemma NewFile()
    ensures Reached(FILES)
  {
    hide Reached;
    OldFile();
    var s0 := INITIAL.(names := map[P := 1, R := 1, S := 1], num := map[1 := OLD]);
    Creates(s0, PN, 2, NEW);
    var s1 := s0.(names := map[P := 1, R := 1, S := 1, PN := 2], num := map[1 := OLD, 2 := NEW]);
    Links(s1, PN, RN);
    var s2 := s1.(names := map[P := 1, R := 1, S := 1, PN := 2, RN := 2]);
    Links(s2, PN, SN);
    assert s2.names[SN := 2] == NAMES;
  }

  lemma FirstPins() returns (s: State)
    ensures Scene(s, CACHE_0, NAMES, map[0 := 1], map[]) && s.threads.Keys == {1}
  {
    hide Reached, PinOpened, LookUp;
    NewFile();
    PinsFirst();
    ReadsMiss(FILES, 1, P, 1, 0, PINS_FIRST, map[0 := 1]);
    s := PinnedBy(FILES, 1, P, PINS_FIRST, 1).(open := map[0 := 1]);
  }

  lemma FirstReplaced() returns (s: State)
    ensures Scene(s, CACHE_0, NAMES_P, map[0 := 1], map[]) && s.threads.Keys == {1}
  {
    hide Reached;
    s := FirstPins();
    Moves(s, PN, P, NAMES_P);
    s := s.(names := NAMES_P);
  }

  /** The second thread retires the descriptor the first one opened. */
  lemma SecondRetires() returns (s: State)
    ensures Scene(s, CACHE_1, NAMES_P, map[0 := 1, 1 := 2], map[]) && s.threads.Keys == {1, 2}
    ensures Retirer(s, 2, Stale(OLD, 0), NotClosing)
  {
    hide Reached, PinOpened, LookUp;
    s := FirstReplaced();
    RetiresFirst();
    ReadsMiss(s, 2, P, 2, 1, RETIRES_FIRST, map[0 := 1, 1 := 2]);
    s := PinnedBy(s, 2, P, RETIRES_FIRST, 2).(open := map[0 := 1, 1 := 2]);
  }

  /** It looks up lock 0, and is overtaken by all that follows. */
  lemma SecondLooksUp() returns (s: State)
    ensures Scene(s, CACHE_1, NAMES_P, map[0 := 1, 1 := 2], map[]) && s.threads.Keys == {1, 2}
    ensures Retirer(s, 2, Stale(OLD, 0), LookedUp(0))
  {
    hide Reached;
    s := SecondRetires();
    LooksUp(s, 2, OLD, CACHE_1, 0);
    s := s.(threads := s.threads[2 := s.threads[2].(closing := LookedUp(0))]);
  }

  lemma ThirdPins() returns (s: State)
    ensures Scene(s, CACHE_2, NAMES_P, map[0 := 1, 1 := 2, 2 := 1], map[]) && s.threads.Keys == {1, 2, 3}
    ensures Retirer(s, 2, Stale(OLD, 0), LookedUp(0))
  {
    hide Reached, PinOpened, LookUp;
    s := SecondLooksUp();
    PinsAgain();
    ReadsMiss(s, 3, R, 1, 2, PINS_AGAIN, map[0 := 1, 1 := 2, 2 := 1]);
    s := PinnedBy(s, 3, R, PINS_AGAIN, 1).(open := map[0 := 1, 1 := 2, 2 := 1]);
  }

  lemma ThirdReplaced() returns (s: State)
    ensures Scene(s, CACHE_2, NAMES_R, map[0 := 1, 1 := 2, 2 := 1], map[]) && s.threads.Keys == {1, 2, 3}
    ensures Retirer(s, 2, Stale(OLD, 0), LookedUp(0))
  {
    hide Reached;
    s := ThirdPins();
    Moves(s, RN, R, NAMES_R);
    s := s.(names := NAMES_R);
  }

  /** The fourth thread retires the second descriptor of the old file. */
  lemma FourthRetires() returns (s: State)
    ensures Scene(s, CACHE_3, NAMES_R, map[0 := 1, 1 := 2, 2 := 1], map[]) && s.threads.Keys == {1, 2, 3, 4}
    ensures Retirer(s, 2, Stale(OLD, 0), LookedUp(0)) && Retirer(s, 4, Stale(OLD, 2), NotClosing)
  {
    hide Reached, PinHit;
    s := ThirdReplaced();
    RetiresAgain();
    ReadsHit(s, 4, R, 2, RETIRES_AGAIN);
    s := PinnedBy(s, 4, R, RETIRES_AGAIN, 2);
  }

  lemma FourthLooksUp() returns (s: State)
    ensures Scene(s, CACHE_3, NAMES_R, map[0 := 1, 1 := 2, 2 := 1], map[]) && s.threads.Keys == {1, 2, 3, 4}
    ensures Retirer(s, 2, Stale(OLD, 0), LookedUp(0)) && Retirer(s, 4, Stale(OLD, 2), LookedUp(0))
  {
    hide Reached;
    s := FourthRetires();
    LooksUp(s, 4, OLD, CACHE_3, 0);
    s := s.(threads := s.threads[4 := s.threads[4].(closing := LookedUp(0))]);
  }

  /** It closes that descriptor, and drops lock 0. */
  lemma FourthCloses() returns (s: State)
    ensures Scene(s, CACHE_4, NAMES_R, map[0 := 1, 1 := 2], map[]) && s.threads.Keys == {1, 2, 3, 4}
    ensures Retirer(s, 2, Stale(OLD, 0), LookedUp(0))
  {
    hide Reached;
    s := FourthLooksUp();
    Closes(s, 4, Stale(OLD, 2), 0, map[NEW := 1], map[0 := 1, 1 := 2]);
    s := s.(c := CACHE_4, open := map[0 := 1, 1 := 2], threads := s.threads[4 := s.threads[4].(stale := [], closing := NotClosing)]);
  }

  lemma FifthPins() returns (s: State)
    ensures Scene(s, CACHE_5, NAMES_R, map[0 := 1, 1 := 2, 2 := 1], map[]) && s.threads.Keys == {1, 2, 3, 4, 5}
    ensures Retirer(s, 2, Stale(OLD, 0), LookedUp(0)) && InPhaseOf(s, 5, Acquire(READING))
  {
    hide Reached, PinOpened, LookUp;
    s := FourthCloses();
    PinsUnderNewLock();
    ReadsMiss(s, 5, S, 1, 2, PINS_ANEW, map[0 := 1, 1 := 2, 2 := 1]);
    s := PinnedBy(s, 5, S, PINS_ANEW, 1).(open := map[0 := 1, 1 := 2, 2 := 1]);
  }

  lemma FifthLocks() returns (s: State)
    ensures Scene(s, CACHE_5, NAMES_R, map[0 := 1, 1 := 2, 2 := 1], map[2 := 5]) && s.threads.Keys == {1, 2, 3, 4, 5}
    ensures Retirer(s, 2, Stale(OLD, 0), LookedUp(0)) && InPhaseOf(s, 5, Check(READING))
  {
    hide Reached;
    s := FifthPins();
    Locks(s, 5, READING);
    s := s.(owner := map[2 := 5], threads := InPhase(s, 5, Check(READING)));
  }

  /** The fifth thread reads the old file under a new lock. */
  lemma FifthReads() returns (s: State)
    ensures Scene(s, CACHE_5, NAMES_R, map[0 := 1, 1 := 2, 2 := 1], map[2 := 5]) && s.threads.Keys == {1, 2, 3, 4, 5}
    ensures Retirer(s, 2, Stale(OLD, 0), LookedUp(0)) && InPhaseOf(s, 5, Reading(READING))
  {
    hide Reached;
    s := FifthLocks();
    OrderWithout(OLD, NEW);
    Revalidates(s, 5, READING);
    s := s.(threads := InPhase(s, 5, Reading(READING)));
  }

  lemma FifthReplaced() returns (s: State)
    ensures Scene(s, CACHE_5, NAMES_S, map[0 := 1, 1 := 2, 2 := 1], map[2 := 5]) && s.threads.Keys == {1, 2, 3, 4, 5}
    ensures Retirer(s, 2, Stale(OLD, 0), LookedUp(0)) && InPhaseOf(s, 5, Reading(READING))
  {
    hide Reached;
    s := FifthReads();
    Moves(s, SN, S, NAMES_S);
    s := s.(names := NAMES_S);
  }

  /** The sixth thread retires the descriptor the fifth one reads. */
  lemma SixthRetires() returns (s: State)
    ensures Scene(s, CACHE_6, NAMES_S, map[0 := 1, 1 := 2, 2 := 1], map[2 := 5]) && InPhaseOf(s, 5, Reading(READING))
    ensures Retirer(s, 2, Stale(OLD, 0), LookedUp(0)) && Retirer(s, 6, Stale(OLD, 2), NotClosing)
  {
    hide Reached, PinHit;
    s := FifthReplaced();
    RetiresUnderReader();
    ReadsHit(s, 6, S, 2, RETIRES_UNDER);
    s := PinnedBy(s, 6, S, RETIRES_UNDER, 2);
  }

  /** The second thread closes its descriptor under lock 0, and drops the lock of the reader. */
  lemma SecondCloses() returns (s: State)
    ensures Scene(s, CACHE_7, NAMES_S, map[1 := 2, 2 := 1], map[2 := 5]) && InPhaseOf(s, 5, Reading(READING))
    ensures Retirer(s, 6, Stale(OLD, 2), NotClosing)
  {
    hide Reached;
    s := SixthRetires();
    Closes(s, 2, Stale(OLD, 0), 0, map[NEW := 1], map[1 := 2, 2 := 1]);
    s := s.(c := CACHE_7, open := map[1 := 2, 2 := 1], threads := s.threads[2 := s.threads[2].(stale := [], closing := NotClosing)]);
  }

  lemma SixthLooksUp() returns (s: State)
    ensures Scene(s, CACHE_8, NAMES_S, map[1 := 2, 2 := 1], map[2 := 5]) && InPhaseOf(s, 5, Reading(READING))
    ensures Retirer(s, 6, Stale(OLD, 2), LookedUp(3))
  {
    hide Reached;
    s := SecondCloses();
    LooksUp(s, 6, OLD, CACHE_8, 3);
    s := s.(c := CACHE_8, threads := s.threads[6 := s.threads[6].(closing := LookedUp(3))]);
  }

  /** The sixth thread closes the reader's descriptor under a lock of its own. */
  lemma SixthCloses() returns (s: State)
    ensures Scene(s, CACHE_9, NAMES_S, map[1 := 2], map[2 := 5]) && InPhaseOf(s, 5, Reading(READING))
  {
    hide Reached;
    s := SixthLooksUp();
    Closes(s, 6, Stale(OLD, 2), 3, map[NEW := 1], map[1 := 2]);
    s := s.(c := CACHE_9, open := map[1 := 2], threads := s.threads[6 := s.threads[6].(stale := [], closing := NotClosing)]);
  }

  /** There is a run after which a reader that passed the revalidation reads through a closed descriptor. */
  lemma ReaderCanLoseDescriptor()
    ensures exists r: seq<State>, es: seq<Event>, t: nat ::
              Run(r, es) && t in r[|es|].threads && r[|es|].threads[t].phase.Reading?
              && r[|es|].threads[t].phase.pin.fd !in r[|es|].open
  {
    hide Enabled, Apply;
    var s := SixthCloses();
    var r: seq<State>, es: seq<Event> :| Run(r, es) && r[|es|] == s;
    assert 5 in r[|es|].threads && r[|es|].threads[5].phase.Reading? && r[|es|].threads[5].phase.pin.fd !in r[|es|].open;
  }
}
