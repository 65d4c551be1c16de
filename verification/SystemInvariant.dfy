/** What every event keeps true of the whole system. */
module SystemInvariant {
  import opened Basics
  import opened CacheModel
  import opened CacheInvariant
  import opened CacheSystem

  // ---- Retired descriptors in flight -------------------------------------------------

  ghost function Flight(threads: map<nat, Thread>): set<Stale> {
    set t, x | t in threads && x in threads[t].stale :: x
  }

  /** No descriptor is owed a close by two threads, or twice by one. */
  ghost predicate StalesDistinct(threads: map<nat, Thread>) {
    && (forall t :: t in threads ==> NoDuplicates(threads[t].stale))
    && (forall t, u, x :: t in threads && u in threads && x in threads[t].stale && x in threads[u].stale ==> t == u)
  }

  function Owed(threads: map<nat, Thread>, t: nat): set<Stale> {
    if t in threads then Members(threads[t].stale) else {}
  }

  lemma FlightUpdate(threads: map<nat, Thread>, t: nat, th: Thread)
    requires StalesDistinct(threads) && NoDuplicates(th.stale)
    requires Members(th.stale) !! (Flight(threads) - Owed(threads, t))
    ensures Flight(threads[t := th]) == Flight(threads) - Owed(threads, t) + Members(th.stale)
    ensures StalesDistinct(threads[t := th])
  {
    var after := threads[t := th];
    forall x | x in Flight(after) ensures x in Flight(threads) - Owed(threads, t) + Members(th.stale) {
      var u :| u in after && x in after[u].stale;
      if u != t {
        assert x in Flight(threads);
      }
    }
    forall x | x in Flight(threads) - Owed(threads, t) + Members(th.stale) ensures x in Flight(after) {
      if x in th.stale {
        assert x in after[t].stale;
      } else {
        var u :| u in threads && x in threads[u].stale;
        assert u != t;
        assert x in after[u].stale;
      }
    }
    forall u, x | u in threads && u != t && x in threads[u].stale ensures x !in th.stale {
      assert x in Flight(threads) && x !in Owed(threads, t);
      assert x !in Members(th.stale);
    }
  }

  /** A thread that owes the same closes as before changes nothing in flight. */
  lemma FlightSame(threads: map<nat, Thread>, t: nat, th: Thread)
    requires StalesDistinct(threads)
    requires th.stale == if t in threads then threads[t].stale else []
    ensures Flight(threads[t := th]) == Flight(threads) && StalesDistinct(threads[t := th])
  {
    FlightUpdate(threads, t, th);
    assert Members(th.stale) == Owed(threads, t);
    forall x | x in Owed(threads, t) ensures x in Flight(threads) { }
  }

  // ---- Files and connections ---------------------------------------------------------

  ghost function Alive(names: map<Path, nat>, open: map<nat, nat>, conns: map<nat, Connection>): set<nat> {
    names.Values + open.Values + set h | h in conns :: conns[h].inst
  }

  /** An inode number names one live instance. */
  ghost predicate NumbersUnique(alive: set<nat>, num: map<nat, Key>) {
    && (forall i :: i in alive ==> i in num)
    && (forall i, j :: i in alive && j in alive && num[i] == num[j] ==> i == j)
  }

  ghost predicate WorldOk(names: map<Path, nat>, open: map<nat, nat>, conns: map<nat, Connection>, num: map<nat, Key>) {
    && NumbersUnique(Alive(names, open, conns), num)
    && (forall i :: i in num ==> num[i] != NO_INODE)
  }

  // ---- Holds of connections ----------------------------------------------------------

  predicate Connecting(phase: Phase) {
    phase.Connect? || phase.Look? || phase.Count?
  }

  ghost predicate ConnectingOk(th: Thread, conns: map<nat, Connection>, tokens: map<nat, Release>, queued: set<nat>) {
    Connecting(th.phase) ==>
      var h := th.phase.hold;
      && h in tokens && h !in queued
      && tokens[h] == Release(h, th.path, HoldsOf(th.phase.before), false)
      && (th.phase.Connect? ==> h !in conns)
      && (!th.phase.Connect? ==> h in conns && !conns[h].returned)
  }

  /** Every hold belongs to one connection, to one thread still connecting, or to the release queue. */
  ghost predicate ConnsOk(threads: map<nat, Thread>, conns: map<nat, Connection>, tokens: map<nat, Release>,
                          queued: set<nat>) {
    && (forall h :: h in conns ==> h in tokens && h !in queued)
    && (forall t :: t in threads ==> ConnectingOk(threads[t], conns, tokens, queued))
    && (forall t, u | t in threads && u in threads && Connecting(threads[t].phase) && Connecting(threads[u].phase) ::
          threads[t].phase.hold == threads[u].phase.hold ==> t == u)
  }

  // ---- Locks -------------------------------------------------------------------------

  predicate Owns(th: Thread, lock: nat) {
    || th.closing == Locked(lock)
    || ((th.phase.Check? || th.phase.Reading?) && th.phase.pin.lock == lock)
  }

  /** A thread owes closes only between resolving and locking, and asks for at most one inode lock at a time. */
  ghost predicate ThreadOk(th: Thread, nextLock: nat) {
    && (th.stale == [] ==> th.closing == NotClosing)
    && (th.stale != [] ==> th.phase.Acquire? || th.phase == Want || th.phase == Phase.Evict)
    && (th.closing != NotClosing ==> th.closing.lock < nextLock)
    && (th.phase.Acquire? || th.phase.Check? || th.phase.Reading? ==> th.phase.pin.lock < nextLock)
  }

  ghost predicate LocksOk(threads: map<nat, Thread>, owner: map<nat, nat>, mapOwner: Option<nat>, nextLock: nat) {
    && (forall t :: t in threads ==> ThreadOk(threads[t], nextLock))
    && (forall l :: l in owner ==> owner[l] in threads && Owns(threads[owner[l]], l))
    && (forall t, l :: t in threads && Owns(threads[t], l) ==> l in owner && owner[l] == t)
    && (forall t :: t in threads && threads[t].phase == Opening ==> mapOwner == Some(t))
    && (mapOwner.Some? ==> mapOwner.value in threads && threads[mapOwner.value].phase == Opening)
  }

  // ---- Pins --------------------------------------------------------------------------

  predicate HasPin(phase: Phase) {
    phase.Acquire? || phase.Check? || phase.Reading?
  }

  /** While the lock a reader resolved is still its inode's lock, its descriptor is open on the instance it resolved. */
  ghost predicate PinOk(pin: Pin, locks: map<Key, nat>, open: map<nat, nat>, num: map<nat, Key>) {
    pin.key in locks && locks[pin.key] == pin.lock ==>
      pin.fd in open && open[pin.fd] == pin.inst && pin.inst in num && num[pin.inst] == pin.key
  }

  ghost predicate PinsOk(threads: map<nat, Thread>, locks: map<Key, nat>, open: map<nat, nat>, num: map<nat, Key>) {
    forall t :: t in threads && HasPin(threads[t].phase) ==> PinOk(threads[t].phase.pin, locks, open, num)
  }

  ghost predicate Inv(s: State) {
    && MapsAgree(s.c)
    && StalesDistinct(s.threads)
    && Accounted(s.c.fds, s.c.raceLosers, s.open, s.num, Flight(s.threads))
    && WorldOk(s.names, s.open, s.conns, s.num)
    && HoldsCounted(s.c, s.tokens)
    && ConnsOk(s.threads, s.conns, s.tokens, Ids(s.c.pending))
    && LocksOk(s.threads, s.owner, s.mapOwner, s.c.nextLock)
    && PinsOk(s.threads, s.c.inodeLocks, s.open, s.num)
  }

  lemma InitialInv()
    ensures Inv(INITIAL)
  {
    assert Holding(map[], NO_INODE) == {};
    assert forall k :: Holding(map[], k) == {};
    assert Doubtful(map[]) == {};
    assert Flight(INITIAL.threads) == {};
  }
}
