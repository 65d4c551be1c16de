/**
 A run in which a close hits the inode a returned connection has open.  The file is replaced after the
 first stat of the call and put back before the second, so the hold counts only the inode both stats saw.
 */
module SwappedBack {
  import opened Basics
  import opened CacheModel
  import opened CacheSystem
  import opened CacheInvariant
  import opened RetiredTwice
  import CacheSafety

  const CALLER := 3
  const HOLD := 0
  const HELD := SN

  const REPLACED: map<Path, nat> := map[P := 2, S := 1, RN := 2, SN := 1]
  const PUT_BACK: map<Path, nat> := map[P := 2, S := 1, SN := 2]

  const COUNTED := CACHE_1.(holds := map[HELD := 1], heldInodes := map[NEW := 1])
  const TOKEN := Release(HOLD, HELD, [NEW], false)

  function Caller(phase: Phase): Thread {
    Thread(HELD, phase, false, 0, [], NotClosing)
  }

  /** Thread 2 has lock 0 looked up for closing the old file's descriptor; the caller is in `phase`. */
  ghost predicate Scene2(s: State, c: Cache, names: map<Path, nat>, conns: map<nat, Connection>, tokens: map<nat, Release>, phase: Phase) {
    && Reached(s)
    && s.c == c && s.names == names && s.num == map[1 := OLD, 2 := NEW] && s.open == map[0 := 1, 1 := 2] && s.owner == map[]
    && s.tokens == tokens && s.conns == conns && MapFree(s) && s.threads.Keys == {1, 2, 3}
    && Owing(s.threads[2]) && s.threads[CALLER] == Caller(phase)
  }

  predicate Owing(th: Thread) {
    th.stale == [Stale(OLD, 0)] && th.closing == LookedUp(0)
  }

  lemma NamesReplaced()
    ensures forall p :: p in NAMES_P ==> NAMES_P[p] == 1 || NAMES_P[p] == 2
    ensures R in NAMES_P && R != SN && R !in REPLACED && NAMES_P[SN := NAMES_P[R]] == REPLACED[R := NAMES_P[R]]
  {
  }

  lemma NamesPutBack()
    ensures forall p :: p in REPLACED ==> REPLACED[p] == 1 || REPLACED[p] == 2
    ensures RN in REPLACED && RN != SN && RN !in PUT_BACK && REPLACED[SN := REPLACED[RN]] == PUT_BACK[RN := REPLACED[RN]]
  {
  }

  lemma CallStarts() returns (s: State)
    ensures Scene2(s, CACHE_1, NAMES_P, map[], map[], Hold)
  {
    hide Reached;
    var before := SecondLooksUp();
    s := SetThread(before, CALLER, Caller(Hold));
    StepReached(before, StartConnect(CALLER, HELD), s);
  }

  lemma HoldCounted()
    ensures TakeHold(CACHE_1, HELD, Some(NEW)) == COUNTED && CACHE_1.pending == []
  {
    assert Drain(CACHE_1) == CACHE_1;
  }

  /** A thread counts its hold, the queue of releases being empty. */
  lemma TakesHold(s: State, t: nat, h: nat, before: Option<Key>, c: Cache)
    requires Reached(s) && NamesNumbered(s) && At(s, t) && s.threads[t].phase == Hold && MapFree(s) && h !in s.tokens
    requires s.c.pending == [] && before == NamedKey(s, s.threads[t].path) && c == TakeHold(s.c, s.threads[t].path, before)
    ensures Reached(s.(c := c, tokens := s.tokens[h := Release(h, s.threads[t].path, HoldsOf(before), false)],
                       threads := InPhase(s, t, Connect(h, before))))
  {
    hide Reached, TakeHold;
    assert Ids([]) == {} && s.tokens - {} == s.tokens;
    StepReached(s, TakeHoldNow(t, h), DoTakeHold(s, t, h));
  }

  lemma HoldTaken() returns (s: State)
    ensures Scene2(s, COUNTED, NAMES_P, map[], map[HOLD := TOKEN], Connect(HOLD, Some(NEW)))
  {
    hide Reached, TakeHold;
    var before := CallStarts();
    HoldCounted();
    TakesHold(before, CALLER, HOLD, Some(NEW), COUNTED);
    s := before.(c := COUNTED, tokens := map[HOLD := TOKEN], threads := InPhase(before, CALLER, Connect(HOLD, Some(NEW))));
  }

  lemma FileReplaced() returns (s: State)
    ensures Scene2(s, COUNTED, REPLACED, map[], map[HOLD := TOKEN], Connect(HOLD, Some(NEW)))
  {
    hide Reached, Owing, Caller, NAMES_P, REPLACED;
    var before := HoldTaken();
    NamesReplaced();
    Moves(before, R, SN, REPLACED);
    s := before.(names := REPLACED);
  }

  lemma OldFileOpened() returns (s: State)
    ensures Scene2(s, COUNTED, REPLACED, map[HOLD := Connection(1, false)], map[HOLD := TOKEN], Look(HOLD, Some(NEW)))
  {
    hide Reached;
    var before := FileReplaced();
    s := SetPhase(before.(conns := map[HOLD := Connection(1, false)]), CALLER, Look(HOLD, Some(NEW)));
    StepReached(before, ConnectOk(CALLER), s);
  }

  lemma FilePutBack() returns (s: State)
    ensures Scene2(s, COUNTED, PUT_BACK, map[HOLD := Connection(1, false)], map[HOLD := TOKEN], Look(HOLD, Some(NEW)))
  {
    hide Reached, Owing, Caller, REPLACED, PUT_BACK;
    var before := OldFileOpened();
    NamesPutBack();
    Moves(before, RN, SN, PUT_BACK);
    s := before.(names := PUT_BACK);
  }

  lemma StatsAgree() returns (s: State)
    ensures Scene2(s, COUNTED, PUT_BACK, map[HOLD := Connection(1, false)], map[HOLD := TOKEN], Count(HOLD, Some(NEW), Some(NEW)))
  {
    hide Reached;
    var before := FilePutBack();
    s := SetPhase(before, CALLER, Count(HOLD, Some(NEW), Some(NEW)));
    StepReached(before, LookAgain(CALLER), s);
  }

  lemma ConnectionReturned() returns (s: State)
    ensures Scene2(s, COUNTED, PUT_BACK, map[HOLD := Connection(1, true)], map[HOLD := TOKEN], Idle)
  {
    hide Reached;
    var before := StatsAgree();
    s := DoCount(before, CALLER);
    assert HoldInodes(Some(NEW), Some(NEW)) == [NEW];
    StepReached(before, CountAfter(CALLER), s);
  }

  /** Some run reaches a state with a returned connection, not yet destroyed, and an enabled close of a descriptor on
      the inode it has open. */
  lemma CloseCanHitConnection() returns (s: State, e: Event)
    ensures Reached(s) && Enabled(s, e) && HOLD in s.conns && s.conns[HOLD].returned && HOLD in s.tokens && s.c.pending == []
    ensures CacheSafety.Closes(s, e).Some?
    ensures var fd := CacheSafety.Closes(s, e).value.fd; fd in s.open && s.open[fd] == s.conns[HOLD].inst
  {
    hide Reached;
    var before := ConnectionReturned();
    TakesLock(before, 2);
    s, e := TakingLock(before, 2), CloseDecide(2);
  }
}
