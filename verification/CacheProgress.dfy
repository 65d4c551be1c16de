/** No state of any run is a deadlock: whatever a thread waits for, someone it waits for can move. */
module CacheProgress {
  import opened Basics
  import opened CacheModel
  import opened CacheInvariant
  import opened CacheSystem
  import opened SystemInvariant
  import opened SystemSteps
  import opened CacheRuns

  /** The next statement of a running call, not the start of a new one. */
  predicate Continues(e: Event) {
    !IsFileEvent(e) && !e.StartRead? && !e.StartConnect?
  }

  ghost predicate CanStep(s: State, t: nat) {
    exists e :: Continues(e) && e.t == t && Enabled(s, e)
  }

  /** The inode lock the thread's next statement blocks on, if it is one that blocks on an inode lock. */
  function WantedLock(th: Thread): Option<nat> {
    if th.stale != [] then if th.closing.LookedUp? then Some(th.closing.lock) else None
    else if th.phase.Acquire? then Some(th.phase.pin.lock) else None
  }

  /** Whom the thread waits for: the owner of the inode lock it wants, otherwise whoever has the map lock. */
  function WaitsFor(s: State, t: nat): Option<nat>
    requires t in s.threads
  {
    var want := WantedLock(s.threads[t]);
    if want.Some? then if want.value in s.owner then Some(s.owner[want.value]) else None
    else if s.mapOwner != Some(t) then s.mapOwner else None
  }

  lemma {:induction false} UpperBound(s: set<nat>) returns (b: nat)
    ensures forall x :: x in s ==> x < b
    decreases |s|
  {
    if s == {} {
      b := 0;
    } else {
      var x :| x in s;
      b := UpperBound(s - {x});
      b := if b > x then b else x + 1;
      assert forall y :: y in s ==> y == x || y in s - {x};
    }
  }

  lemma {:induction false} Listing<T(!new)>(s: set<T>) returns (r: seq<T>)
    ensures NoDuplicates(r) && forall x :: x in r <==> x in s
    decreases |s|
  {
    if s == {} {
      r := [];
    } else {
      var x :| x in s;
      r := Listing(s - {x});
      r := r + [x];
    }
  }

  lemma Numbered(s: State)
    requires WorldOk(s.names, s.open, s.conns, s.num)
    ensures NamesNumbered(s)
  {
    forall p | p in s.names ensures s.names[p] in s.num {
      assert s.names[p] in Alive(s.names, s.open, s.conns);
    }
  }

  lemma Steps(s: State, e: Event)
    requires Continues(e) && Enabled(s, e)
    ensures CanStep(s, e.t)
  {
  }

  lemma OpenerSteps(s: State, t: nat)
    requires Inv(s) && s.mapOwner == Some(t)
    ensures t in s.threads && CanStep(s, t)
  {
    hide MapsAgree, Accounted, HoldsCounted, ConnsOk, PinsOk, StalesDistinct, WorldOk, CanStep;
    Numbered(s);
    var fd := UpperBound(s.open.Keys);
    assert ReadEnabled(s, OpenPath(t, fd));
    Steps(s, OpenPath(t, fd));
  }

  lemma ListerSteps(s: State, t: nat)
    requires NamesNumbered(s) && At(s, t) && s.threads[t].phase == Snapshot && MapFree(s)
    ensures CanStep(s, t)
  {
    hide CanStep;
    var todo := Listing(s.c.pathInode.Items);
    assert PlainEnabled(s, ListPaths(t, todo));
    Steps(s, ListPaths(t, todo));
  }

  lemma HolderSteps(s: State, t: nat)
    requires NamesNumbered(s) && At(s, t) && s.threads[t].phase == Hold && MapFree(s)
    ensures CanStep(s, t)
  {
    hide CanStep;
    var h := UpperBound(s.tokens.Keys);
    assert ConnectEnabled(s, TakeHoldNow(t, h));
    Steps(s, TakeHoldNow(t, h));
  }

  lemma CloserSteps(s: State, t: nat)
    requires NamesNumbered(s) && t in s.threads && s.threads[t].stale != [] && MapFree(s)
    requires WantedLock(s.threads[t]).Some? ==> WantedLock(s.threads[t]).value !in s.owner
    ensures CanStep(s, t)
  {
    hide CanStep;
    match s.threads[t].closing
    case NotClosing => Steps(s, CloseLookUp(t));
    case LookedUp(_) => Steps(s, CloseTakeLock(t));
    case Locked(_) => Steps(s, CloseDecide(t));
  }

  lemma ReaderSteps(s: State, t: nat)
    requires NamesNumbered(s) && At(s, t) && MapFree(s)
    requires var phase := s.threads[t].phase;
             phase == Want || phase.Check? || phase.Reading? || (phase.Acquire? && phase.pin.lock !in s.owner)
    ensures CanStep(s, t)
  {
    hide CanStep;
    match s.threads[t].phase
    case Want => Steps(s, StatPath(t));
    case Acquire(_) => Steps(s, TakeLock(t));
    case Check(_) => Steps(s, Revalidate(t));
    case Reading(_) => Steps(s, FinishRead(t));
  }

  lemma ReclaimerSteps(s: State, t: nat)
    requires NamesNumbered(s) && At(s, t) && MapFree(s)
    requires var phase := s.threads[t].phase;
             phase == Snapshot || phase.Probe? || phase.Forget? || phase == Phase.Evict || phase == Refused
    ensures CanStep(s, t)
  {
    hide CanStep, Lists;
    match s.threads[t].phase
    case Snapshot => ListerSteps(s, t);
    case Probe(_, _) => Steps(s, ProbeNext(t));
    case Forget(_) => Steps(s, ForgetPaths(t));
    case Evict => Steps(s, EvictNow(t, map[]));
    case Refused => Steps(s, GiveUp(t));
  }

  lemma ConnectorSteps(s: State, t: nat)
    requires NamesNumbered(s) && At(s, t) && MapFree(s) && ConnsOk(s.threads, s.conns, s.tokens, Ids(s.c.pending))
    requires s.threads[t].phase == Hold || Connecting(s.threads[t].phase)
    ensures CanStep(s, t)
  {
    hide CanStep;
    assert ConnectingOk(s.threads[t], s.conns, s.tokens, Ids(s.c.pending));
    match s.threads[t].phase
    case Hold => HolderSteps(s, t);
    case Connect(_, _) => Steps(s, ConnectFails(t));
    case Look(_, _) => Steps(s, LookAgain(t));
    case Count(_, _, _) => Steps(s, CountAfter(t));
  }

  /** With the map lock free, a thread whose wanted inode lock is free can move. */
  lemma FreeSteps(s: State, t: nat)
    requires Inv(s) && t in s.threads && s.threads[t].phase != Idle && MapFree(s)
    requires WantedLock(s.threads[t]).Some? ==> WantedLock(s.threads[t]).value !in s.owner
    ensures CanStep(s, t)
  {
    hide MapsAgree, Accounted, HoldsCounted, ConnsOk, PinsOk, StalesDistinct, WorldOk, CanStep;
    Numbered(s);
    if s.threads[t].stale != [] {
      CloserSteps(s, t);
    } else {
      assert s.threads[t].phase != Opening;
      match s.threads[t].phase {
        case Hold | Connect(_, _) | Look(_, _) | Count(_, _, _) => ConnectorSteps(s, t);
        case Want | Acquire(_) | Check(_) | Reading(_) => ReaderSteps(s, t);
        case _ => ReclaimerSteps(s, t);
      }
    }
  }

  /** A thread waiting for an inode lock has no inode lock and not the map lock. */
  lemma NoHoldAndWait(s: State, t: nat)
    requires Inv(s) && t in s.threads && WantedLock(s.threads[t]).Some?
    ensures s.mapOwner != Some(t) && forall l :: l in s.owner ==> s.owner[l] != t
  {
    hide MapsAgree, Accounted, HoldsCounted, ConnsOk, PinsOk, StalesDistinct, WorldOk;
  }

  lemma OwnerWantsNone(s: State, l: nat)
    requires Inv(s) && l in s.owner
    ensures s.owner[l] in s.threads && s.threads[s.owner[l]].phase != Idle && WantedLock(s.threads[s.owner[l]]) == None
  {
    hide MapsAgree, Accounted, HoldsCounted, ConnsOk, PinsOk, StalesDistinct, WorldOk;
  }

  /** A running thread can move, or waits for one that can, or waits for a lock owner that waits for one that can. */
  ghost predicate NotStuck(s: State, t: nat)
    requires t in s.threads
  {
    || CanStep(s, t)
    || (WaitsFor(s, t).Some? && CanStep(s, WaitsFor(s, t).value))
    || (WaitsFor(s, t).Some? && WaitsFor(s, t).value in s.threads
        && WaitsFor(s, WaitsFor(s, t).value).Some?
        && CanStep(s, WaitsFor(s, WaitsFor(s, t).value).value))
  }

  lemma Unstuck(s: State, t: nat)
    requires Inv(s) && t in s.threads && s.threads[t].phase != Idle
    ensures NotStuck(s, t)
  {
    hide Inv, CanStep;
    if s.mapOwner.Some? {
      OpenerSteps(s, s.mapOwner.value);
    }
    var want := WantedLock(s.threads[t]);
    if want.Some? && want.value in s.owner {
      OwnerWantsNone(s, want.value);
      if MapFree(s) {
        FreeSteps(s, s.owner[want.value]);
      }
    } else if MapFree(s) {
      FreeSteps(s, t);
    } else if want.Some? {
      LockSteps(s, t);
    }
  }

  /** Taking a free inode lock needs no map lock. */
  lemma LockSteps(s: State, t: nat)
    requires Inv(s) && t in s.threads && WantedLock(s.threads[t]).Some? && WantedLock(s.threads[t]).value !in s.owner
    ensures CanStep(s, t)
  {
    hide MapsAgree, Accounted, HoldsCounted, ConnsOk, LocksOk, PinsOk, StalesDistinct, WorldOk, CanStep;
    Numbered(s);
    if s.threads[t].stale != [] {
      Steps(s, CloseTakeLock(t));
    } else {
      Steps(s, TakeLock(t));
    }
  }

  lemma DeadlockFree(r: seq<State>, es: seq<Event>, n: nat, t: nat)
    requires Run(r, es) && n < |r| && t in r[n].threads && r[n].threads[t].phase != Idle
    ensures NotStuck(r[n], t)
  {
    hide Inv, Run, NotStuck;
    RunKeeps(r, es, n);
    Unstuck(r[n], t);
  }
}
