/** Every state of every run keeps the invariant. */
module CacheRuns {
  import opened Basics
  import opened CacheModel
  import opened CacheInvariant
  import opened CacheSystem
  import opened SystemInvariant
  import opened SystemSteps
  import opened ThreadSteps
  import opened HoldSteps

  lemma NameAgain(names: map<Path, nat>, source: Path, target: Path)
    requires source in names
    ensures forall p :: p in names ==> names[p] in names.Values
    ensures var after := names[target := names[source]];
            forall p :: p in after ==> after[p] in names.Values
  {
  }

  lemma FileStepKeeps(s: State, e: Event)
    requires Inv(s) && FileEnabled(s, e) && IsFileEvent(e)
    ensures Inv(ApplyFile(s, e))
  {
    hide MapsAgree, Accounted, HoldsCounted, WorldOk, ConnsOk, LocksOk, PinsOk, StalesDistinct, Alive;
    match e
    case Create(p, i, k) => CreateKeeps(s, p, i, k);
    case Move(p, q) =>
      NameAgain(s.names, p, q);
      RenameKeeps(s, s.names[q := s.names[p]] - {p});
    case Link(p, q) =>
      NameAgain(s.names, p, q);
      RenameKeeps(s, s.names[q := s.names[p]]);
    case Unlink(p) =>
      NameAgain(s.names, p, p);
      RenameKeeps(s, s.names - {p});
    case Destroy(h) => DestroyKeeps(s, h);
  }

  lemma StartKeeps(s: State, t: nat, path: Path, phase: Phase)
    requires Inv(s) && (t !in s.threads || s.threads[t].phase == Idle) && (phase == Want || phase == Hold)
    ensures Inv(SetThread(s, t, Thread(path, phase, false, 0, [], NotClosing)))
  {
    hide MapsAgree, Accounted, HoldsCounted, WorldOk, ConnsOk, LocksOk, PinsOk, StalesDistinct;
    if t in s.threads {
      ThreadFacts(s, t);
    } else {
      Unborn(s, t);
    }
    MoveOn(s, t, Thread(path, phase, false, 0, [], NotClosing));
  }

  lemma ProceedKeeps(s: State, t: nat, phase: Phase)
    requires Inv(s) && At(s, t) && (phase.Probe? || phase.Forget? || phase.Idle?)
    requires var now := s.threads[t].phase; now == Snapshot || now.Probe? || now == Refused
    ensures Inv(SetPhase(s, t, phase))
  {
    hide MapsAgree, Accounted, HoldsCounted, WorldOk, ConnsOk, LocksOk, PinsOk, StalesDistinct;
    ThreadFacts(s, t);
    MoveOn(s, t, s.threads[t].(phase := phase));
  }

  lemma PlainStepKeeps(s: State, e: Event)
    requires Inv(s) && PlainEnabled(s, e) && IsPlainStep(e)
    ensures Inv(ApplyPlain(s, e))
  {
    hide Inv;
    match e
    case StartRead(t, p) => StartKeeps(s, t, p, Want);
    case StartConnect(t, p) => StartKeeps(s, t, p, Hold);
    case ListPaths(t, todo) => ProceedKeeps(s, t, Probe(todo, []));
    case ProbeNext(t) => ProceedKeeps(s, t, DoProbe(s, t).threads[t].phase);
    case GiveUp(t) => ProceedKeeps(s, t, Idle);
  }

  /** A thread that does not exist holds nothing. */
  lemma Unborn(s: State, t: nat)
    requires Inv(s) && t !in s.threads
    ensures s.mapOwner != Some(t) && forall l :: l in s.owner ==> s.owner[l] != t
  {
  }

  lemma ReadStepKeeps(s: State, e: Event)
    requires Inv(s) && NamesNumbered(s) && ReadEnabled(s, e) && IsReadStep(e)
    ensures Inv(ApplyRead(s, e))
  {
    hide MapsAgree, Accounted, HoldsCounted, WorldOk, ConnsOk, LocksOk, PinsOk, StalesDistinct, DoStat, DoOpen, DoRevalidate;
    match e
    case StatPath(t) => StatKeeps(s, t);
    case OpenPath(t, fd) => OpenKeeps(s, t, fd);
    case TakeLock(t) => TakeLockKeeps(s, t);
    case Revalidate(t) => RevalidateKeeps(s, t);
    case FinishRead(t) => DropLockKeeps(s, t, Idle);
  }

  lemma CloseStepKeeps(s: State, e: Event)
    requires Inv(s) && CloseEnabled(s, e) && IsCloseStep(e)
    ensures Inv(ApplyClose(s, e))
  {
    hide MapsAgree, Accounted, HoldsCounted, WorldOk, ConnsOk, LocksOk, PinsOk, StalesDistinct, DoCloseDecide, DoForget,
      DoEvict;
    match e
    case CloseLookUp(t) => CloseLookUpKeeps(s, t);
    case CloseTakeLock(t) => CloseTakeLockKeeps(s, t);
    case CloseDecide(t) => CloseDecideKeeps(s, t);
    case ForgetPaths(t) => ForgetKeeps(s, t);
    case EvictNow(t, named) => EvictKeeps(s, t, named);
  }

  lemma ConnectStepKeeps(s: State, e: Event)
    requires Inv(s) && NamesNumbered(s) && ConnectEnabled(s, e)
    requires IsConnectStep(e)
    ensures Inv(ApplyConnect(s, e))
  {
    hide MapsAgree, Accounted, HoldsCounted, WorldOk, ConnsOk, LocksOk, PinsOk, StalesDistinct, DoTakeHold, DoCount;
    match e
    case TakeHoldNow(t, h) => TakeHoldKeeps(s, t, h);
    case ConnectOk(t) => ConnectOkKeeps(s, t);
    case ConnectFails(t) => ConnectFailsKeeps(s, t);
    case LookAgain(t) => LookAgainKeeps(s, t);
    case CountAfter(t) => CountKeeps(s, t);
  }

  lemma StepKeeps(s: State, e: Event)
    requires Inv(s) && Enabled(s, e)
    ensures Inv(Apply(s, e))
  {
    hide Inv, FileEnabled, PlainEnabled, ReadEnabled, CloseEnabled, ConnectEnabled,
      ApplyFile, ApplyPlain, ApplyRead, ApplyClose, ApplyConnect;
    if IsFileEvent(e) {
      FileStepKeeps(s, e);
    } else if IsPlainStep(e) {
      PlainStepKeeps(s, e);
    } else if IsReadStep(e) {
      ReadStepKeeps(s, e);
    } else if IsCloseStep(e) {
      CloseStepKeeps(s, e);
    } else {
      ConnectStepKeeps(s, e);
    }
  }

  lemma {:induction false} RunKeeps(r: seq<State>, es: seq<Event>, n: nat)
    requires Run(r, es) && n < |r|
    ensures Inv(r[n])
  {
    hide Inv, Enabled, Apply;
    if n == 0 {
      InitialInv();
    } else {
      RunKeeps(r, es, n - 1);
      StepKeeps(r[n - 1], es[n - 1]);
    }
  }

  /** In every state of every run the cache's maps agree: a path names an inode exactly when the inode lists the
      path, a listed inode has a path and a pinned descriptor, and the read order has exactly the pinned inodes. */
  lemma MapsStayConsistent(r: seq<State>, es: seq<Event>, n: nat)
    requires Run(r, es) && n < |r|
    ensures var c := r[n].c;
            && (forall p, k :: p in c.pathInode && c.pathInode[p] == k <==> k in c.inodePaths && p in c.inodePaths[k])
            && (forall k :: k in c.inodePaths ==> c.inodePaths[k] != {} && k in c.fds)
            && NoDuplicates(c.useOrder) && (forall k :: k in c.useOrder <==> k in c.fds)
  {
    hide Run, Accounted, HoldsCounted, WorldOk, ConnsOk, LocksOk, PinsOk, StalesDistinct;
    RunKeeps(r, es, n);
  }
}
