/**
 Deploying one generation over a target directory, step by step.  Any step may raise, before or
 after its effect, and any state in between may be the one a crash leaves: `history` records them all.
 */
module Deployment {
  import opened Basics
  import opened DeploymentModel

  datatype Outcome =
    | Rejected      // the request was refused before anything was written
    | NotStarted    // the snapshot or the empty staging directory could not be made
    | Deployed
    | RolledBack    // something raised, and the snapshot was restored
    | Unrestored    // something raised, and so did the restore

  /** `later` adds states to `earlier`, each of them equal to `fs` except at `spot`. */
  ghost predicate Touched(earlier: seq<Files>, later: seq<Files>, fs: Files, spot: Rel) {
    && earlier <= later
    && (forall i :: |earlier| <= i < |later| ==> SameExcept(fs, later[i], spot))
  }

  /** `later` adds states to `earlier`, each of them equal to `fs` outside `dir`. */
  ghost predicate Confined(earlier: seq<Files>, later: seq<Files>, fs: Files, dir: Rel) {
    && earlier <= later
    && (forall i :: |earlier| <= i < |later| ==> SameOutside(fs, later[i], dir))
  }

  /** The snapshot in `backup` describes and holds the files of `fs` at `paths`. */
  ghost predicate HoldsBackup(fs: Files, paths: set<Rel>, backup: Rel, now: Files) {
    && At(now, backup + META) == Some(Json(Backup(Presence(fs, paths))))
    && (forall p :: p in paths && p in fs && p != META ==> At(now, backup + p) == Some(fs[p]))
  }

  /** The staging directory holds every file of `wanted` at `paths`. */
  ghost predicate Staged(wanted: Files, paths: seq<Rel>, stage: Rel, now: Files) {
    forall p :: p in paths ==> p in wanted && At(now, stage + p) == Some(wanted[p])
  }

  /** Promotion over `start` in progress: managed paths are as they were or as wanted, the receipt is
      last, and nothing else has changed outside the staging directory. */
  ghost predicate Promoting(start: Files, wanted: Files, stage: Rel, now: Files) {
    && (forall p :: p in wanted ==> At(now, p) == At(start, p) || At(now, p) == Some(wanted[p]))
    && (forall p :: p !in wanted && !Under(p, stage) ==> At(now, p) == At(start, p))
    && ReceiptLast(start, wanted, now)
  }

  /** The first `i` paths of `order` are promoted, the others not yet. */
  ghost predicate PromotedTo(start: Files, wanted: Files, order: seq<Rel>, i: nat, now: Files) {
    && (forall j :: 0 <= j < |order| && j < i ==> order[j] in wanted && At(now, order[j]) == Some(wanted[order[j]]))
    && (forall j :: i <= j < |order| ==> At(now, order[j]) == At(start, order[j]))
  }

  /** Managed paths are where callers may put them, and no restore's temporary file is one of them. */
  ghost predicate Placed(wanted: Files, temps: seq<Rel>) {
    && RECEIPT in wanted && (forall p :: p in wanted ==> !Own(p))
    && (forall t :: t in temps ==> t !in wanted && !Own(t))
  }

  /** A restore of `before` in progress: its snapshot is intact. */
  ghost predicate Restoring(before: Files, wanted: Files, temps: seq<Rel>, backup: Rel, now: Files) {
    Interrupted(before, wanted, Elements(temps), now) && HoldsBackup(before, wanted.Keys, backup, now)
  }

  ghost predicate RestoredTo(before: Files, wanted: Files, order: seq<Rel>, i: nat, now: Files) {
    forall j :: 0 <= j < |order| && j < i ==> At(now, order[j]) == PutBack(before, wanted.Keys, order[j])
  }

  ghost predicate AllInterrupted(states: seq<Files>, from: nat, before: Files, wanted: Files, temps: seq<Rel>) {
    forall i :: from <= i < |states| ==> Interrupted(before, wanted, Elements(temps), states[i])
  }

  ghost predicate AllReceiptLast(states: seq<Files>, from: nat, before: Files, wanted: Files) {
    forall i :: from <= i < |states| ==> ReceiptLast(before, wanted, states[i])
  }

  /** Every managed path is what the snapshot puts back, and nothing else differs but the deployer's own files. */
  ghost predicate Restored(before: Files, managed: set<Rel>, now: Files) {
    forall p :: !Own(p) ==> At(now, p) == if p in managed then PutBack(before, managed, p) else At(before, p)
  }

  /** Every managed path has its wanted bytes, and nothing else differs but the deployer's own files. */
  ghost predicate Installed(before: Files, wanted: Files, now: Files) {
    forall p :: !Own(p) ==> At(now, p) == if p in wanted then Some(wanted[p]) else At(before, p)
  }

  /** Paths that are not managed, and not the deployer's own, have not changed. */
  ghost predicate Elsewhere(before: Files, wanted: Files, now: Files) {
    forall p :: p !in wanted && !Own(p) ==> At(now, p) == At(before, p)
  }

  class Target {
    var files: Files
    ghost var history: seq<Files>
    ghost var raised: bool              // some file operation has raised

    constructor (initial: Files)
      ensures files == initial && history == [] && !raised
    {
      files, history, raised := initial, [], false;
    }

    /** Truncates, writes and flushes; interrupted, it leaves anything in the file. */
    method WriteDurable(path: Rel, content: Content) returns (ok: bool)
      modifies this
      ensures Touched(old(history), history, old(files), path) && SameExcept(old(files), files, path)
      ensures ok ==> files == old(files)[path := content]
      ensures raised == (old(raised) || !ok)
    {
      var torn: Content := *;
      files := files[path := torn];
      history := history + [files];
      var finished: bool := *;
      if !finished {
        raised := true;
        return false;
      }
      files := files[path := content];
      history := history + [files];
      ok := *;
      raised := raised || !ok;
    }

    /** The rename is atomic; the directory flush after it may still raise. */
    method ReplaceDurable(source: Rel, path: Rel) returns (ok: bool)
      requires source != path
      modifies this
      ensures history == old(history) + [files]
      ensures files == old(files) || (source in old(files) && files == old(files)[path := old(files)[source]] - {source})
      ensures ok ==> source in old(files) && files == old(files)[path := old(files)[source]] - {source}
      ensures raised == (old(raised) || !ok)
    {
      var happens: bool := *;
      ok := *;
      if happens && source in files {
        files := files[path := files[source]] - {source};
      } else {
        ok := false;
      }
      history, raised := history + [files], raised || !ok;
    }

    method Unlink(path: Rel) returns (ok: bool)
      modifies this
      ensures history == old(history) + [files]
      ensures files == old(files) || files == old(files) - {path}
      ensures ok ==> files == old(files) - {path}
      ensures raised == (old(raised) || !ok)
    {
      var happens: bool := *;
      ok := *;
      if happens {
        files := files - {path};
      } else {
        ok := false;
      }
      history, raised := history + [files], raised || !ok;
    }

    /** Removes what is under `dir`, all of it unless it raises. */
    method RemoveTree(dir: Rel) returns (ok: bool)
      modifies this
      ensures Confined(old(history), history, old(files), dir) && SameOutside(old(files), files, dir)
      ensures ok ==> forall p :: Under(p, dir) ==> p !in files
      ensures raised == (old(raised) || !ok)
    {
      var left: set<Rel> := *;
      ok := *;
      files := map p | p in files && (!Under(p, dir) || (!ok && p in left)) :: files[p];
      history, raised := history + [files], raised || !ok;
    }

    method Snapshot(paths: seq<Rel>, backup: Rel) returns (ok: bool)
      requires Under(backup, BACKUPS) && forall p :: p in paths ==> !Under(p, BACKUPS)
      modifies this
      ensures old(raised) ==> raised
      ensures Confined(old(history), history, old(files), backup) && SameOutside(old(files), files, backup)
      ensures ok ==> HoldsBackup(old(files), Elements(paths), backup, files)
      ensures !ok ==> raised || exists p :: p in old(files) && Under(p, backup)
    {
      ghost var before, start := files, history;
      if exists p :: p in files && Under(p, backup) {
        return false;   // the directory must be new
      }
      for i := 0 to |paths|
        invariant old(raised) ==> raised
        invariant Confined(start, history, before, backup) && SameOutside(before, files, backup)
        invariant forall j :: 0 <= j < i && paths[j] in before ==> At(files, backup + paths[j]) == Some(before[paths[j]])
      {
        SourceApart(paths[i], backup);
        assert At(files, paths[i]) == At(before, paths[i]);
        if paths[i] in files {
          Inside(backup, paths[i]);
          ok := WriteDurable(backup + paths[i], files[paths[i]]);
          if !ok {
            return;
          }
          forall j | 0 <= j < i && paths[j] in before
            ensures At(files, backup + paths[j]) == Some(before[paths[j]])
          {
            SameTail(backup, paths[i], paths[j]);
          }
        }
      }
      Inside(backup, META);
      var present := map p | p in paths :: p in files;
      forall p | p in paths ensures p in files <==> p in before {
        SourceApart(p, backup);
        assert At(files, p) == At(before, p);
      }
      assert present == Presence(before, Elements(paths));
      ok := WriteDurable(backup + META, Json(Backup(present)));
      forall p | p in paths && p in before && p != META ensures ok ==> At(files, backup + p) == Some(before[p]) {
        SameTail(backup, META, p);
      }
    }

    method Stage(wanted: Files, paths: seq<Rel>, stage: Rel) returns (ok: bool)
      requires forall p :: p in paths ==> p in wanted
      modifies this
      ensures old(raised) ==> raised
      ensures Confined(old(history), history, old(files), stage) && SameOutside(old(files), files, stage)
      ensures ok ==> Staged(wanted, paths, stage, files)
      ensures !ok ==> raised
    {
      ghost var before, start := files, history;
      for i := 0 to |paths|
        invariant old(raised) ==> raised
        invariant Confined(start, history, before, stage) && SameOutside(before, files, stage)
        invariant Staged(wanted, paths[..i], stage, files)
      {
        Inside(stage, paths[i]);
        ok := WriteDurable(stage + paths[i], wanted[paths[i]]);
        if !ok || Digest(files[stage + paths[i]]) != Digest(wanted[paths[i]]) {
          return false;
        }
        forall p | p in paths[..i + 1] ensures At(files, stage + p) == Some(wanted[p]) {
          SameTail(stage, p, paths[i]);
          assert p in paths[..i] || p == paths[i];
        }
      }
      assert paths[..|paths|] == paths;
      ok := true;
    }

    /** Moves the staged files into place, the receipt after all others.  `failAfter` is the number of
        promotions after which the caller asked for a failure. */
    method Promote(wanted: Files, order: seq<Rel>, stage: Rel, failAfter: Option<nat>) returns (ok: bool)
      requires NoDuplicates(order) && Elements(order) + {RECEIPT} == wanted.Keys && RECEIPT !in order
      requires Staged(wanted, order + [RECEIPT], stage, files)
      requires forall p :: p in wanted ==> !Under(p, stage)
      modifies this
      ensures old(raised) ==> raised
      ensures old(history) <= history
      ensures forall i :: |old(history)| <= i < |history| ==> Promoting(old(files), wanted, stage, history[i])
      ensures Promoting(old(files), wanted, stage, files)
      ensures ok ==> AllThere(wanted, files)
      ensures !ok ==> raised || (failAfter.Some? && failAfter.value <= |order|)
    {
      ghost var before, start := files, history;
      for i := 0 to |order|
        invariant old(raised) ==> raised
        invariant start <= history
        invariant forall j :: |start| <= j < |history| ==> Promoting(before, wanted, stage, history[j])
        invariant Promoting(before, wanted, stage, files)
        invariant PromotedTo(before, wanted, order + [RECEIPT], i, files)
        invariant Staged(wanted, order[i..] + [RECEIPT], stage, files)
      {
        ghost var now := files;
        Inside(stage, order[i]);
        assert order[i] in order[i..] + [RECEIPT];
        ok := ReplaceDurable(stage + order[i], order[i]);
        PromoteOne(before, wanted, order, i, stage, now, files);
        if !ok || (failAfter.Some? && i + 1 >= failAfter.value) {
          return false;
        }
      }
      Inside(stage, RECEIPT);
      ghost var now := files;
      ok := ReplaceDurable(stage + RECEIPT, RECEIPT);
      PromoteLast(before, wanted, order, stage, now, files);
    }

    /** Puts one managed path back: removes it, or writes the saved bytes beside it and renames them over it. */
    method RestoreOne(backup: Rel, p: Rel, present: bool, temp: Rel, ghost before: Files, ghost wanted: Files,
                      ghost temps: seq<Rel>)
        returns (ok: bool)
      requires Under(backup, BACKUPS) && Placed(wanted, temps) && Restoring(before, wanted, temps, backup, files)
      requires p in wanted && present == (p in before) && temp in temps && temp !in files
      modifies this
      ensures old(raised) ==> raised
      ensures old(history) <= history
      ensures forall i :: |old(history)| <= i < |history| ==> Interrupted(before, wanted, Elements(temps), history[i])
      ensures Restoring(before, wanted, temps, backup, files)
      ensures ok ==> SameExcept(old(files), files, p) && At(files, p) == PutBack(before, wanted.Keys, p)
      ensures !ok ==> raised
    {
      hide Interrupted, HoldsBackup, Placed;
      ghost var now := files;
      if !present {
        PutOne(before, wanted, temps, backup, p, now, now - {p});
        ok := Unlink(p);
      } else {
        BackedUp(before, wanted, backup, now, p);
        PutOne(before, wanted, temps, backup, p, now, now[p := now[backup + p]]);
        TempOnly(before, wanted, temps, backup, temp, now);
        TempApart(wanted, temps, temp, p);
        ok := WriteDurable(temp, files[backup + p]);
        assert SameExcept(now, files, temp);
        if ok {
          ghost var written := files;
          ok := ReplaceDurable(temp, p);
          assert files == written || files == now[p := now[backup + p]];
        }
        if !ok {
          ghost var left := files;
          var _ := Unlink(temp);
          assert SameExcept(left, files, temp);
          assert SameExcept(now, files, temp) || files == now[p := now[backup + p]];
        }
      }
    }

    /** Puts every managed path back, the receipt last, from the snapshot on disk. */
    method RestoreSnapshot(backup: Rel, order: seq<Rel>, temps: seq<Rel>, ghost before: Files, ghost wanted: Files)
        returns (ok: bool)
      requires Under(backup, BACKUPS) && Placed(wanted, temps) && |temps| == |order| + 1
      requires NoDuplicates(order) && Elements(order) + {RECEIPT} == wanted.Keys && RECEIPT !in order
      requires Restoring(before, wanted, temps, backup, files) && forall t :: t in temps ==> t !in files
      modifies this
      ensures old(raised) ==> raised
      ensures old(history) <= history
      ensures forall i :: |old(history)| <= i < |history| ==> Interrupted(before, wanted, Elements(temps), history[i])
      ensures Interrupted(before, wanted, Elements(temps), files)
      ensures ok ==> (forall p :: p in wanted ==> At(files, p) == PutBack(before, wanted.Keys, p))
                     && (forall t :: t in temps ==> t !in files)
      ensures !ok ==> raised
    {
      hide Interrupted, PutBack;
      var all := order + [RECEIPT];
      ghost var start := history;
      if backup + META !in files || !files[backup + META].Json? || !files[backup + META].doc.Backup? {
        return false;
      }
      var present := files[backup + META].doc.present;
      assert present == Presence(before, wanted.Keys);
      for i := 0 to |all|
        invariant old(raised) ==> raised
        invariant start <= history
        invariant forall j :: |start| <= j < |history| ==> Interrupted(before, wanted, Elements(temps), history[j])
        invariant Restoring(before, wanted, temps, backup, files)
        invariant RestoredTo(before, wanted, all, i, files)
        invariant forall t :: t in temps ==> t !in files
      {
        Distinct(order, i);
        assert all[i] in wanted && temps[i] in temps;
        ghost var now := files;
        ok := RestoreOne(backup, all[i], present[all[i]], temps[i], before, wanted, temps);
        if !ok {
          return;
        }
        forall t | t in temps ensures t !in files { assert At(files, t) == At(now, t); }
      }
      forall p | p in wanted ensures exists j :: 0 <= j < |all| && all[j] == p {
        assert p in all;
      }
      ok := true;
    }

    /** Takes the lock, saves every managed path, and empties the staging directory. */
    method Prepare(paths: seq<Rel>, backup: Rel, stage: Rel, ghost wanted: Files, ghost temps: seq<Rel>)
        returns (ok: bool)
      requires Placed(wanted, temps) && Elements(paths) == wanted.Keys
      requires Under(backup, BACKUPS) && Under(stage, STAGING)
      modifies this
      ensures old(raised) ==> raised
      ensures old(history) <= history
      ensures AllInterrupted(history, |old(history)|, old(files), wanted, temps)
      ensures AllReceiptLast(history, |old(history)|, old(files), wanted)
      ensures Untouched(old(files), files)
      ensures ok ==> HoldsBackup(old(files), wanted.Keys, backup, files)
      ensures !ok ==> raised || exists p :: p in old(files) && Under(p, backup)
    {
      hide Interrupted, ReceiptLast, HoldsBackup, Own, Placed;
      ghost var before, start := files, history;
      if LOCK !in files {
        files := files[LOCK := Text("")];
        history := history + [files];
        LockOnly(before, files);
        OwnOnly(before, wanted, temps, files);
      }
      ghost var locked, soFar := files, history;
      OwnAreas(wanted, temps);
      ok := Snapshot(paths, backup);
      LockNotUnder(backup);
      assert ok || raised || exists p :: p in before && Under(p, backup) by {
        if p :| p in locked && Under(p, backup) {
          assert p in before;
        }
      }
      ConfinedTo(before, wanted, temps, backup, locked, soFar, history, |start|, files);
      if !ok {
        return;
      }
      LockApart(before, wanted, backup, locked, files);
      ghost var saved, next := files, history;
      ok := RemoveTree(stage);
      ConfinedTo(before, wanted, temps, stage, saved, next, history, |start|, files);
      BackupStays(before, wanted, backup, stage, saved, files);
    }

    /** Stages and promotes; `ok` says that nothing raised. */
    method PutInPlace(wanted: Files, order: seq<Rel>, backup: Rel, stage: Rel, failAfter: Option<nat>,
                      ghost before: Files, ghost temps: seq<Rel>)
        returns (ok: bool)
      requires Placed(wanted, temps) && Under(backup, BACKUPS) && Under(stage, STAGING)
      requires NoDuplicates(order) && Elements(order) + {RECEIPT} == wanted.Keys && RECEIPT !in order
      requires Untouched(before, files) && HoldsBackup(before, wanted.Keys, backup, files)
      modifies this
      ensures old(raised) ==> raised
      ensures old(history) <= history
      ensures AllInterrupted(history, |old(history)|, before, wanted, temps)
      ensures AllReceiptLast(history, |old(history)|, before, wanted)
      ensures Restoring(before, wanted, temps, backup, files) && Elsewhere(before, wanted, files)
      ensures ok ==> Installed(before, wanted, files)
      ensures !ok ==> raised || (failAfter.Some? && failAfter.value <= |order|)
    {
      hide Interrupted, ReceiptLast, HoldsBackup, Own, Placed, Staged;
      ghost var ready, start := files, history;
      ok := Stage(wanted, order + [RECEIPT], stage);
      ConfinedTo(before, wanted, temps, stage, ready, start, history, |start|, files);
      BackupStays(before, wanted, backup, stage, ready, files);
      OwnOnly(before, wanted, temps, files);
      if ok {
        ghost var staged, soFar := files, history;
        StageApart(wanted, temps, stage);
        ok := Promote(wanted, order, stage, failAfter);
        PromotingStates(before, wanted, temps, stage, staged, soFar, history, |start|);
        PromotingNow(before, wanted, temps, backup, stage, staged, files);
      }
    }

    /**
     The whole transaction.  `boundOrder` and `looseOrder` are the sorted paths, `sorted` all of them sorted
     together; `backup` and `stage` are the directories it makes, `temps` the names the restore would be
     given; `forward` is how much of the history precedes any restore.
     */
    method Deploy(req: Request, boundOrder: seq<Rel>, looseOrder: seq<Rel>, sorted: seq<Rel>, backup: Rel, stage: Rel,
                  temps: seq<Rel>, failAfter: Option<nat>)
        returns (outcome: Outcome, ghost forward: nat)
      requires NoDuplicates(boundOrder) && Elements(boundOrder) == req.bound.Keys
      requires NoDuplicates(looseOrder) && Elements(looseOrder) == req.loose.Keys
      requires Under(backup, BACKUPS) && Under(stage, STAGING)
      requires NoDuplicates(sorted) && Elements(sorted) == req.bound.Keys + req.loose.Keys && |temps| == |sorted| + 1
      requires forall t :: t in temps ==> t !in files && t !in Wanted(req) && !Own(t)
      modifies this
      ensures old(history) <= history && |old(history)| <= forward <= |history|
      ensures AllInterrupted(history, |old(history)|, old(files), Wanted(req), temps)
      ensures AllReceiptLast(history[..forward], |old(history)|, old(files), Wanted(req))
      ensures outcome == Rejected <==> !Admissible(req)
      ensures outcome != RolledBack && outcome != Unrestored ==> forward == |history|
      ensures match outcome
              case Rejected => files == old(files) && history == old(history)
              case NotStarted => Untouched(old(files), files)
              case Deployed => Installed(old(files), Wanted(req), files)
              case RolledBack => Restored(old(files), Wanted(req).Keys, files)
              case Unrestored => Interrupted(old(files), Wanted(req), Elements(temps), files)
      ensures outcome == NotStarted ==> raised || exists p :: p in old(files) && Under(p, backup)
      ensures outcome == RolledBack ==> raised || (failAfter.Some? && failAfter.value <= |boundOrder| + |looseOrder|)
      ensures outcome == Unrestored ==> raised
    {
      hide Interrupted, ReceiptLast, HoldsBackup, Own, Placed, PutBack, Wanted, Admissible;
      forward := |history|;
      if !Admissible(req) {
        assert history[..forward] == history;
        return Rejected, forward;
      }
      ghost var before, start := files, |history|;
      var wanted, order := Wanted(req), boundOrder + looseOrder;
      Planned(req, boundOrder, looseOrder, sorted, temps);
      var ok := Prepare(order + [RECEIPT], backup, stage, wanted, temps);
      forward := |history|;
      if !ok {
        assert history[..forward] == history;
        return NotStarted, forward;
      }
      ghost var soFar := history;
      ok := PutInPlace(wanted, order, backup, stage, failAfter, before, temps);
      Joined(soFar, history, start, before, wanted, temps);
      ghost var moved, promoted := files, history;
      if ok {
        ok := RemoveTree(stage);
        CleanedUp(before, wanted, temps, stage, moved, promoted, history, start, files);
        forward := |history|;
        assert history[..forward] == history;
        return Deployed, forward;
      }
      forward := |history|;
      TempsFree(before, wanted, temps, moved);
      ok := RestoreSnapshot(backup, sorted, temps, before, wanted);
      ghost var restored, putBack := files, history;
      outcome := if ok then RolledBack else Unrestored;
      if ok {
        RestoredAll(before, wanted, temps, restored);
      }
      var _ := RemoveTree(stage);
      CleanedBack(before, wanted, temps, stage, restored, putBack, history, start, files);
      assert history[..forward] == promoted;
    }
  }

  lemma SourceApart(p: Rel, backup: Rel)
    requires Under(backup, BACKUPS) && !Under(p, BACKUPS)
    ensures !Under(p, backup)
  {
    if Under(p, backup) {
      Deeper(p, backup, BACKUPS);
    }
  }

  lemma PromoteOne(before: Files, wanted: Files, order: seq<Rel>, i: nat, stage: Rel, now: Files, next: Files)
    requires NoDuplicates(order) && Elements(order) + {RECEIPT} == wanted.Keys && RECEIPT !in order && i < |order|
    requires forall p :: p in wanted ==> !Under(p, stage)
    requires Promoting(before, wanted, stage, now) && PromotedTo(before, wanted, order + [RECEIPT], i, now)
    requires Staged(wanted, order[i..] + [RECEIPT], stage, now)
    requires next == now || next == now[order[i] := wanted[order[i]]] - {stage + order[i]}
    ensures Promoting(before, wanted, stage, next)
    ensures next != now ==> PromotedTo(before, wanted, order + [RECEIPT], i + 1, next)
                            && Staged(wanted, order[i + 1..] + [RECEIPT], stage, next)
  {
    Inside(stage, order[i]);
    forall p | p in order[i + 1..] + [RECEIPT] ensures p != order[i] && p in order[i..] + [RECEIPT] {
      SameTail(stage, p, order[i]);
    }
  }

  lemma PromoteLast(before: Files, wanted: Files, order: seq<Rel>, stage: Rel, now: Files, next: Files)
    requires Elements(order) + {RECEIPT} == wanted.Keys && RECEIPT !in order
    requires forall p :: p in wanted ==> !Under(p, stage)
    requires Promoting(before, wanted, stage, now) && PromotedTo(before, wanted, order + [RECEIPT], |order|, now)
    requires next == now || next == now[RECEIPT := wanted[RECEIPT]] - {stage + RECEIPT}
    ensures Promoting(before, wanted, stage, next)
    ensures next != now ==> AllThere(wanted, next)
  {
    Inside(stage, RECEIPT);
    forall p | p in order ensures At(now, p) == Some(wanted[p]) {
      var j :| 0 <= j < |order| && order[j] == p;
      assert (order + [RECEIPT])[j] == p;
    }
  }

  lemma Distinct(order: seq<Rel>, i: nat)
    requires NoDuplicates(order) && RECEIPT !in order && i <= |order|
    ensures forall j :: 0 <= j < i ==> (order + [RECEIPT])[j] != (order + [RECEIPT])[i]
  {
  }

  /** What the snapshot has for a path that was present. */
  lemma BackedUp(before: Files, wanted: Files, backup: Rel, now: Files, p: Rel)
    requires HoldsBackup(before, wanted.Keys, backup, now) && p in wanted && p in before
    ensures backup + p in now && Some(now[backup + p]) == PutBack(before, wanted.Keys, p)
  {
  }

  /** Putting one path back disturbs neither the snapshot nor anything else. */
  lemma PutOne(before: Files, wanted: Files, temps: seq<Rel>, backup: Rel, p: Rel, now: Files, next: Files)
    requires Under(backup, BACKUPS) && Placed(wanted, temps) && p in wanted
    requires Restoring(before, wanted, temps, backup, now)
    requires SameExcept(now, next, p) && At(next, p) == PutBack(before, wanted.Keys, p)
    ensures Restoring(before, wanted, temps, backup, next)
  {
    forall q: Rel ensures backup + q != p {
      Inside(backup, q);
      Deeper(backup + q, backup, BACKUPS);
      Apart(backup + q);
    }
  }

  /** A temporary file is nobody's business. */
  lemma TempOnly(before: Files, wanted: Files, temps: seq<Rel>, backup: Rel, temp: Rel, now: Files)
    requires Under(backup, BACKUPS) && Placed(wanted, temps) && temp in temps
    requires Restoring(before, wanted, temps, backup, now)
    ensures forall next :: SameExcept(now, next, temp) ==> Restoring(before, wanted, temps, backup, next)
  {
    forall q: Rel ensures backup + q != temp {
      Inside(backup, q);
      Deeper(backup + q, backup, BACKUPS);
    }
  }

  lemma TempApart(wanted: Files, temps: seq<Rel>, temp: Rel, p: Rel)
    requires Placed(wanted, temps) && temp in temps && p in wanted
    ensures temp != p
  {
  }

  // ---- The deployer's own files ------------------------------------------------------

  lemma LockOnly(before: Files, now: Files)
    requires now == before[LOCK := Text("")]
    ensures Untouched(before, now)
  {
    assert Under(LOCK, LOCK);
  }

  lemma LockNotUnder(backup: Rel)
    requires Under(backup, BACKUPS)
    ensures !Under(LOCK, backup)
  {
    if Under(LOCK, backup) {
      Deeper(LOCK, backup, BACKUPS);
      Apart(LOCK);
    }
  }

  lemma OwnOnly(before: Files, wanted: Files, temps: seq<Rel>, now: Files)
    requires Placed(wanted, temps) && Untouched(before, now)
    ensures Interrupted(before, wanted, Elements(temps), now) && ReceiptLast(before, wanted, now)
  {
  }

  lemma OwnAreas(wanted: Files, temps: seq<Rel>)
    requires Placed(wanted, temps)
    ensures forall p :: p in wanted ==> !Under(p, BACKUPS) && !Under(p, STAGING) && p != LOCK
  {
    assert Under(LOCK, LOCK);
  }

  lemma DirOwn(dir: Rel, p: Rel)
    requires (Under(dir, BACKUPS) || Under(dir, STAGING)) && Under(p, dir)
    ensures Own(p)
  {
    if Under(dir, BACKUPS) {
      Deeper(p, dir, BACKUPS);
    } else {
      Deeper(p, dir, STAGING);
    }
  }

  /** States that differ only under one of the deployer's directories. */
  lemma ConfinedTo(before: Files, wanted: Files, temps: seq<Rel>, dir: Rel, fs: Files, earlier: seq<Files>,
                   later: seq<Files>, from: nat, now: Files)
    requires Placed(wanted, temps) && (Under(dir, BACKUPS) || Under(dir, STAGING)) && Untouched(before, fs)
    requires Confined(earlier, later, fs, dir) && SameOutside(fs, now, dir) && from <= |earlier|
    requires AllInterrupted(earlier, from, before, wanted, temps) && AllReceiptLast(earlier, from, before, wanted)
    ensures AllInterrupted(later, from, before, wanted, temps) && AllReceiptLast(later, from, before, wanted)
    ensures Untouched(before, now)
  {
    hide Interrupted, ReceiptLast, Own, Placed;
    forall p | !Own(p) ensures !Under(p, dir) {
      if Under(p, dir) {
        DirOwn(dir, p);
      }
    }
    forall i | from <= i < |later|
      ensures Interrupted(before, wanted, Elements(temps), later[i]) && ReceiptLast(before, wanted, later[i])
    {
      if i < |earlier| {
        assert later[i] == earlier[i];
      } else {
        assert Untouched(before, later[i]);
        OwnOnly(before, wanted, temps, later[i]);
      }
    }
  }

  lemma LockApart(before: Files, wanted: Files, backup: Rel, locked: Files, now: Files)
    requires HoldsBackup(locked, wanted.Keys, backup, now)
    requires forall p :: p in wanted ==> At(locked, p) == At(before, p)
    ensures HoldsBackup(before, wanted.Keys, backup, now)
  {
    assert Presence(locked, wanted.Keys) == Presence(before, wanted.Keys) by {
      forall p | p in wanted ensures p in locked <==> p in before { assert At(locked, p) == At(before, p); }
    }
    forall p | p in wanted ensures p in before ==> p in locked && locked[p] == before[p] {
      assert At(locked, p) == At(before, p);
    }
  }

  /** Work in the staging directory leaves the snapshot alone. */
  lemma BackupStays(before: Files, wanted: Files, backup: Rel, stage: Rel, fs: Files, now: Files)
    requires Under(backup, BACKUPS) && Under(stage, STAGING)
    requires HoldsBackup(before, wanted.Keys, backup, fs) && SameOutside(fs, now, stage)
    ensures HoldsBackup(before, wanted.Keys, backup, now)
  {
    forall q: Rel ensures !Under(backup + q, stage) {
      Inside(backup, q);
      Deeper(backup + q, backup, BACKUPS);
      Apart(backup + q);
      if Under(backup + q, stage) {
        Deeper(backup + q, stage, STAGING);
      }
    }
    assert forall q: Rel :: At(now, backup + q) == At(fs, backup + q);
  }

  lemma StageApart(wanted: Files, temps: seq<Rel>, stage: Rel)
    requires Placed(wanted, temps) && Under(stage, STAGING)
    ensures forall p :: p in wanted ==> !Under(p, stage)
  {
    forall p | p in wanted ensures !Under(p, stage) {
      if Under(p, stage) {
        DirOwn(stage, p);
      }
    }
  }

  lemma NotUnder(dir: Rel)
    requires Under(dir, BACKUPS) || Under(dir, STAGING)
    ensures forall p :: !Own(p) ==> !Under(p, dir)
  {
    forall p | !Own(p) ensures !Under(p, dir) {
      if Under(p, dir) {
        DirOwn(dir, p);
      }
    }
  }

  lemma PromotingIs(before: Files, wanted: Files, temps: seq<Rel>, stage: Rel, staged: Files, now: Files)
    requires Placed(wanted, temps) && Under(stage, STAGING) && Untouched(before, staged)
    requires Promoting(staged, wanted, stage, now)
    ensures Interrupted(before, wanted, Elements(temps), now) && ReceiptLast(before, wanted, now)
    ensures Elsewhere(before, wanted, now) && (AllThere(wanted, now) ==> Installed(before, wanted, now))
  {
    NotUnder(stage);
    forall p | !Own(p) ensures At(staged, p) == At(before, p) { }
    hide Own;
  }

  lemma PromotingStates(before: Files, wanted: Files, temps: seq<Rel>, stage: Rel, staged: Files, earlier: seq<Files>,
                        later: seq<Files>, from: nat)
    requires Placed(wanted, temps) && Under(stage, STAGING) && Untouched(before, staged)
    requires from <= |earlier| && earlier <= later
    requires AllInterrupted(earlier, from, before, wanted, temps) && AllReceiptLast(earlier, from, before, wanted)
    requires forall i :: |earlier| <= i < |later| ==> Promoting(staged, wanted, stage, later[i])
    ensures AllInterrupted(later, from, before, wanted, temps) && AllReceiptLast(later, from, before, wanted)
  {
    hide Interrupted, ReceiptLast, Placed, Untouched, Promoting;
    forall i | from <= i < |later|
      ensures Interrupted(before, wanted, Elements(temps), later[i]) && ReceiptLast(before, wanted, later[i])
    {
      if i < |earlier| {
        assert later[i] == earlier[i];
      } else {
        PromotingIs(before, wanted, temps, stage, staged, later[i]);
      }
    }
  }

  /** Promotion keeps the snapshot, and complete it has installed the generation. */
  lemma PromotingNow(before: Files, wanted: Files, temps: seq<Rel>, backup: Rel, stage: Rel, staged: Files, now: Files)
    requires Placed(wanted, temps) && Under(backup, BACKUPS) && Under(stage, STAGING)
    requires Untouched(before, staged) && HoldsBackup(before, wanted.Keys, backup, staged)
    requires Promoting(staged, wanted, stage, now)
    ensures Restoring(before, wanted, temps, backup, now)
    ensures Elsewhere(before, wanted, now) && (AllThere(wanted, now) ==> Installed(before, wanted, now))
  {
    hide Interrupted, ReceiptLast, Untouched;
    PromotingIs(before, wanted, temps, stage, staged, now);
    forall q: Rel ensures At(now, backup + q) == At(staged, backup + q) {
      BackupApart(wanted, temps, backup, stage, q);
    }
    hide Placed;
  }

  lemma BackupApart(wanted: Files, temps: seq<Rel>, backup: Rel, stage: Rel, q: Rel)
    requires Placed(wanted, temps) && Under(backup, BACKUPS) && Under(stage, STAGING)
    ensures backup + q !in wanted && !Under(backup + q, stage)
  {
    Inside(backup, q);
    DirOwn(backup, backup + q);
    Deeper(backup + q, backup, BACKUPS);
    Apart(backup + q);
    if Under(backup + q, stage) {
      Deeper(backup + q, stage, STAGING);
    }
  }

  /** What the orders and the checks give the transaction. */
  lemma Planned(req: Request, boundOrder: seq<Rel>, looseOrder: seq<Rel>, sorted: seq<Rel>, temps: seq<Rel>)
    requires Admissible(req)
    requires NoDuplicates(boundOrder) && Elements(boundOrder) == req.bound.Keys
    requires NoDuplicates(looseOrder) && Elements(looseOrder) == req.loose.Keys
    requires Elements(sorted) == req.bound.Keys + req.loose.Keys
    requires forall t :: t in temps ==> t !in Wanted(req) && !Own(t)
    ensures Placed(Wanted(req), temps)
    ensures var order := boundOrder + looseOrder;
            && NoDuplicates(order) && RECEIPT !in order && Elements(order) + {RECEIPT} == Wanted(req).Keys
            && Elements(order + [RECEIPT]) == Wanted(req).Keys
    ensures RECEIPT !in sorted && Elements(sorted) + {RECEIPT} == Wanted(req).Keys
  {
    hide ReceiptFor, Own;
    ReceiptNotOwn();
    assert Under(RECEIPT, RECEIPT);
    assert RECEIPT !in req.bound.Keys + req.loose.Keys;
    assert Wanted(req).Keys == req.bound.Keys + req.loose.Keys + {RECEIPT};
    InOrder(req.bound.Keys, req.loose.Keys, boundOrder, looseOrder);
    assert RECEIPT in sorted ==> RECEIPT in Elements(sorted);
  }

  lemma InOrder(bound: set<Rel>, loose: set<Rel>, boundOrder: seq<Rel>, looseOrder: seq<Rel>)
    requires NoDuplicates(boundOrder) && Elements(boundOrder) == bound
    requires NoDuplicates(looseOrder) && Elements(looseOrder) == loose
    requires bound !! loose && RECEIPT !in bound + loose
    ensures var order := boundOrder + looseOrder;
            && NoDuplicates(order) && RECEIPT !in order && Elements(order) == bound + loose
            && Elements(order + [RECEIPT]) == bound + loose + {RECEIPT}
  {
    var order := boundOrder + looseOrder;
    assert forall p :: p in boundOrder <==> p in Elements(boundOrder);
    assert forall p :: p in looseOrder <==> p in Elements(looseOrder);
    forall i, j | 0 <= i < j < |order| ensures order[i] != order[j] {
      if i < |boundOrder| <= j {
        assert order[i] in bound && order[j] in loose;
      }
    }
  }

  lemma Joined(earlier: seq<Files>, later: seq<Files>, from: nat, before: Files, wanted: Files, temps: seq<Rel>)
    requires from <= |earlier| && earlier <= later
    requires AllInterrupted(earlier, from, before, wanted, temps) && AllReceiptLast(earlier, from, before, wanted)
    requires AllInterrupted(later, |earlier|, before, wanted, temps)
    requires AllReceiptLast(later, |earlier|, before, wanted)
    ensures AllInterrupted(later, from, before, wanted, temps) && AllReceiptLast(later, from, before, wanted)
  {
    hide Interrupted, ReceiptLast;
    forall i | from <= i < |earlier| ensures later[i] == earlier[i] { }
  }

  lemma TempsFree(before: Files, wanted: Files, temps: seq<Rel>, now: Files)
    requires Placed(wanted, temps) && Elsewhere(before, wanted, now) && forall t :: t in temps ==> t !in before
    ensures forall t :: t in temps ==> t !in now
  {
    hide Own;
    forall t | t in temps ensures t !in now { assert At(now, t) == At(before, t); }
  }

  lemma RestoredAll(before: Files, wanted: Files, temps: seq<Rel>, now: Files)
    requires Placed(wanted, temps) && Interrupted(before, wanted, Elements(temps), now)
    requires forall t :: t in temps ==> t !in before && t !in now
    requires forall p :: p in wanted ==> At(now, p) == PutBack(before, wanted.Keys, p)
    ensures Restored(before, wanted.Keys, now)
  {
    hide Own, PutBack;
    forall t | t in temps ensures At(now, t) == At(before, t) { }
  }

  lemma CleanedUp(before: Files, wanted: Files, temps: seq<Rel>, stage: Rel, moved: Files, earlier: seq<Files>,
                  later: seq<Files>, from: nat, now: Files)
    requires Placed(wanted, temps) && Under(stage, STAGING) && from <= |earlier|
    requires Installed(before, wanted, moved) && Confined(earlier, later, moved, stage) && SameOutside(moved, now, stage)
    requires AllInterrupted(earlier, from, before, wanted, temps) && AllReceiptLast(earlier, from, before, wanted)
    ensures AllInterrupted(later, from, before, wanted, temps) && AllReceiptLast(later, from, before, wanted)
    ensures Installed(before, wanted, now)
  {
    hide Own, Interrupted, ReceiptLast, Placed, Installed;
    InstalledStays(before, wanted, stage, moved, now);
    forall i | from <= i < |later|
      ensures Interrupted(before, wanted, Elements(temps), later[i]) && ReceiptLast(before, wanted, later[i])
    {
      if i < |earlier| {
        assert later[i] == earlier[i];
      } else {
        InstalledStays(before, wanted, stage, moved, later[i]);
        InstalledIs(before, wanted, temps, later[i]);
      }
    }
  }

  lemma InstalledStays(before: Files, wanted: Files, stage: Rel, moved: Files, now: Files)
    requires Under(stage, STAGING) && Installed(before, wanted, moved) && SameOutside(moved, now, stage)
    ensures Installed(before, wanted, now)
  {
    hide Own;
    NotUnder(stage);
  }

  lemma InstalledIs(before: Files, wanted: Files, temps: seq<Rel>, now: Files)
    requires Placed(wanted, temps) && Installed(before, wanted, now)
    ensures Interrupted(before, wanted, Elements(temps), now) && ReceiptLast(before, wanted, now)
  {
    hide Own;
  }

  lemma CleanedBack(before: Files, wanted: Files, temps: seq<Rel>, stage: Rel, restored: Files, earlier: seq<Files>,
                    later: seq<Files>, from: nat, now: Files)
    requires Placed(wanted, temps) && Under(stage, STAGING) && from <= |earlier|
    requires Interrupted(before, wanted, Elements(temps), restored)
    requires Confined(earlier, later, restored, stage) && SameOutside(restored, now, stage)
    requires AllInterrupted(earlier, from, before, wanted, temps)
    ensures AllInterrupted(later, from, before, wanted, temps) && Interrupted(before, wanted, Elements(temps), now)
    ensures Restored(before, wanted.Keys, restored) ==> Restored(before, wanted.Keys, now)
  {
    hide Own, Interrupted, Placed;
    NotUnder(stage);
    InterruptedStays(before, wanted, temps, stage, restored, now);
    forall i | from <= i < |later| ensures Interrupted(before, wanted, Elements(temps), later[i]) {
      if i < |earlier| {
        assert later[i] == earlier[i];
      } else {
        InterruptedStays(before, wanted, temps, stage, restored, later[i]);
      }
    }
  }

  lemma InterruptedStays(before: Files, wanted: Files, temps: seq<Rel>, stage: Rel, fs: Files, now: Files)
    requires Placed(wanted, temps) && Under(stage, STAGING)
    requires Interrupted(before, wanted, Elements(temps), fs) && SameOutside(fs, now, stage)
    ensures Interrupted(before, wanted, Elements(temps), now)
  {
    hide Own;
    NotUnder(stage);
  }
}
