/** Deployments one after another, interrupted anywhere, with edits by others in between. */
module DeploymentRuns {
  import opened Basics
  import opened DeploymentModel
  import opened Deployment

  /** A rollback restores every path exactly, if and only if no managed file that existed is called
      `BACKUP.json`, the name of the snapshot's own description (or it held that description already). */
  lemma RollbackIsExact(before: Files, managed: set<Rel>, now: Files)
    requires Restored(before, managed, now)
    ensures Untouched(before, now)
            <==> !(META in managed && META in before) || before[META] == Json(Backup(Presence(before, managed)))
  {
    assert !Own(META);
    hide Own;
    if META in managed && META in before {
      assert At(now, META) == PutBack(before, managed, META);
    }
  }

  /** A target whose managed `BACKUP.json` does not survive a rollback. */
  lemma RollbackLosesBackupJson()
    ensures var before: Files := map[META := Text("mine")];
            forall now :: Restored(before, {META, RECEIPT}, now) ==> At(now, META) != Some(Text("mine"))
  {
    var before: Files := map[META := Text("mine")];
    assert !Own(META);
    hide Own;
    forall now | Restored(before, {META, RECEIPT}, now) ensures At(now, META) != Some(Text("mine")) {
      assert At(now, META) == PutBack(before, {META, RECEIPT}, META);
    }
  }

  datatype Move =
    | Attempt(req: Request, temps: set<Rel>)     // a deployment, finished, rolled back or cut off anywhere
    | Edit(path: Rel)                            // someone else writes or removes a file

  ghost predicate Step(before: Files, m: Move, now: Files) {
    match m
    case Attempt(req, temps) => Admissible(req) && RECEIPT !in temps && Interrupted(before, Wanted(req), temps, now)
    case Edit(path) => path != RECEIPT && SameExcept(before, now, path)
  }

  ghost predicate History(states: seq<Files>, moves: seq<Move>) {
    && |states| == |moves| + 1 && RECEIPT !in states[0]
    && (forall n :: 0 <= n < |moves| ==> Step(states[n], moves[n], states[n + 1]))
  }

  /** The receipt on disk is always one that some attempt so far wrote whole. */
  lemma {:induction false} ReceiptHasSource(states: seq<Files>, moves: seq<Move>, n: nat)
    requires History(states, moves) && n < |states| && RECEIPT in states[n]
    ensures exists k :: 0 <= k < n && moves[k].Attempt? && states[n][RECEIPT] == ReceiptFor(moves[k].req)
  {
    hide ReceiptFor;
    if n > 0 {
      var before, now := states[n - 1], states[n];
      assert Step(before, moves[n - 1], now);
      assert At(now, RECEIPT) == Some(now[RECEIPT]);
      if At(now, RECEIPT) == At(before, RECEIPT) {
        ReceiptHasSource(states, moves, n - 1);
      } else {
        assert moves[n - 1].Attempt?;
        assert RECEIPT in Wanted(moves[n - 1].req);
      }
    }
  }

  /** Whatever is interrupted, rolled back or edited, a set of files the receipt check accepts is one
      whole generation that a single deployment asked for. */
  lemma AcceptedIsOneGeneration(states: seq<Files>, moves: seq<Move>, n: nat)
    requires History(states, moves) && n < |states| && Accepted(states[n])
    ensures exists k :: 0 <= k < n && moves[k].Attempt? && WholeGeneration(moves[k].req, states[n])
  {
    ReceiptHasSource(states, moves, n);
    var k :| 0 <= k < n && moves[k].Attempt? && states[n][RECEIPT] == ReceiptFor(moves[k].req);
    AcceptedIsWhole(moves[k].req, states[n]);
  }

  /** Before any restore, the new receipt is visible only over a complete generation, mutable files included. */
  lemma ReceiptShowsAll(before: Files, req: Request, now: Files)
    requires Admissible(req) && ReceiptLast(before, Wanted(req), now)
    requires At(now, RECEIPT) == Some(ReceiptFor(req)) && At(before, RECEIPT) != Some(ReceiptFor(req))
    ensures forall p :: p in req.bound ==> At(now, p) == Some(req.bound[p])
    ensures forall p :: p in req.loose ==> At(now, p) == Some(req.loose[p])
    ensures req.bound != map[] ==> Accepted(now)
  {
    hide ReceiptFor;
    assert Under(RECEIPT, RECEIPT);
    assert RECEIPT !in req.bound && RECEIPT !in req.loose;
    forall p | p in req.bound ensures At(now, p) == Some(req.bound[p]) {
      assert p in Wanted(req) && Wanted(req)[p] == req.bound[p];
    }
    forall p | p in req.loose ensures At(now, p) == Some(req.loose[p]) {
      assert p in Wanted(req) && Wanted(req)[p] == req.loose[p];
    }
    AcceptedIsWhole(req, now);
  }

  /** A deployment that ends leaves an accepted generation: its own. */
  lemma InstalledIsAccepted(before: Files, req: Request, now: Files)
    requires Admissible(req) && Installed(before, Wanted(req), now)
    ensures WholeGeneration(req, now) && (req.bound != map[] ==> Accepted(now))
    ensures forall p :: p in req.loose ==> At(now, p) == Some(req.loose[p])
  {
    ReceiptNotOwn();
    assert Under(RECEIPT, RECEIPT);
    hide Own, ReceiptFor;
    assert RECEIPT !in req.bound && RECEIPT !in req.loose;
    forall p | p in req.bound ensures At(now, p) == Some(req.bound[p]) {
      assert p in req.bound.Keys + req.loose.Keys && Wanted(req)[p] == req.bound[p];
    }
    forall p | p in req.loose ensures At(now, p) == Some(req.loose[p]) {
      assert p in req.bound.Keys + req.loose.Keys && Wanted(req)[p] == req.loose[p];
    }
    AcceptedIsWhole(req, now);
  }
}
