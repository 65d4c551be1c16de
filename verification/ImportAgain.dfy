/** The same file imported again: after several interruptions, and after a whole import. */
module ImportAgain {
  import opened Basics
  import opened TextLines
  import opened ImportModel
  import opened ImportRecognition
  import opened ImportPhases
  import opened ImportLinks
  import opened ImportResume
  import opened ImportStatuses
  import opened ImportTheorems
  import opened ImportInterruption

  // ---- Files without strays ----------------------------------------------------------

  /** The store knows no row for the item and gives it none, but a new row of the file carries its tag and content. */
  predicate IsStray(setup: Setup, base: seq<Row>, file: seq<Option<Entry>>, k: nat)
    requires k < |file|
  {
    && EligibleAt(setup, file, k) && file[k].value.id.Some? && Found(base, file[k].value) == None
    && setup.verdict(file[k].value) != Recorded
    && FirstClaimant(setup, Faces(base), file, |file|, KeyOf(file[k].value)).Some?
  }

  predicate NoStrays(setup: Setup, base: seq<Row>, file: seq<Option<Entry>>) {
    forall k | 0 <= k < |file| :: !IsStray(setup, base, file, k)
  }

  /** Unknown to the store, an item without a stray's role is found as its own new row, once that is there. */
  lemma ClaimantOfUnknown(setup: Setup, base: seq<Row>, file: seq<Option<Entry>>, c: nat, k: nat)
    requires Regular(setup, Faces(base), file) && NoStrays(setup, base, file) && c <= |file| && k < |file|
    requires EligibleAt(setup, file, k) && file[k].value.id.Some? && Found(base, file[k].value) == None
    ensures var claimant := FirstClaimant(setup, Faces(base), file, c, KeyOf(file[k].value));
            && (claimant.Some? ==> claimant == Some(k) && k < c && IsNew(setup, Faces(base), file[k].value))
            && (IsNew(setup, Faces(base), file[k].value) && k < c ==> claimant == Some(k))
  {
    hide Regular, Faces, KeyOf, Found, FirstClaimant, IsNew, Eligible;
    FoundIsNotNew(setup, base, file[k].value);
    ClaimantStays(setup, Faces(base), file, c, |file|, KeyOf(file[k].value));
    assert !IsStray(setup, base, file, k);
    if IsNew(setup, Faces(base), file[k].value) {
      ClaimantOfNew(setup, Faces(base), file, c, k);
    }
  }

  /** Items stand for the same rows in both runs. */
  lemma LaterIsNow(setup: Setup, base: seq<Row>, file: seq<Option<Entry>>, ids: seq<string>, c: nat)
    requires Regular(setup, Faces(base), file) && NoStrays(setup, base, file) && c <= |file| == |ids|
    ensures StandsLater(setup, base, file, ids, c) == Stands(setup, base, file, ids)
  {
    hide Regular, Faces, KeyOf, Found, FirstClaimant, IsNew, Eligible, NoStrays;
    forall k | 0 <= k < |file| ensures StandsLater(setup, base, file, ids, c)[k] == Stands(setup, base, file, ids)[k] {
      if EligibleAt(setup, file, k) && Found(base, file[k].value) == None && file[k].value.id.Some? {
        ClaimantOfUnknown(setup, base, file, c, k);
        FoundIsNotNew(setup, base, file[k].value);
      }
    }
  }

  lemma {:induction false} OnlyItselfClaims(setup: Setup, base: seq<Row>, file: seq<Option<Entry>>, n: nat, j: nat)
    requires Regular(setup, Faces(base), file) && NoStrays(setup, base, file) && n <= |file| && j < |file|
    requires file[j].Some? && IsNew(setup, Faces(base), file[j].value)
    ensures ClaimedStatus(setup, base, file, n, j) == if j < n then OwnStatus(setup, file[j].value) else None
  {
    hide Regular, Faces, KeyOf, Found, FirstClaimant, IsNew, Eligible, NoStrays, Quiet, Restored;
    if n > 0 {
      OnlyItselfClaims(setup, base, file, n - 1, j);
      var k := n - 1;
      if EligibleAt(setup, file, k) && file[k].value.id.Some? && Found(base, file[k].value) == None {
        ClaimantOfUnknown(setup, base, file, |file|, k);
      }
      if k == j {
        FoundIsNotNew(setup, base, file[j].value);
        ClaimantOfNew(setup, Faces(base), file, |file|, j);
      }
    }
  }

  /** Without strays, the condition for resuming is about new entries and shared copies only. */
  lemma PlainResumable(setup: Setup, base: seq<Row>, file: seq<Option<Entry>>, first: seq<string>, second: seq<string>)
    requires |first| == |file| == |second| && NoStrays(setup, base, file)
    ensures Resumable(setup, base, file, first, second) <==> Regular(setup, Faces(base), file) && OneStatusEach(setup, base, file)
  {
    hide Faces, IsNew, ClaimedStatus, OwnStatus, OneStatusEach, AllTagged, NoneTakenOver, NoStrays, Stands, StandsLater, NewRows,
      Touchable, CloserWith;
    if Regular(setup, Faces(base), file) {
      forall j | 0 <= j < |file| && file[j].Some? && IsNew(setup, Faces(base), file[j].value)
        ensures ClaimedStatus(setup, base, file, |file|, j) == OwnStatus(setup, file[j].value)
      {
        OnlyItselfClaims(setup, base, file, |file|, j);
      }
      forall c | 0 <= c <= |file| ensures LinksTheSame(setup, base, file, Drawn(first, second, c), c) {
        LaterIsNow(setup, base, file, Drawn(first, second, c), c);
      }
    }
  }

  /** Without strays: an import can be cut off after any write and completed by running it again if and only if every
      new row carries its entry's tag, none carries a later new entry's tag and content, and entries that stand for one
      active copy ask for one status. */
  lemma PlainResumesIff(setup: Setup, base: seq<Row>, file: seq<Option<Entry>>, first: seq<string>, second: seq<string>)
    requires Draws(setup, base, file, first, second) && NoStrays(setup, base, file)
    ensures AlwaysCompletes(setup, base, file, first, second)
            <==> AllTagged(setup, Faces(base), file) && NoneTakenOver(setup, Faces(base), file) && OneStatusEach(setup, base, file)
  {
    hide Faces, OneStatusEach, AllTagged, NoneTakenOver, NoStrays, AlwaysCompletes, Resumable, DistinctKeys, DistinctIds, Fresh;
    ResumesIff(setup, base, file, first, second);
    PlainResumable(setup, base, file, first, second);
  }

  // ---- Several interruptions ---------------------------------------------------------

  /** What it takes for an import to survive any number of interruptions. */
  ghost predicate Resilient(setup: Setup, base: seq<Row>, file: seq<Option<Entry>>) {
    && DistinctKeys(setup, file) && DistinctIds(base) && Regular(setup, Faces(base), file)
    && OneStatusEach(setup, base, file) && NoStrays(setup, base, file)
  }

  lemma CutIs(setup: Setup, base: seq<Row>, file: seq<Option<Entry>>, first: seq<string>, second: seq<string>, mid: seq<Row>)
    returns (c: nat, d: nat)
    requires Draws(setup, base, file, first, second) && CutOff(setup, base, file, first, mid)
    ensures d <= c <= |file| && CutRows(setup, base, file, Drawn(first, second, c), c, d, mid)
  {
    hide DistinctKeys, DistinctIds, Fresh, Faces, HandleAll, LinkedUpTo, CutRows, Unlinked, Lookup, Eligible, Created, IsNew;
    if n :| 0 <= n <= |file| && mid == HandleAll(setup, base, file, first, n).rows {
      BetweenCut(setup, base, file, first, second, n);
      c, d := n, n;
    } else if n :| 0 <= n < |file| && NewAt(setup, base, file, first, n)
                   && mid == Created(HandleAll(setup, base, file, first, n), file[n].value, first[n]) {
      FreshPart(Faces(base), file, first, second, n);
      NewAtIs(setup, base, file, first, n);
      CreatedCut(setup, base, file, first, second, n);
      c, d := n + 1, n;
    } else {
      var m: nat :| LinkedUpTo(setup, base, file, first, m, mid);
      FreshPart(Faces(base), file, first, second, |file|);
      AllDrawn(first, second);
      LinkCut(setup, base, file, first, m, mid);
      c, d := |file|, |file|;
    }
  }

  lemma NoMoreNew(setup: Setup, base: seq<Row>, file: seq<Option<Entry>>, first: seq<string>, second: seq<string>, c: nat,
                  mid: seq<Row>)
    requires Draws(setup, base, file, first, second) && c <= |file| && Regular(setup, Faces(base), file)
    requires Reached(setup, base, file, Drawn(first, second, c), c, mid)
    ensures forall k :: 0 <= k < |file| && file[k].Some? && IsNew(setup, Faces(mid), file[k].value) ==>
              IsNew(setup, Faces(base), file[k].value)
  {
    hide DistinctKeys, DistinctIds, Fresh, Faces, Regular, Reached, IsNew;
    forall k | 0 <= k < |file| && file[k].Some? && IsNew(setup, Faces(mid), file[k].value)
      ensures IsNew(setup, Faces(base), file[k].value)
    {
      OnlyRecorded(setup, Faces(mid), file[k].value);
      NewAgain(setup, base, file, first, second, c, mid, k);
    }
  }

  /** A row of the store that may be given a status after the cut might have been before it. */
  lemma RepairBefore(setup: Setup, base: seq<Row>, file: seq<Option<Entry>>, ids: seq<string>, c: nat, d: nat, mid: seq<Row>, x: string)
    requires Sound(setup, base, file, ids) && DistinctIds(base) && d <= c <= |file| && CutRows(setup, base, file, ids, c, d, mid)
    requires IsRow(Faces(base), x) && MayRepair(mid, x)
    ensures MayRepair(base, x)
  {
    hide DistinctKeys, Fresh, Faces, NewRows, Stands, SetBy, IsCopy, Reached, IsRow;
    CutFaces(setup, base, file, ids, c, d, mid);
    CutDistinct(setup, base, file, ids, c, d, mid);
    var i := RowAt(base, x);
    assert (base + NewRows(setup, base, file, ids, c))[i] == base[i];
    OldCopy(setup, base, file, ids, c, mid, i);
    StatusAt(base, i);
    StatusAt(mid, i);
    GivenIsRestored(setup, file, Stands(setup, base, file, ids), d, x);
  }

  lemma FoundAsItself(setup: Setup, base: seq<Row>, file: seq<Option<Entry>>, ids: seq<string>, c: nat, mid: seq<Row>, k: nat)
    requires Sound(setup, base, file, ids) && Regular(setup, Faces(base), file) && NoStrays(setup, base, file)
    requires Reached(setup, base, file, ids, c, mid) && k < |file| && EligibleAt(setup, file, k) && Found(mid, file[k].value).Some?
    ensures Found(base, file[k].value) == Found(mid, file[k].value)
            || (Found(base, file[k].value) == None && Found(mid, file[k].value) == Some(ids[k]))
  {
    hide DistinctKeys, Fresh, Faces, Regular, Reached, IsNew, Found, KeyOf, FirstClaimant, NoStrays, Eligible;
    ReachedLength(setup, base, file, ids, c, mid);
    FoundNow(setup, base, file, ids, c, mid, k);
    NoIdNotFound(base, file[k].value);
    if file[k].value.id.Some? && Found(base, file[k].value) == None {
      ClaimantOfUnknown(setup, base, file, c, k);
    }
  }

  lemma ReachedLength(setup: Setup, base: seq<Row>, file: seq<Option<Entry>>, ids: seq<string>, c: nat, mid: seq<Row>)
    requires Reached(setup, base, file, ids, c, mid)
    ensures c <= |file| == |ids|
  {
  }

  lemma NoIdNotFound(base: seq<Row>, e: Entry)
    ensures e.id == None ==> Found(base, e) == None
  {
  }

  /** The conditions hold at every store the import is cut off with. */
  lemma ResilientAgain(setup: Setup, base: seq<Row>, file: seq<Option<Entry>>, first: seq<string>, second: seq<string>, c: nat, d: nat,
                   mid: seq<Row>)
    requires Draws(setup, base, file, first, second) && Resilient(setup, base, file) && d <= c <= |file|
    requires CutRows(setup, base, file, Drawn(first, second, c), c, d, mid)
    ensures Resilient(setup, mid, file)
  {
    hide DistinctKeys, DistinctIds, Fresh, Faces, Reached, IsNew, CutRows, OneStatusEach, NoStrays, Tagged, WouldClaim, KeyOf;
    SoundAgain(setup, base, file, first, second, c, d, mid);
    NoMoreNew(setup, base, file, first, second, c, mid);
    OneStatusAgain(setup, base, file, first, second, c, d, mid);
    NoStraysAgain(setup, base, file, first, second, c, mid);
  }

  lemma StrayBefore(setup: Setup, base: seq<Row>, file: seq<Option<Entry>>, first: seq<string>, second: seq<string>, c: nat,
                    mid: seq<Row>, k: nat)
    requires Draws(setup, base, file, first, second) && Regular(setup, Faces(base), file) && c <= |file|
    requires Reached(setup, base, file, Drawn(first, second, c), c, mid) && k < |file| && IsStray(setup, mid, file, k)
    ensures IsStray(setup, base, file, k)
  {
    hide DistinctKeys, DistinctIds, Fresh, Faces, Reached, IsNew, Regular, KeyOf, Found, Eligible;
    NoMoreNew(setup, base, file, first, second, c, mid);
    FreshPart(Faces(base), file, first, second, c);
    FoundNow(setup, base, file, Drawn(first, second, c), c, mid, k);
    var j := FirstClaimant(setup, Faces(mid), file, |file|, KeyOf(file[k].value)).value;
    assert NewClaims(setup, Faces(base), file, j, KeyOf(file[k].value));
  }

  lemma NoStraysAgain(setup: Setup, base: seq<Row>, file: seq<Option<Entry>>, first: seq<string>, second: seq<string>, c: nat,
                      mid: seq<Row>)
    requires Draws(setup, base, file, first, second) && Resilient(setup, base, file) && c <= |file|
    requires Reached(setup, base, file, Drawn(first, second, c), c, mid)
    ensures NoStrays(setup, mid, file)
  {
    hide DistinctKeys, DistinctIds, Fresh, Faces, Reached, OneStatusEach, Regular, IsStray;
    forall k | 0 <= k < |file| ensures !IsStray(setup, mid, file, k) {
      if IsStray(setup, mid, file, k) {
        StrayBefore(setup, base, file, first, second, c, mid, k);
      }
    }
  }

  lemma OneStatusAgain(setup: Setup, base: seq<Row>, file: seq<Option<Entry>>, first: seq<string>, second: seq<string>, c: nat, d: nat,
                       mid: seq<Row>)
    requires Draws(setup, base, file, first, second) && Resilient(setup, base, file) && d <= c <= |file|
    requires CutRows(setup, base, file, Drawn(first, second, c), c, d, mid)
    ensures OneStatusEach(setup, mid, file)
  {
    hide DistinctKeys, DistinctIds, Fresh, Faces, Reached, CutRows, NoStrays, Regular, Found, MayRepair, Restored, IsRow, Passes, Strip;
    var h := Drawn(first, second, c);
    SoundAgain(setup, base, file, first, second, c, d, mid);
    forall i, k | 0 <= i < |file| && 0 <= k < |file| && SharesCopy(setup, mid, file, i, k)
      ensures Restored(file[i].value.status.value) == Restored(file[k].value.status.value)
    {
      var x := Found(mid, file[i].value).value;
      FoundAsItself(setup, base, file, h, c, mid, i);
      FoundAsItself(setup, base, file, h, c, mid, k);
      FoundIsRow(base, file[i].value);
      FoundIsRow(base, file[k].value);
      FreshIsNoRow(base, file, h, i);
      FreshIsNoRow(base, file, h, k);
      if Found(base, file[i].value) == Some(x) {
        RepairBefore(setup, base, file, h, c, d, mid, x);
        assert SharesCopy(setup, base, file, i, k);
      } else if i != k {
        FreshDistinct(base, file, h, i, k);
      }
    }
  }

  /** Several runs draw ids that occur nowhere, each once. */
  ghost predicate AllFresh(faces: seq<Face>, file: seq<Option<Entry>>, draws: seq<seq<string>>) {
    && (forall a :: 0 <= a < |draws| ==> |draws[a]| == |file|)
    && (forall a, k :: 0 <= a < |draws| && 0 <= k < |draws[a]| ==> Unseen(faces, file, draws[a][k]))
    && (forall a, k, b, l | 0 <= a < |draws| && 0 <= k < |draws[a]| && 0 <= b < |draws| && 0 <= l < |draws[b]| ::
          draws[a][k] == draws[b][l] ==> a == b && k == l)
  }

  /** Each item's id is the one some run drew for it. */
  ghost predicate Mixed(draws: seq<seq<string>>, ids: seq<string>) {
    && (forall a :: 0 <= a < |draws| ==> |draws[a]| == |ids|)
    && forall k :: 0 <= k < |ids| ==> exists a :: 0 <= a < |draws| && ids[k] == draws[a][k]
  }

  lemma MixedDraws(setup: Setup, base: seq<Row>, file: seq<Option<Entry>>, draws: seq<seq<string>>, ids: seq<string>)
    requires AllFresh(Faces(base), file, draws) && |draws| > 1 && Mixed(draws[1..], ids)
    requires DistinctKeys(setup, file) && DistinctIds(base)
    ensures Draws(setup, base, file, draws[0], ids)
    ensures forall c :: 0 <= c <= |file| ==> Mixed(draws, Drawn(draws[0], ids, c))
  {
    hide Unseen, DistinctKeys, DistinctIds, Faces;
    var all := draws[0] + ids;
    assert |draws[1..][0]| == |ids|;
    forall k | 0 <= k < |ids| ensures exists a :: 0 < a < |draws| && ids[k] == draws[a][k] {
      var a :| 0 <= a < |draws[1..]| && ids[k] == draws[1..][a][k];
      assert draws[1..][a] == draws[a + 1];
    }
    forall i, j | 0 <= i < |all| && 0 <= j < |all| && i != j ensures all[i] != all[j] { }
  }

  lemma BornUnseen(setup: Setup, faces: seq<Face>, file: seq<Option<Entry>>, ids: seq<string>, c: nat, y: string)
    requires c <= |file| == |ids| && Unseen(faces, file, y) && forall j :: 0 <= j < c ==> ids[j] != y
    ensures Unseen(faces + Born(setup, faces, file, ids, c), file, y)
  {
    hide IsNew;
    var born := Born(setup, faces, file, ids, c);
    BornAre(setup, faces, file, ids, c);
    forall i | 0 <= i < |born| ensures born[i].id != y && IMPORTED_ID + y !in born[i].tags {
      assert born[i] in born;
    }
  }

  lemma FreshAfterCut(setup: Setup, base: seq<Row>, file: seq<Option<Entry>>, draws: seq<seq<string>>, c: nat, mid: seq<Row>)
    requires AllFresh(Faces(base), file, draws) && |draws| > 1 && c <= |file|
    requires Reached(setup, base, file, Drawn(draws[0], draws[1], c), c, mid)
    ensures AllFresh(Faces(mid), file, draws[1..])
  {
    hide Faces, Born, Unseen;
    var rest, h := draws[1..], Drawn(draws[0], draws[1], c);
    assert forall a :: 0 <= a < |rest| ==> rest[a] == draws[a + 1];
    forall a, k | 0 <= a < |rest| && 0 <= k < |rest[a]| ensures Unseen(Faces(mid), file, rest[a][k]) {
      assert forall j :: 0 <= j < c ==> h[j] == draws[0][j];
      BornUnseen(setup, Faces(base), file, h, c, draws[a + 1][k]);
    }
  }

  /** Each run but the last is cut off, and the next starts from what it left. */
  ghost predicate CutRuns(setup: Setup, file: seq<Option<Entry>>, stores: seq<seq<Row>>, draws: seq<seq<string>>) {
    && |stores| == |draws| > 0
    && (forall a :: 0 <= a < |draws| ==> |draws[a]| == |file|)
    && forall a :: 0 <= a < |stores| - 1 ==> CutOff(setup, stores[a], file, draws[a], stores[a + 1])
  }

  /** However often an import is cut off and run again, the run that ends leaves the store of one uninterrupted import. */
  lemma {:induction false} AnyInterruptionsComplete(setup: Setup, file: seq<Option<Entry>>, stores: seq<seq<Row>>, draws: seq<seq<string>>)
    requires CutRuns(setup, file, stores, draws) && Resilient(setup, stores[0], file) && AllFresh(Faces(stores[0]), file, draws)
    ensures exists ids :: Mixed(draws, ids) && |ids| == |file|
                          && Import(setup, stores[|stores| - 1], file, draws[|draws| - 1]) == Import(setup, stores[0], file, ids)
    decreases |stores|
  {
    hide Resilient, Faces, CutOff, Import, AllFresh, Mixed;
    if |stores| == 1 {
      OneDraw(draws);
    } else {
      var later, rest := stores[1..], draws[1..];
      OneMoreCut(setup, file, stores, draws);
      AnyInterruptionsComplete(setup, file, later, rest);
      var ids :| Mixed(rest, ids) && |ids| == |file|
                 && Import(setup, later[|later| - 1], file, rest[|rest| - 1]) == Import(setup, later[0], file, ids);
      var whole := FirstCutCompletes(setup, file, stores, draws, ids);
    }
  }

  lemma FirstCutCompletes(setup: Setup, file: seq<Option<Entry>>, stores: seq<seq<Row>>, draws: seq<seq<string>>, ids: seq<string>)
    returns (whole: seq<string>)
    requires CutRuns(setup, file, stores, draws) && Resilient(setup, stores[0], file) && AllFresh(Faces(stores[0]), file, draws)
    requires |stores| > 1 && Mixed(draws[1..], ids) && |ids| == |file|
    ensures Mixed(draws, whole) && |whole| == |file| && Import(setup, stores[1], file, ids) == Import(setup, stores[0], file, whole)
  {
    hide Resilient, Faces, CutOff, Import, AllFresh, DistinctKeys, DistinctIds, Fresh, Mixed, Resumable, Regular, OneStatusEach, NoStrays;
    ResilientParts(setup, stores[0], file);
    MixedDraws(setup, stores[0], file, draws, ids);
    PlainResumable(setup, stores[0], file, draws[0], ids);
    ResumedImportCompletes(setup, stores[0], file, draws[0], ids, stores[1]);
    var c :| 0 <= c <= |file| && Import(setup, stores[1], file, ids) == Import(setup, stores[0], file, Drawn(draws[0], ids, c));
    whole := Drawn(draws[0], ids, c);
  }

  lemma OneDraw(draws: seq<seq<string>>)
    requires |draws| == 1
    ensures Mixed(draws, draws[0])
  {
  }

  lemma ResilientParts(setup: Setup, base: seq<Row>, file: seq<Option<Entry>>)
    requires Resilient(setup, base, file)
    ensures DistinctKeys(setup, file) && DistinctIds(base) && Regular(setup, Faces(base), file)
            && OneStatusEach(setup, base, file) && NoStrays(setup, base, file)
  {
  }

  lemma OneMoreCut(setup: Setup, file: seq<Option<Entry>>, stores: seq<seq<Row>>, draws: seq<seq<string>>)
    requires CutRuns(setup, file, stores, draws) && Resilient(setup, stores[0], file) && AllFresh(Faces(stores[0]), file, draws)
    requires |stores| > 1
    ensures CutRuns(setup, file, stores[1..], draws[1..]) && Resilient(setup, stores[1], file) && AllFresh(Faces(stores[1]), file, draws[1..])
  {
    hide Resilient, Faces, CutOff, AllFresh, CutRows, DistinctKeys, DistinctIds, Fresh, Reached;
    assert CutOff(setup, stores[0], file, draws[0], stores[1]);
    ResilientParts(setup, stores[0], file);
    OneDraw([draws[1]]);
    FreshPair(setup, stores[0], file, draws);
    var c, d := CutIs(setup, stores[0], file, draws[0], draws[1], stores[1]);
    CutFaces(setup, stores[0], file, Drawn(draws[0], draws[1], c), c, d, stores[1]);
    ResilientAgain(setup, stores[0], file, draws[0], draws[1], c, d, stores[1]);
    FreshAfterCut(setup, stores[0], file, draws, c, stores[1]);
    forall a | 0 <= a < |stores[1..]| - 1 ensures CutOff(setup, stores[1..][a], file, draws[1..][a], stores[1..][a + 1]) {
      assert CutOff(setup, stores[a + 1], file, draws[a + 1], stores[a + 2]);
    }
  }

  lemma FreshPair(setup: Setup, base: seq<Row>, file: seq<Option<Entry>>, draws: seq<seq<string>>)
    requires AllFresh(Faces(base), file, draws) && |draws| > 1 && DistinctKeys(setup, file) && DistinctIds(base)
    ensures Draws(setup, base, file, draws[0], draws[1])
  {
    hide Faces, DistinctKeys, DistinctIds, AllFresh;
    assert AllFresh(Faces(base), file, draws) ==> |draws[1]| == |file| by { DrawLengths(Faces(base), file, draws); }
    assert Mixed(draws[1..], draws[1]) by {
      DrawLengths(Faces(base), file, draws);
      assert draws[1..][0] == draws[1];
      assert forall k :: 0 <= k < |draws[1]| ==> draws[1][k] == draws[1..][0][k];
    }
    MixedDraws(setup, base, file, draws, draws[1]);
  }

  lemma DrawLengths(faces: seq<Face>, file: seq<Option<Entry>>, draws: seq<seq<string>>)
    requires AllFresh(faces, file, draws)
    ensures forall a :: 0 <= a < |draws| ==> |draws[a]| == |file|
  {
  }

  // ---- A further run -----------------------------------------------------------------

  lemma HandledImported(setup: Setup, base: seq<Row>, w: Work, e: Entry, id: string)
    ensures HandleFound(setup, base, w, e, id).imported == w.imported + if IsNew(setup, Faces(base), e) then [id] else []
  {
    hide IsNew, Repairable, RestoreStatus, Destination, Strip, KeyOf;
    FoundIsNotNew(setup, base, e);
  }

  lemma {:induction false} ImportedOfRun(setup: Setup, base: seq<Row>, file: seq<Option<Entry>>, ids: seq<string>, n: nat)
    requires Sound(setup, base, file, ids) && n <= |file|
    ensures HandleAll(setup, base, file, ids, n).imported == []
            <==> forall j :: 0 <= j < n && file[j].Some? ==> !IsNew(setup, Faces(base), file[j].value)
  {
    hide DistinctKeys, Fresh, IsNew, HandleFound, Faces;
    if n > 0 {
      ImportedOfRun(setup, base, file, ids, n - 1);
      if file[n - 1].Some? {
        HandlesFound(setup, base, file, ids, n - 1);
        HandledImported(setup, base, HandleAll(setup, base, file, ids, n - 1), file[n - 1].value, ids[n - 1]);
      }
    }
  }

  /** Every new entry has an id whose tag, with its content, some new row of the file carries. */
  predicate EveryNewClaimed(setup: Setup, base: seq<Row>, file: seq<Option<Entry>>) {
    forall j | 0 <= j < |file| && file[j].Some? && IsNew(setup, Faces(base), file[j].value) ::
      file[j].value.id.Some? && FirstClaimant(setup, Faces(base), file, |file|, KeyOf(file[j].value)).Some?
  }

  /** After a whole import the store is as the second run finds it. */
  lemma AfterImport(setup: Setup, base: seq<Row>, file: seq<Option<Entry>>, first: seq<string>, second: seq<string>)
    requires Draws(setup, base, file, first, second)
    ensures var store := Import(setup, base, file, first);
            Reached(setup, base, file, first, |file|, store) && Sound(setup, store, file, second) && DistinctIds(store)
            && CutRows(setup, base, file, first, |file|, |file|, store)
            && LinkedUpTo(setup, base, file, first, |HandleAll(setup, base, file, first, |file|).matched|, store)
  {
    hide DistinctKeys, DistinctIds, Fresh, HandleAll, LinkAll, Repairables, CutRows, Reached;
    var w := HandleAll(setup, base, file, first, |file|);
    assert w.matched[..|w.matched|] == w.matched;
    FreshPart(Faces(base), file, first, second, |file|);
    AllDrawn(first, second);
    LinkCut(setup, base, file, first, |w.matched|, Import(setup, base, file, first));
    SoundAgain(setup, base, file, first, second, |file|, |file|, Import(setup, base, file, first));
  }

  /** After an import, a further run of the same file imports nothing if and only if every row the first run added
      is recognised by the tag of some row it added. */
  lemma FurtherRunImportsNothing(setup: Setup, base: seq<Row>, file: seq<Option<Entry>>, first: seq<string>, second: seq<string>)
    requires Draws(setup, base, file, first, second)
    ensures HandleAll(setup, Import(setup, base, file, first), file, second, |file|).imported == []
            <==> EveryNewClaimed(setup, base, file)
  {
    hide DistinctKeys, DistinctIds, Fresh, HandleAll, Import, CutRows, Reached, LinkedUpTo, Faces, IsNew, FirstClaimant, KeyOf;
    var store := Import(setup, base, file, first);
    AfterImport(setup, base, file, first, second);
    ImportedOfRun(setup, store, file, second, |file|);
    FreshPart(Faces(base), file, first, second, |file|);
    forall j | 0 <= j < |file| && file[j].Some?
      ensures IsNew(setup, Faces(store), file[j].value)
              <==> IsNew(setup, Faces(base), file[j].value)
                   && !(file[j].value.id.Some? && FirstClaimant(setup, Faces(base), file, |file|, KeyOf(file[j].value)).Some?)
    {
      FoundNow(setup, base, file, first, |file|, store, j);
      FoundIsNotNew(setup, base, file[j].value);
      FoundIsNotNew(setup, store, file[j].value);
      NoIdNotFound(base, file[j].value);
    }
  }

  // ---- When an import changes nothing ------------------------------------------------

  /** What each item stands for in a store that knows every one it would add. */
  function Recognised(setup: Setup, store: seq<Row>, file: seq<Option<Entry>>): (r: seq<Option<string>>)
    ensures |r| == |file|
  {
    seq(|file|, k requires 0 <= k < |file| => if EligibleAt(setup, file, k) then Found(store, file[k].value) else None)
  }

  ghost function Copies(store: seq<Row>): set<string> {
    set i | 0 <= i < |store| && IsCopy(Faces(store), store[i].id) :: store[i].id
  }

  predicate NoneNew(setup: Setup, store: seq<Row>, file: seq<Option<Entry>>) {
    forall j | 0 <= j < |file| && file[j].Some? :: !IsNew(setup, Faces(store), file[j].value)
  }

  ghost predicate NoneAsks(setup: Setup, store: seq<Row>, file: seq<Option<Entry>>) {
    forall k | 0 <= k < |file| && Recognised(setup, store, file)[k].Some? && MayRepair(store, Recognised(setup, store, file)[k].value) ::
      file[k].Some? && Quiet(setup, file[k].value)
  }

  ghost predicate NoneToLink(setup: Setup, store: seq<Row>, file: seq<Option<Entry>>) {
    forall i :: 0 <= i < |store| && store[i].closedBy == None ==>
      CloserWith(setup, file, Recognised(setup, store, file), Copies(store), store[i].id) == None
  }

  lemma StandsRecognised(setup: Setup, store: seq<Row>, file: seq<Option<Entry>>, ids: seq<string>)
    requires |ids| == |file| && NoneNew(setup, store, file)
    ensures Stands(setup, store, file, ids) == Recognised(setup, store, file)
    ensures Touchable(setup, store, file, ids) == Copies(store)
    ensures NewRows(setup, store, file, ids, |file|) == []
  {
    hide IsNew, Faces, Found, Eligible, IsCopy, NewRows;
    NoneAdded(setup, store, file, ids, |file|);
    forall k | 0 <= k < |file| ensures Stands(setup, store, file, ids)[k] == Recognised(setup, store, file)[k] {
      if file[k].Some? {
        FoundIsNotNew(setup, store, file[k].value);
      }
    }
  }

  lemma {:induction false} NoneAdded(setup: Setup, store: seq<Row>, file: seq<Option<Entry>>, ids: seq<string>, n: nat)
    requires |ids| == |file| && NoneNew(setup, store, file) && n <= |file|
    ensures NewRows(setup, store, file, ids, n) == []
  {
    hide IsNew, Faces;
    if n > 0 {
      NoneAdded(setup, store, file, ids, n - 1);
    }
  }

  /** Whatever the store and the file, with distinct keys and fresh ids: an import changes nothing if and only if no
      entry is new, none asks for a status of an active copy, and no open row is to be linked. */
  lemma NothingChangesIff(setup: Setup, store: seq<Row>, file: seq<Option<Entry>>, ids: seq<string>)
    requires Sound(setup, store, file, ids) && DistinctIds(store)
    ensures Import(setup, store, file, ids) == store
            <==> NoneNew(setup, store, file) && NoneAsks(setup, store, file) && NoneToLink(setup, store, file)
  {
    hide DistinctKeys, DistinctIds, Fresh, Faces, HandleAll, Import, RowsAre, LinksMade, NoneAsks, NoneToLink, NoneNew, Stands, Touchable;
    ImportMade(setup, store, file, ids);
    if NoneNew(setup, store, file) {
      StandsRecognised(setup, store, file, ids);
      RowsUnchanged(setup, store, file, ids, HandleAll(setup, store, file, ids, |file|).rows);
      LinksUnchanged(setup, store, file, ids, HandleAll(setup, store, file, ids, |file|).rows);
    } else {
      SomeAdded(setup, store, file, ids);
    }
  }

  lemma SomeAdded(setup: Setup, store: seq<Row>, file: seq<Option<Entry>>, ids: seq<string>)
    requires Sound(setup, store, file, ids) && DistinctIds(store) && !NoneNew(setup, store, file)
    ensures |Import(setup, store, file, ids)| > |store|
  {
    hide DistinctKeys, DistinctIds, Fresh, Faces, HandleAll, Import, IsNew, StatusNow, NewRows, Stands, Touchable, ClosedBy, NewlyCloses;
    ImportMade(setup, store, file, ids);
    var j :| 0 <= j < |file| && file[j].Some? && IsNew(setup, Faces(store), file[j].value);
    RowOfNew(setup, store, file, ids, |file|, j);
  }

  lemma RowsUnchanged(setup: Setup, store: seq<Row>, file: seq<Option<Entry>>, ids: seq<string>, rows: seq<Row>)
    requires Sound(setup, store, file, ids) && DistinctIds(store) && RowsAre(setup, store, file, ids, |file|, |file|, rows)
    requires NewRows(setup, store, file, ids, |file|) == [] && Stands(setup, store, file, ids) == Recognised(setup, store, file)
    ensures |rows| == |store| && forall i :: 0 <= i < |rows| ==> rows[i] == store[i].(status := rows[i].status)
    ensures rows == store <==> NoneAsks(setup, store, file)
  {
    hide DistinctKeys, DistinctIds, Fresh, Faces, NewRows, Stands, SetBy, MayRepair, IsRow, Recognised;
    assert store + [] == store;
    var stands := Recognised(setup, store, file);
    forall i | 0 <= i < |store|
      ensures rows[i].status == store[i].status
              <==> (MayRepair(store, store[i].id) ==> SetBy(setup, file, stands, |file|, store[i].id) == None)
    {
      FaceAt(store, i);
      StatusAt(store, i);
      GivenIsRestored(setup, file, stands, |file|, store[i].id);
      MayRepairActive(store, store[i].id);
    }
    AsksIff(setup, store, file);
  }

  lemma MayRepairActive(store: seq<Row>, x: string)
    ensures MayRepair(store, x) ==> StatusOf(store, x) == Some("active")
  {
  }

  lemma AsksIff(setup: Setup, store: seq<Row>, file: seq<Option<Entry>>)
    requires DistinctIds(store)
    ensures NoneAsks(setup, store, file)
            <==> forall i :: 0 <= i < |store| && MayRepair(store, store[i].id) ==>
                   SetBy(setup, file, Recognised(setup, store, file), |file|, store[i].id) == None
  {
    hide DistinctIds, Faces, SetBy, MayRepair, IsRow, Quiet, Found, Restored, Eligible;
    var stands := Recognised(setup, store, file);
    if NoneAsks(setup, store, file) {
      forall i | 0 <= i < |store| && MayRepair(store, store[i].id) ensures SetBy(setup, file, stands, |file|, store[i].id) == None {
        if SetBy(setup, file, stands, |file|, store[i].id).Some? {
          var k := Giver(setup, file, stands, |file|, store[i].id);
        }
      }
    } else {
      var k :| 0 <= k < |file| && stands[k].Some? && MayRepair(store, stands[k].value) && !(file[k].Some? && Quiet(setup, file[k].value));
      var x := stands[k].value;
      FoundIsRow(store, file[k].value);
      var i := RowAt(store, x);
      SetByNext(setup, file, stands, k, x);
      GivenStays(setup, file, stands, k + 1, x);
    }
  }

  lemma LinksUnchanged(setup: Setup, store: seq<Row>, file: seq<Option<Entry>>, ids: seq<string>, rows: seq<Row>)
    requires |ids| == |file| && |rows| == |store| && (forall i :: 0 <= i < |rows| ==> rows[i] == store[i].(status := rows[i].status))
    requires LinksMade(setup, rows, MatchedAs(file, Recognised(setup, store, file), |file|),
                       DestinationsAs(file, Recognised(setup, store, file), |file|), Copies(store), Import(setup, store, file, ids))
    ensures Import(setup, store, file, ids) == store <==> rows == store && NoneToLink(setup, store, file)
  {
    hide FirstCloser, Recognised, Copies, Import, MatchedAs, DestinationsAs;
    var after, stands := Import(setup, store, file, ids), Recognised(setup, store, file);
    var matched, destinations := MatchedAs(file, stands, |file|), DestinationsAs(file, stands, |file|);
    if after == store {
      forall i | 0 <= i < |rows| ensures rows[i] == store[i] && (store[i].closedBy == None ==>
                                           CloserWith(setup, file, stands, Copies(store), store[i].id) == None)
      {
        assert after[i].status == rows[i].status;
      }
    }
    if rows == store && NoneToLink(setup, store, file) {
      forall c, x ensures !NewlyCloses(setup, rows, matched, destinations, Copies(store), c, x) { }
      hide NewlyCloses;
      forall i | 0 <= i < |rows| ensures after[i] == store[i] {
        assert CloserWith(setup, file, stands, Copies(store), store[i].id)
               == FirstCloser(setup, matched, destinations, Copies(store), store[i].id);
        assert after[i].supersedes == rows[i].supersedes;
      }
    }
  }

  /** After an import, a further run of the same file changes nothing if and only if every row the first run added is
      recognised, and no entry asks for a status, or a link, that the store has not. */
  lemma FurtherRunChangesNothing(setup: Setup, base: seq<Row>, file: seq<Option<Entry>>, first: seq<string>, second: seq<string>)
    requires Draws(setup, base, file, first, second)
    ensures var store := Import(setup, base, file, first);
            Import(setup, store, file, second) == store
            <==> EveryNewClaimed(setup, base, file) && NoneAsks(setup, store, file) && NoneToLink(setup, store, file)
  {
    hide DistinctKeys, DistinctIds, Fresh, HandleAll, Import, CutRows, Reached, LinkedUpTo, Faces, IsNew, EveryNewClaimed, NoneAsks,
      NoneToLink;
    var store := Import(setup, base, file, first);
    AfterImport(setup, base, file, first, second);
    FurtherRunImportsNothing(setup, base, file, first, second);
    ImportedOfRun(setup, store, file, second, |file|);
    NothingChangesIff(setup, store, file, second);
  }

  /** It never does if every new row carries its own entry's tag and no later new entry's, and there are no strays. */
  lemma OneImportIsEnough(setup: Setup, base: seq<Row>, file: seq<Option<Entry>>, first: seq<string>, second: seq<string>)
    requires Draws(setup, base, file, first, second) && Regular(setup, Faces(base), file) && NoStrays(setup, base, file)
    ensures Import(setup, Import(setup, base, file, first), file, second) == Import(setup, base, file, first)
  {
    hide DistinctKeys, DistinctIds, Fresh, HandleAll, Import, CutRows, Reached, LinkedUpTo, Faces, Regular, NoStrays, NewRows,
      Stands, StandsLater, Touchable, CloserWith, StatusNow;
    var store := Import(setup, base, file, first);
    AfterImport(setup, base, file, first, second);
    AllDrawn(first, second);
    NothingToAdd(setup, base, file, first, second, store);
    forall i | 0 <= i < |store| ensures HandleAll(setup, store, file, second, |file|).rows[i] == store[i] {
      SameStatusAgain(setup, base, file, first, second, store, i);
    }
    LaterIsNow(setup, base, file, first, |file|);
    ResumeLinks(setup, base, file, first, second, |HandleAll(setup, base, file, first, |file|).matched|, store);
  }

  lemma SameStatusAgain(setup: Setup, base: seq<Row>, file: seq<Option<Entry>>, first: seq<string>, second: seq<string>,
                        store: seq<Row>, i: nat)
    requires Draws(setup, base, file, first, second) && Regular(setup, Faces(base), file) && NoStrays(setup, base, file)
    requires CutRows(setup, base, file, first, |file|, |file|, store) && i < |store|
    ensures i < |HandleAll(setup, store, file, second, |file|).rows|
    ensures HandleAll(setup, store, file, second, |file|).rows[i].status == store[i].status
  {
    hide DistinctKeys, DistinctIds, Fresh, HandleAll, Faces, Regular, NoStrays, NewRows, Stands, StatusNow, SetBy, MayRepair, IsNew,
      ClaimedStatus, OwnStatus;
    AllDrawn(first, second);
    RowsAgain(setup, base, file, first, second, |file|, |file|, store);
    if i < |base| {
      OldRowAgain(setup, base, file, first, second, |file|, |file|, store, i);
    } else {
      var j := ItemOf(setup, base, file, first, |file|, i);
      OnlyItselfClaims(setup, base, file, |file|, j);
      NewRowAgain(setup, base, file, first, second, |file|, |file|, store, i, j);
    }
  }
}
