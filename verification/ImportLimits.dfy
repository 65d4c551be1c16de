/** Files for which an interrupted import does not end as an uninterrupted one, and what becomes of them. */
module ImportLimits {
  import opened Basics
  import opened TextLines
  import opened ImportModel
  import opened ImportRecognition
  import opened ImportPhases
  import opened ImportResume
  import opened ImportStatuses
  import opened ImportTheorems
  import opened ImportInterruption
  import opened ImportRun

  predicate Taken(setup: Setup, e: Entry) {
    Eligible(setup, e) && setup.verdict(e) == Recorded && e.id.Some? && Tagged(e)
  }

  lemma NothingYet(setup: Setup, e: Entry, id: string, w: Work)
    requires Taken(setup, e) && KeyOf(e) !in w.added
    ensures Handle(setup, [], w, e, id).rows == RestoreStatus(setup, Created(w, e, id), e, id)
    ensures Handle(setup, [], w, e, id).added == w.added[KeyOf(e) := id]
  {
    hide RestoreStatus, Created, KeyOf, Seen, Strip, Passes, Tagged;
    assert Faces([]) == [];
    assert !HasOwn(Faces([]), KeyOf(e)) && FirstClaim(Faces([]), KeyOf(e)) == None;
  }

  lemma RestoreLength(setup: Setup, rows: seq<Row>, e: Entry, id: string)
    ensures |RestoreStatus(setup, rows, e, id)| == |rows|
  {
  }

  lemma {:induction false} LinksLength(setup: Setup, rows: seq<Row>, matched: seq<(Entry, string)>,
                                       destinations: map<string, set<string>>, repairable: set<string>)
    ensures |LinkAll(setup, rows, matched, destinations, repairable)| == |rows|
    decreases |matched|
  {
    if matched != [] {
      LinksLength(setup, rows, matched[..|matched| - 1], destinations, repairable);
    }
  }

  /** An uninterrupted import of two entries with different keys into an empty store adds two rows. */
  lemma BothAdded(setup: Setup, a: Entry, b: Entry, ids: seq<string>)
    requires Taken(setup, a) && Taken(setup, b) && KeyOf(a) != KeyOf(b) && |ids| == 2
    ensures |Import(setup, [], [Some(a), Some(b)], ids)| == 2
  {
    hide Handle, KeyOf, Taken, RestoreStatus, LinkAll, Repairables;
    var file := [Some(a), Some(b)];
    var w1 := HandleAll(setup, [], file, ids, 1);
    assert HandleAll(setup, [], file, ids, 0) == Start([]);
    assert w1 == Handle(setup, [], Start([]), a, ids[0]);
    NothingYet(setup, a, ids[0], Start([]));
    RestoreLength(setup, Created(Start([]), a, ids[0]), a, ids[0]);
    var w2 := HandleAll(setup, [], file, ids, 2);
    assert w2 == Handle(setup, [], w1, b, ids[1]);
    NothingYet(setup, b, ids[1], w1);
    RestoreLength(setup, Created(w1, b, ids[1]), b, ids[1]);
    LinksLength(setup, w2.rows, w2.matched, w2.destinations, Repairables([], w2));
  }

  /** A row that carries another entry's tag and content is taken for it. */
  lemma TakenFor(setup: Setup, base: seq<Row>, w: Work, a: Entry, id: string, e: Entry, other: string)
    requires |base| == 1 && FaceOf(base[0]) == BirthFace(a, id) && Eligible(setup, e) && e.id.Some? && WouldClaim(a, KeyOf(e))
    ensures |Handle(setup, base, w, e, other).rows| == |w.rows| && Handle(setup, base, w, e, other).added == w.added
  {
    hide RestoreStatus, KeyOf, Eligible, Seen;
    assert Faces(base) == [BirthFace(a, id)];
    assert FirstClaim(Faces(base), KeyOf(e)) == Some(id) by {
      assert Claims(BirthFace(a, id), KeyOf(e));
    }
    if Lookup(base, w, e).Some? {
      RestoreLength(setup, w.rows, e, Lookup(base, w, e).value);
    }
  }

  /** If one entry brings along another's tag and content, cutting the import off between the two and
      running it again loses the second: the resumed import ends with one row instead of two. */
  lemma CrossClaimLosesRow(setup: Setup, a: Entry, b: Entry, first: seq<string>, second: seq<string>)
    requires Taken(setup, a) && Taken(setup, b) && KeyOf(a) != KeyOf(b) && WouldClaim(a, KeyOf(b))
    requires |first| == |second| == 2
    ensures var file := [Some(a), Some(b)];
            var mid := HandleAll(setup, [], file, first, 1).rows;
            && CutOff(setup, [], file, first, mid) && |Import(setup, mid, file, second)| == 1
            && forall ids: seq<string> :: |ids| == 2 ==> |Import(setup, [], file, ids)| == 2
  {
    hide Handle, Created, NewRow, LinkAll, Repairables, RestoreStatus, Eligible, WouldClaim, KeyOf, BirthFace;
    var file := [Some(a), Some(b)];
    var w1 := HandleAll(setup, [], file, first, 1);
    assert HandleAll(setup, [], file, first, 0) == Start([]);
    assert w1 == Handle(setup, [], Start([]), a, first[0]);
    NothingYet(setup, a, first[0], Start([]));
    OneRow(setup, a, first[0]);
    var mid := w1.rows;
    OwnClaim(a);
    var v1 := HandleAll(setup, mid, file, second, 1);
    assert HandleAll(setup, mid, file, second, 0) == Start(mid);
    assert v1 == Handle(setup, mid, Start(mid), a, second[0]);
    TakenFor(setup, mid, Start(mid), a, first[0], a, second[0]);
    var v2 := HandleAll(setup, mid, file, second, 2);
    assert v2 == Handle(setup, mid, v1, b, second[1]);
    TakenFor(setup, mid, v1, a, first[0], b, second[1]);
    LinksLength(setup, v2.rows, v2.matched, v2.destinations, Repairables(mid, v2));
    forall ids: seq<string> | |ids| == 2 ensures |Import(setup, [], file, ids)| == 2 {
      BothAdded(setup, a, b, ids);
    }
  }

  lemma OneRow(setup: Setup, a: Entry, id: string)
    ensures var rows := RestoreStatus(setup, Created(Start([]), a, id), a, id);
            |rows| == 1 && FaceOf(rows[0]) == BirthFace(a, id)
  {
    hide DigestOf, RowTags;
  }

  // ---- One row standing for two entries ----------------------------------------------

  /** The row is an earlier import's, and `e` is recognised as it. */
  predicate StandsFor(x: Row, e: Entry) {
    e.id.Some? && Claims(FaceOf(x), KeyOf(e)) && !IsOwn(FaceOf(x), KeyOf(e))
  }

  lemma RecognisedAs(setup: Setup, x: Row, w: Work, e: Entry, id: string)
    requires Eligible(setup, e) && StandsFor(x, e) && KeyOf(e) !in w.added
    ensures Handle(setup, [x], w, e, id) == Recognise(setup, [x], w, e, x.id)
    ensures Repairable([x], w, x.id)
  {
    hide Recognise, KeyOf, DigestOf, Passes, Strip;
    assert Faces([x]) == [FaceOf(x)];
    assert FirstClaim([FaceOf(x)], KeyOf(e)) == Some(x.id);
    assert !HasOwn([FaceOf(x)], KeyOf(e));
    assert IsCopy(Faces([x]), x.id);
  }

  /** The row gets the entry's status if it was active when the run began, and keeps the one it has otherwise. */
  lemma RecognisedRow(setup: Setup, x: Row, y: Row, w: Work, e: Entry, id: string)
    requires Eligible(setup, e) && StandsFor(x, e) && KeyOf(e) !in w.added && w.rows == [y] && y.id == x.id && !Quiet(setup, e)
    ensures var u := Handle(setup, [x], w, e, id);
            && u.rows == [if x.status == "active" then y.(status := Restored(e.status.value)) else y]
            && u.added == w.added && u.matched == w.matched + [(e, x.id)]
  {
    hide Handle, Eligible, StandsFor, KeyOf, Repairable, Seen, Quiet;
    RecognisedAs(setup, x, w, e, id);
  }

  lemma NoneSuperseded(setup: Setup, rows: seq<Row>, matched: seq<(Entry, string)>, destinations: map<string, set<string>>,
                       repairable: set<string>)
    requires forall i :: 0 <= i < |matched| ==> !matched[i].0.superseded
    ensures LinkAll(setup, rows, matched, destinations, repairable) == rows
    decreases |matched|
  {
    if matched != [] {
      NoneSuperseded(setup, rows, matched[..|matched| - 1], destinations, repairable);
    }
  }

  lemma BothRecognised(setup: Setup, x: Row, a: Entry, b: Entry, ids: seq<string>)
    requires Eligible(setup, a) && Eligible(setup, b) && StandsFor(x, a) && StandsFor(x, b) && |ids| == 2
    requires !Quiet(setup, a) && !Quiet(setup, b) && !a.superseded && !b.superseded
    ensures var file := [Some(a), Some(b)];
            && HandleAll(setup, [x], file, ids, 1).rows
               == [if x.status == "active" then x.(status := Restored(a.status.value)) else x]
            && Import(setup, [x], file, ids) == [if x.status == "active" then x.(status := Restored(b.status.value)) else x]
  {
    hide Handle, Eligible, StandsFor, KeyOf, Quiet, LinkAll, Repairables;
    var file := [Some(a), Some(b)];
    assert HandleAll(setup, [x], file, ids, 0) == Start([x]);
    var w1 := HandleAll(setup, [x], file, ids, 1);
    assert w1 == Handle(setup, [x], Start([x]), a, ids[0]);
    RecognisedRow(setup, x, x, Start([x]), a, ids[0]);
    var w2 := HandleAll(setup, [x], file, ids, 2);
    assert w2 == Handle(setup, [x], w1, b, ids[1]);
    RecognisedRow(setup, x, w1.rows[0], w1, b, ids[1]);
    NoneSuperseded(setup, w2.rows, w2.matched, w2.destinations, Repairables([x], w2));
  }

  /** If one earlier import's row stands for two entries of different status, the uninterrupted import leaves it
      with the last entry's status, and one cut off between the two and run again with the first's. */
  lemma SharedRowDiverges(setup: Setup, x: Row, a: Entry, b: Entry, first: seq<string>, second: seq<string>)
    requires Eligible(setup, a) && Eligible(setup, b) && StandsFor(x, a) && StandsFor(x, b)
    requires x.status == "active" && !Quiet(setup, a) && !Quiet(setup, b) && !a.superseded && !b.superseded
    requires |first| == |second| == 2
    ensures var file := [Some(a), Some(b)];
            var mid := HandleAll(setup, [x], file, first, 1).rows;
            && CutOff(setup, [x], file, first, mid)
            && Import(setup, mid, file, second) == [x.(status := Restored(a.status.value))]
            && forall ids: seq<string> :: |ids| == 2 ==>
                 Import(setup, [x], file, ids) == [x.(status := Restored(b.status.value))]
  {
    hide HandleAll, Eligible, KeyOf, Import;
    BothRecognised(setup, x, a, b, first);
    var y := x.(status := Restored(a.status.value));
    assert StandsFor(y, a) && StandsFor(y, b);
    BothRecognised(setup, y, a, b, second);
    forall ids: seq<string> | |ids| == 2
      ensures Import(setup, [x], [Some(a), Some(b)], ids) == [x.(status := Restored(b.status.value))]
    {
      BothRecognised(setup, x, a, b, ids);
    }
  }

  // ---- An entry the store turns away -------------------------------------------------

  /** If the store turns an entry away for which an earlier new row would be taken, and the entry asks for a status
      which the row's own does not, some interruption shows. */
  lemma StrayDiverges(setup: Setup, a: Entry, b: Entry, first: seq<string>, second: seq<string>)
    requires Taken(setup, a) && Quiet(setup, a) && Eligible(setup, b) && b.id.Some? && setup.verdict(b) != Recorded
    requires WouldClaim(a, KeyOf(b)) && !Quiet(setup, b) && Draws(setup, [], [Some(a), Some(b)], first, second)
    ensures !AlwaysCompletes(setup, [], [Some(a), Some(b)], first, second)
  {
    hide KeyOf, WouldClaim, Eligible, AlwaysCompletes, DistinctKeys, Fresh, DistinctIds, AllTagged, NoneTakenOver,
      OneStatusEach, StraysLinkNothing, Restored, Tagged;
    var file := [Some(a), Some(b)];
    ResumesIff(setup, [], file, first, second);
    UnknownToNone(a);
    UnknownToNone(b);
    FoundIsNotNew(setup, [], a);
    FoundIsNotNew(setup, [], b);
    assert NewClaims(setup, Faces([]), file, 0, KeyOf(b));
    assert StandsWith(setup, [], file, 1, 0);
    assert ClaimedStatus(setup, [], file, 2, 0) == Some(Restored(b.status.value));
  }

  lemma UnknownToNone(e: Entry)
    ensures Found([], e) == None
  {
    assert Faces([]) == [];
  }
}
