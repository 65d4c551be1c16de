/** Exactly when an import can be cut off after any write and run again. */
module ImportInterruption {
  import opened Basics
  import opened TextLines
  import opened ImportModel
  import opened ImportRecognition
  import opened ImportPhases
  import opened ImportLinks
  import opened ImportResume
  import opened ImportStatuses
  import opened ImportTheorems

  // ---- The condition -----------------------------------------------------------------

  /** Entries the store turned away, recognised as new rows the second time, change no open row's closer. */
  ghost predicate StraysLinkNothing(setup: Setup, base: seq<Row>, file: seq<Option<Entry>>, first: seq<string>, second: seq<string>)
    requires |first| == |file| == |second|
  {
    forall c | 0 <= c <= |file| :: LinksTheSame(setup, base, file, Drawn(first, second, c), c)
  }

  ghost predicate Resumable(setup: Setup, base: seq<Row>, file: seq<Option<Entry>>, first: seq<string>, second: seq<string>)
    requires |first| == |file| == |second|
  {
    && AllTagged(setup, Faces(base), file) && NoneTakenOver(setup, Faces(base), file)
    && OneStatusEach(setup, base, file) && StraysQuiet(setup, base, file) && StraysLinkNothing(setup, base, file, first, second)
  }

  // ---- The stores an import may be cut off with --------------------------------------

  lemma BetweenCut(setup: Setup, base: seq<Row>, file: seq<Option<Entry>>, first: seq<string>, second: seq<string>, c: nat)
    requires Draws(setup, base, file, first, second) && c <= |file|
    ensures var h, mid := Drawn(first, second, c), HandleAll(setup, base, file, first, c).rows;
            CutRows(setup, base, file, h, c, c, mid) && Unlinked(setup, base, file, h, c, mid) && CutOff(setup, base, file, first, mid)
  {
    hide DistinctKeys, Fresh, HandleAll, NewRows, StatusNow, NewAt, LinkedUpTo;
    var h := Drawn(first, second, c);
    FreshPart(Faces(base), file, first, second, c);
    assert first[..c] == h[..c];
    SamePrefix(setup, base, file, first, h, c);
    RowsOfRun(setup, base, file, h, c);
  }

  lemma NewAtIs(setup: Setup, base: seq<Row>, file: seq<Option<Entry>>, ids: seq<string>, n: nat)
    requires Sound(setup, base, file, ids) && n < |file|
    ensures NewAt(setup, base, file, ids, n) <==> file[n].Some? && IsNew(setup, Faces(base), file[n].value)
  {
    hide DistinctKeys, Fresh, HandleAll, Lookup, Found;
    if file[n].Some? {
      FoundIsNotNew(setup, base, file[n].value);
      if EligibleAt(setup, file, n) {
        LooksUpStart(setup, base, file, ids, n);
      }
    }
  }

  lemma CreatedCut(setup: Setup, base: seq<Row>, file: seq<Option<Entry>>, first: seq<string>, second: seq<string>, n: nat)
    requires Draws(setup, base, file, first, second) && n < |file| && file[n].Some? && IsNew(setup, Faces(base), file[n].value)
    ensures var h, mid := Drawn(first, second, n + 1), Created(HandleAll(setup, base, file, first, n), file[n].value, first[n]);
            && CutRows(setup, base, file, h, n + 1, n, mid) && Unlinked(setup, base, file, h, n + 1, mid)
            && CutOff(setup, base, file, first, mid)
  {
    hide DistinctKeys, Fresh, HandleAll, NewRows, StatusNow, NewAt, LinkedUpTo, IsNew;
    var h := Drawn(first, second, n + 1);
    FreshPart(Faces(base), file, first, second, n + 1);
    assert first[..n] == h[..n];
    SamePrefix(setup, base, file, first, h, n);
    NewAtIs(setup, base, file, first, n);
    RowsOfRun(setup, base, file, h, n);
    AddedAre(setup, base, file, h, n, HandleAll(setup, base, file, h, n).rows);
  }

  lemma LinkCut(setup: Setup, base: seq<Row>, file: seq<Option<Entry>>, ids: seq<string>, m: nat, mid: seq<Row>)
    requires Sound(setup, base, file, ids) && DistinctIds(base) && LinkedUpTo(setup, base, file, ids, m, mid)
    ensures CutRows(setup, base, file, ids, |file|, |file|, mid)
    ensures var matched, rows := MatchedAs(file, Stands(setup, base, file, ids), |file|), HandleAll(setup, base, file, ids, |file|).rows;
            && m <= |matched|
            && LinksMade(setup, rows, matched[..m], DestinationsAs(file, Stands(setup, base, file, ids), |file|),
                         Touchable(setup, base, file, ids), mid)
  {
    hide DistinctKeys, Fresh, HandleAll, NewRows, StatusNow, Stands, Touchable, LinkAll, Repairable, LinksMade;
    var w := HandleAll(setup, base, file, ids, |file|);
    ImportMade(setup, base, file, ids);
    MatchesOfRun(setup, base, file, ids, |file|);
    TouchableOfRun(setup, base, file, ids);
    LinksKeep(setup, w.rows, w.matched[..m], w.destinations, Repairables(base, w));
    LinksAsExported(setup, w.rows, w.matched[..m], w.destinations, Repairables(base, w));
  }

  lemma AllDrawn(first: seq<string>, second: seq<string>)
    requires |first| == |second|
    ensures Drawn(first, second, |first|) == first
  {
  }

  // ---- The condition suffices --------------------------------------------------------

  /** Cut off in the second phase: if the second run's first phase changes no status, the links are completed. */
  lemma ResumeLinks(setup: Setup, base: seq<Row>, file: seq<Option<Entry>>, first: seq<string>, second: seq<string>, m: nat, mid: seq<Row>)
    requires Draws(setup, base, file, first, second) && Regular(setup, Faces(base), file)
    requires LinkedUpTo(setup, base, file, first, m, mid) && LinksTheSame(setup, base, file, first, |file|)
    requires Sound(setup, mid, file, second) && HandleAll(setup, mid, file, second, |file|).rows == mid
    ensures Import(setup, mid, file, second) == Import(setup, base, file, first)
  {
    hide DistinctKeys, Fresh, Regular, Faces, NewRows, Stands, StandsLater, CutRows, HandleAll, Touchable, Import, LinksMade,
      MatchedAs, DestinationsAs, FirstCloser, StatusNow, LinkedUpTo;
    FreshPart(Faces(base), file, first, second, |file|);
    AllDrawn(first, second);
    LinkCut(setup, base, file, first, m, mid);
    var rows, rep := HandleAll(setup, base, file, first, |file|).rows, Touchable(setup, base, file, first);
    var stands, later := Stands(setup, base, file, first), StandsLater(setup, base, file, first, |file|);
    SoundAgain(setup, base, file, first, second, |file|, |file|, mid);
    StandsAgain(setup, base, file, first, second, |file|, mid);
    TouchableAgain(setup, base, file, first, second, |file|, mid);
    ImportMade(setup, base, file, first);
    ImportMade(setup, mid, file, second);
    var all := base + NewRows(setup, base, file, first, |file|);
    forall i | 0 <= i < |rows| ensures rows[i].id == all[i].id && rows[i].closedBy == all[i].closedBy { }
    LinksCompose(setup, rows, MatchedAs(file, stands, |file|), m, DestinationsAs(file, stands, |file|),
                 MatchedAs(file, later, |file|), DestinationsAs(file, later, |file|), rep,
                 mid, Import(setup, mid, file, second), Import(setup, base, file, first));
  }

  /** With every row there, the second run's first phase changes nothing if it changes no status. */
  lemma NothingToAdd(setup: Setup, base: seq<Row>, file: seq<Option<Entry>>, first: seq<string>, second: seq<string>, mid: seq<Row>)
    requires Draws(setup, base, file, first, second) && Regular(setup, Faces(base), file)
    requires CutRows(setup, base, file, first, |file|, |file|, mid)
    ensures var b := HandleAll(setup, mid, file, second, |file|).rows;
            && |b| == |mid| == |HandleAll(setup, base, file, first, |file|).rows|
            && forall i :: 0 <= i < |mid| ==>
                 && b[i] == mid[i].(status := b[i].status)
                 && mid[i].status == HandleAll(setup, base, file, first, |file|).rows[i].status
  {
    hide DistinctKeys, Fresh, Regular, Faces, NewRows, Stands, HandleAll, StatusNow;
    AllDrawn(first, second);
    RowsAgain(setup, base, file, first, second, |file|, |file|, mid);
  }

  lemma ResumeLinking(setup: Setup, base: seq<Row>, file: seq<Option<Entry>>, first: seq<string>, second: seq<string>, m: nat, mid: seq<Row>)
    requires Draws(setup, base, file, first, second) && Resumable(setup, base, file, first, second)
    requires LinkedUpTo(setup, base, file, first, m, mid)
    ensures Import(setup, mid, file, second) == Import(setup, base, file, first)
  {
    hide DistinctKeys, Fresh, AllTagged, NoneTakenOver, Faces, HandleAll, Import, LinkedUpTo, OneStatusEach, StraysQuiet, CutRows,
      LinksTheSame;
    AllDrawn(first, second);
    FreshPart(Faces(base), file, first, second, |file|);
    LinkCut(setup, base, file, first, m, mid);
    SoundAgain(setup, base, file, first, second, |file|, |file|, mid);
    NothingToAdd(setup, base, file, first, second, mid);
    forall i | 0 <= i < |mid| ensures HandleAll(setup, mid, file, second, |file|).rows[i] == mid[i] {
      StatusesAgain(setup, base, file, first, second, |file|, |file|, mid, i);
    }
    assert LinksTheSame(setup, base, file, Drawn(first, second, |file|), |file|);
    ResumeLinks(setup, base, file, first, second, m, mid);
  }

  /**
   Cut off after any write and run again, an import ends in the store of an uninterrupted run that
   draws the ids of the first run up to the cut and those of the second after it.
   */
  lemma ResumedImportCompletes(setup: Setup, base: seq<Row>, file: seq<Option<Entry>>, first: seq<string>,
                               second: seq<string>, mid: seq<Row>)
    requires Draws(setup, base, file, first, second) && Resumable(setup, base, file, first, second)
    requires CutOff(setup, base, file, first, mid)
    ensures Completes(setup, base, file, first, second, mid)
  {
    hide DistinctKeys, Fresh, AllTagged, NoneTakenOver, Faces, HandleAll, Import, LinkedUpTo, OneStatusEach, StraysQuiet, CutRows,
      LinksTheSame, Unlinked, Lookup, Eligible, Created;
    if n :| 0 <= n <= |file| && mid == HandleAll(setup, base, file, first, n).rows {
      BetweenCut(setup, base, file, first, second, n);
      ResumeRows(setup, base, file, first, second, n, n, mid);
    } else if n :| 0 <= n < |file| && NewAt(setup, base, file, first, n)
                   && mid == Created(HandleAll(setup, base, file, first, n), file[n].value, first[n]) {
      FreshPart(Faces(base), file, first, second, n);
      NewAtIs(setup, base, file, first, n);
      CreatedCut(setup, base, file, first, second, n);
      ResumeRows(setup, base, file, first, second, n + 1, n, mid);
    } else {
      var m: nat :| LinkedUpTo(setup, base, file, first, m, mid);
      ResumeLinking(setup, base, file, first, second, m, mid);
      AllDrawn(first, second);
    }
  }

  // ---- Which rows an import ends with ------------------------------------------------

  lemma ImportFaces(setup: Setup, base: seq<Row>, file: seq<Option<Entry>>, ids: seq<string>)
    requires Sound(setup, base, file, ids) && DistinctIds(base)
    ensures Faces(Import(setup, base, file, ids)) == Faces(base) + Born(setup, Faces(base), file, ids, |file|)
  {
    hide DistinctKeys, Fresh, HandleAll, Born, Stands, Touchable, MatchedAs, DestinationsAs, Import, ClosedBy, NewlyCloses, RowsAre;
    var rows, after := HandleAll(setup, base, file, ids, |file|).rows, Import(setup, base, file, ids);
    ImportMade(setup, base, file, ids);
    FacesOfRun(setup, base, file, ids, |file|);
    forall i | 0 <= i < |rows| ensures FaceOf(after[i]) == FaceOf(rows[i]) { }
    assert Faces(after) == Faces(rows);
  }

  lemma RowJoined(a: seq<Face>, b: seq<Face>, x: string)
    ensures IsRow(a + b, x) <==> IsRow(a, x) || IsRow(b, x)
  {
    if i :| 0 <= i < |a| && a[i].id == x {
      assert (a + b)[i].id == x;
    }
    if i :| 0 <= i < |b| && b[i].id == x {
      assert (a + b)[|a| + i].id == x;
    }
  }

  lemma RowWithBorn(setup: Setup, faces: seq<Face>, file: seq<Option<Entry>>, ids: seq<string>, n: nat, x: string)
    requires n <= |file| == |ids|
    ensures IsRow(faces + Born(setup, faces, file, ids, n), x)
            <==> IsRow(faces, x) || exists j :: 0 <= j < n && file[j].Some? && IsNew(setup, faces, file[j].value) && ids[j] == x
  {
    hide IsNew, Born;
    var born := Born(setup, faces, file, ids, n);
    BornAre(setup, faces, file, ids, n);
    RowJoined(faces, born, x);
    if j :| 0 <= j < n && file[j].Some? && IsNew(setup, faces, file[j].value) && ids[j] == x {
      var i :| 0 <= i < |born| && born[i] == BirthFace(file[j].value, ids[j]);
      assert IsRow(born, x);
    }
    if i :| 0 <= i < |born| && born[i].id == x {
      assert born[i] in born;
    }
  }

  /** The ids of the rows an import ends with. */
  lemma EndsWith(setup: Setup, base: seq<Row>, file: seq<Option<Entry>>, ids: seq<string>, x: string)
    requires Sound(setup, base, file, ids) && DistinctIds(base)
    ensures IsRow(Faces(Import(setup, base, file, ids)), x)
            <==> IsRow(Faces(base), x) || exists j :: 0 <= j < |file| && file[j].Some? && IsNew(setup, Faces(base), file[j].value) && ids[j] == x
  {
    hide DistinctKeys, Fresh, IsNew, Born, IsRow, Faces, Import;
    ImportFaces(setup, base, file, ids);
    RowWithBorn(setup, Faces(base), file, ids, |file|, x);
  }

  /** The draws: a fresh id is no row of the store, and drawn once. */
  lemma DrawnApart(setup: Setup, base: seq<Row>, file: seq<Option<Entry>>, first: seq<string>, second: seq<string>, c: nat, k: nat, j: nat)
    requires Draws(setup, base, file, first, second) && c <= |file| && k < |file| && j < |file|
    ensures Drawn(first, second, c)[k] == first[j] <==> k == j && j < c
    ensures Drawn(first, second, c)[k] == second[j] <==> k == j && j >= c
    ensures !IsRow(Faces(base), first[j]) && !IsRow(Faces(base), second[j])
  {
    hide DistinctKeys, Fresh, Faces, IsRow, DistinctIds;
    FreshPart(Faces(base), file, first, second, c);
    DrawsApart(base, file, first, second, k, j);
    DrawsApart(base, file, first, second, j, k);
    FreshIsNoRow(base, file, first, j);
    FreshIsNoRow(base, file, second, j);
  }

  // ---- The condition is needed -------------------------------------------------------

  /** What the second run starts from. */
  lemma CutSound(setup: Setup, base: seq<Row>, file: seq<Option<Entry>>, first: seq<string>, second: seq<string>, c: nat)
    requires Draws(setup, base, file, first, second) && c <= |file|
    ensures var mid := HandleAll(setup, base, file, first, c).rows;
            && Sound(setup, mid, file, second) && DistinctIds(mid) && CutOff(setup, base, file, first, mid)
            && Sound(setup, base, file, Drawn(first, second, c)) && Reached(setup, base, file, Drawn(first, second, c), c, mid)
  {
    hide DistinctKeys, Fresh, HandleAll, CutRows, Unlinked, Reached;
    BetweenCut(setup, base, file, first, second, c);
    SoundAgain(setup, base, file, first, second, c, c, HandleAll(setup, base, file, first, c).rows);
  }

  /** A new entry that an earlier one's row is taken for gets no row if the import is cut off before it. */
  lemma TakenOverFails(setup: Setup, base: seq<Row>, file: seq<Option<Entry>>, first: seq<string>, second: seq<string>, i: nat, j: nat)
    requires Draws(setup, base, file, first, second) && i < j < |file| && file[i].Some? && file[j].Some? && file[j].value.id.Some?
    requires IsNew(setup, Faces(base), file[i].value) && IsNew(setup, Faces(base), file[j].value)
    requires WouldClaim(file[i].value, KeyOf(file[j].value))
    ensures !Completes(setup, base, file, first, second, HandleAll(setup, base, file, first, j).rows)
  {
    hide DistinctKeys, Fresh, IsNew, Born, IsRow, Faces, Import, HandleAll, WouldClaim, KeyOf, Found;
    var mid := HandleAll(setup, base, file, first, j).rows;
    CutSound(setup, base, file, first, second, j);
    var h := Drawn(first, second, j);
    FoundNow(setup, base, file, h, j, mid, j);
    assert NewClaims(setup, Faces(base), file, i, KeyOf(file[j].value));
    FoundIsNotNew(setup, base, file[j].value);
    FoundIsNotNew(setup, mid, file[j].value);
    if c :| 0 <= c <= |file| && Import(setup, mid, file, second) == Import(setup, base, file, Drawn(first, second, c)) {
      var x := Drawn(first, second, c)[j];
      FreshPart(Faces(base), file, first, second, c);
      EndsWith(setup, base, file, Drawn(first, second, c), x);
      EndsWith(setup, mid, file, second, x);
      RowWithBorn(setup, Faces(base), file, h, j, x);
      DrawnApart(setup, base, file, first, second, c, j, j);
      forall k | 0 <= k < |file| ensures k < j ==> h[k] != x ensures second[k] == x ==> k == j {
        DrawnApart(setup, base, file, first, second, j, k, j);
        DrawnApart(setup, base, file, first, second, c, j, k);
      }
    }
  }

  /** A new row that does not carry its own entry's tag is stored twice if the import is cut off after it. */
  lemma UntaggedFails(setup: Setup, base: seq<Row>, file: seq<Option<Entry>>, first: seq<string>, second: seq<string>, j: nat)
    requires Draws(setup, base, file, first, second) && j < |file| && file[j].Some? && IsNew(setup, Faces(base), file[j].value)
    requires NoneTakenOver(setup, Faces(base), file) && !Tagged(file[j].value)
    ensures !Completes(setup, base, file, first, second, HandleAll(setup, base, file, first, j + 1).rows)
  {
    hide DistinctKeys, Fresh, IsNew, Born, IsRow, Faces, Import, HandleAll, WouldClaim, KeyOf, Found, Tagged;
    var mid, h := HandleAll(setup, base, file, first, j + 1).rows, Drawn(first, second, j + 1);
    CutSound(setup, base, file, first, second, j + 1);
    FoundNow(setup, base, file, h, j + 1, mid, j);
    FoundIsNotNew(setup, base, file[j].value);
    FoundIsNotNew(setup, mid, file[j].value);
    OwnClaim(file[j].value);
    if file[j].value.id.Some? {
      forall i | 0 <= i <= j ensures !NewClaims(setup, Faces(base), file, i, KeyOf(file[j].value)) { }
    }
    assert IsNew(setup, Faces(mid), file[j].value);
    if c :| 0 <= c <= |file| && Import(setup, mid, file, second) == Import(setup, base, file, Drawn(first, second, c)) {
      FreshPart(Faces(base), file, first, second, c);
      BothThere(setup, base, file, first, second, j, mid);
      EndsWith(setup, base, file, Drawn(first, second, c), first[j]);
      EndsWith(setup, base, file, Drawn(first, second, c), second[j]);
      forall k | 0 <= k < |file|
        ensures Drawn(first, second, c)[k] == first[j] ==> j < c
        ensures Drawn(first, second, c)[k] == second[j] ==> j >= c
      {
        DrawnApart(setup, base, file, first, second, c, k, j);
      }
      DrawnApart(setup, base, file, first, second, c, j, j);
    }
  }

  lemma BothThere(setup: Setup, base: seq<Row>, file: seq<Option<Entry>>, first: seq<string>, second: seq<string>, j: nat, mid: seq<Row>)
    requires Draws(setup, base, file, first, second) && j < |file| && file[j].Some? && IsNew(setup, Faces(base), file[j].value)
    requires Reached(setup, base, file, Drawn(first, second, j + 1), j + 1, mid) && IsNew(setup, Faces(mid), file[j].value)
    requires Sound(setup, mid, file, second) && DistinctIds(mid)
    ensures IsRow(Faces(Import(setup, mid, file, second)), first[j]) && IsRow(Faces(Import(setup, mid, file, second)), second[j])
  {
    hide DistinctKeys, Fresh, IsNew, Born, IsRow, Faces, Import;
    var h := Drawn(first, second, j + 1);
    EndsWith(setup, mid, file, second, first[j]);
    EndsWith(setup, mid, file, second, second[j]);
    RowWithBorn(setup, Faces(base), file, h, j + 1, first[j]);
    assert h[j] == first[j];
  }

  // ---- Which uninterrupted run it would have to be -----------------------------------

  lemma {:induction false} BirthsTell(setup: Setup, faces: seq<Face>, file: seq<Option<Entry>>, f: seq<string>, h: seq<string>, n: nat)
    requires n <= |file| == |f| == |h|
    ensures |Born(setup, faces, file, f, n)| == |Born(setup, faces, file, h, n)|
    ensures Born(setup, faces, file, f, n) == Born(setup, faces, file, h, n) ==>
              forall j :: 0 <= j < n && file[j].Some? && IsNew(setup, faces, file[j].value) ==> f[j] == h[j]
  {
    hide IsNew;
    if n > 0 {
      BirthsTell(setup, faces, file, f, h, n - 1);
      var a, b := Born(setup, faces, file, f, n - 1), Born(setup, faces, file, h, n - 1);
      if Born(setup, faces, file, f, n) == Born(setup, faces, file, h, n) {
        assert a == Born(setup, faces, file, f, n)[..|a|] && b == Born(setup, faces, file, h, n)[..|a|];
        if file[n - 1].Some? && IsNew(setup, faces, file[n - 1].value) {
          assert Born(setup, faces, file, f, n)[|a|] == BirthFace(file[n - 1].value, f[n - 1]);
          assert Born(setup, faces, file, h, n)[|a|] == BirthFace(file[n - 1].value, h[n - 1]);
        }
      }
    }
  }

  /** Only the ids of new entries matter. */
  lemma {:induction false} OnlyNewIds(setup: Setup, base: seq<Row>, file: seq<Option<Entry>>, f: seq<string>, h: seq<string>, n: nat)
    requires Sound(setup, base, file, f) && Sound(setup, base, file, h) && n <= |file|
    requires forall j :: 0 <= j < |file| && file[j].Some? && IsNew(setup, Faces(base), file[j].value) ==> f[j] == h[j]
    ensures HandleAll(setup, base, file, f, n) == HandleAll(setup, base, file, h, n)
  {
    hide DistinctKeys, Fresh, IsNew, Faces, HandleFound, Handle;
    if n > 0 {
      OnlyNewIds(setup, base, file, f, h, n - 1);
      if file[n - 1].Some? {
        HandlesFound(setup, base, file, f, n - 1);
        HandlesFound(setup, base, file, h, n - 1);
        IdIfNew(setup, base, HandleAll(setup, base, file, f, n - 1), file[n - 1].value, f[n - 1], h[n - 1]);
      }
    }
  }

  lemma IdIfNew(setup: Setup, base: seq<Row>, w: Work, e: Entry, id: string, other: string)
    ensures !IsNew(setup, Faces(base), e) ==> HandleFound(setup, base, w, e, id) == HandleFound(setup, base, w, e, other)
  {
    hide Recognise, Found, IsNew, RestoreStatus, Created;
    FoundIsNotNew(setup, base, e);
  }

  /** If the second run completes the import at all, then as the run that draws its own ids. */
  lemma CompletesAsDrawn(setup: Setup, base: seq<Row>, file: seq<Option<Entry>>, first: seq<string>, second: seq<string>, c: nat,
                         d: nat, mid: seq<Row>)
    requires Draws(setup, base, file, first, second) && d <= c <= |file| && Regular(setup, Faces(base), file)
    requires CutRows(setup, base, file, Drawn(first, second, c), c, d, mid) && Completes(setup, base, file, first, second, mid)
    ensures Import(setup, mid, file, second) == Import(setup, base, file, Drawn(first, second, c))
  {
    hide DistinctKeys, Fresh, Regular, IsNew, Faces, Born, HandleAll, CutRows, NewRows, Repairables, LinkAll;
    var h := Drawn(first, second, c);
    SoundAgain(setup, base, file, first, second, c, d, mid);
    var k :| 0 <= k <= |file| && Import(setup, mid, file, second) == Import(setup, base, file, Drawn(first, second, k));
    FreshPart(Faces(base), file, first, second, k);
    ImportFaces(setup, mid, file, second);
    ImportFaces(setup, base, file, Drawn(first, second, k));
    BornAgain(setup, base, file, first, second, c, mid);
    var a, b := Born(setup, Faces(base), file, h, |file|), Born(setup, Faces(base), file, Drawn(first, second, k), |file|);
    assert Faces(base) + a == Faces(base) + b;
    assert a == (Faces(base) + a)[|Faces(base)|..] && b == (Faces(base) + b)[|Faces(base)|..];
    BirthsTell(setup, Faces(base), file, h, Drawn(first, second, k), |file|);
    OnlyNewIds(setup, base, file, h, Drawn(first, second, k), |file|);
  }

  lemma BornAgain(setup: Setup, base: seq<Row>, file: seq<Option<Entry>>, first: seq<string>, second: seq<string>, c: nat, mid: seq<Row>)
    requires Draws(setup, base, file, first, second) && c <= |file| && Regular(setup, Faces(base), file)
    requires Reached(setup, base, file, Drawn(first, second, c), c, mid)
    ensures Faces(base) + Born(setup, Faces(base), file, Drawn(first, second, c), |file|)
            == Faces(mid) + Born(setup, Faces(mid), file, second, |file|)
  {
    hide DistinctKeys, Fresh, Regular, IsNew, Born, NewRows;
    var h := Drawn(first, second, c);
    NewRowsAgain(setup, base, file, first, second, c, mid, |file|);
    NewRowsAre(setup, base, file, h, |file|);
    NewRowsAre(setup, base, file, h, c);
    NewRowsAre(setup, mid, file, second, |file|);
    var a, b := NewRows(setup, base, file, h, c), NewRows(setup, mid, file, second, |file|);
    assert Faces(a + b) == Faces(a) + Faces(b);
  }

  // ---- Statuses are needed -----------------------------------------------------------

  /** An import that completes has the statuses of the uninterrupted run. */
  lemma CompletesWithStatus(setup: Setup, base: seq<Row>, file: seq<Option<Entry>>, first: seq<string>, second: seq<string>, c: nat,
                            d: nat, mid: seq<Row>, i: nat)
    requires Draws(setup, base, file, first, second) && d <= c <= |file| && Regular(setup, Faces(base), file)
    requires CutRows(setup, base, file, Drawn(first, second, c), c, d, mid) && Completes(setup, base, file, first, second, mid)
    requires i < |mid|
    ensures var all := base + NewRows(setup, base, file, Drawn(first, second, c), c);
            i < |all| && StatusNow(setup, mid, file, Stands(setup, mid, file, second), |file|, mid[i])
                         == StatusNow(setup, base, file, Stands(setup, base, file, Drawn(first, second, c)), |file|, all[i])
  {
    hide DistinctKeys, Fresh, Regular, NewRows, StatusNow, Stands, HandleAll, Import, Touchable, MatchedAs, DestinationsAs,
      NewlyCloses, ClosedBy, Completes, Reached, CutRows;
    CompletesAsDrawn(setup, base, file, first, second, c, d, mid);
    SoundAgain(setup, base, file, first, second, c, d, mid);
    RowsAgain(setup, base, file, first, second, c, d, mid);
    ImportMade(setup, base, file, Drawn(first, second, c));
    ImportMade(setup, mid, file, second);
    CutFaces(setup, base, file, Drawn(first, second, c), c, d, mid);
  }

  /** Two entries that ask for different statuses of one copy: cutting off after one of them shows. */
  lemma SharedFails(setup: Setup, base: seq<Row>, file: seq<Option<Entry>>, first: seq<string>, second: seq<string>, m: nat, x: string)
    requires Draws(setup, base, file, first, second) && m < |file| && Regular(setup, Faces(base), file)
    requires EligibleAt(setup, file, m) && Found(base, file[m].value) == Some(x) && MayRepair(base, x) && !Quiet(setup, file[m].value)
    requires SetBy(setup, file, Stands(setup, base, file, Drawn(first, second, m + 1)), |file|, x) != Some(Restored(file[m].value.status.value))
    ensures !Completes(setup, base, file, first, second, HandleAll(setup, base, file, first, m + 1).rows)
  {
    hide DistinctKeys, Fresh, Regular, Faces, IsRow, NewRows, StatusNow, Stands, HandleAll, SetBy, CutRows, Unlinked, MayRepair, Found,
      Restored, Completes;
    var mid, h := HandleAll(setup, base, file, first, m + 1).rows, Drawn(first, second, m + 1);
    BetweenCut(setup, base, file, first, second, m + 1);
    FreshPart(Faces(base), file, first, second, m + 1);
    FoundIsRow(base, file[m].value);
    StandsForRow(setup, base, file, h, m, x);
    SetByNext(setup, file, Stands(setup, base, file, h), m, x);
    if Completes(setup, base, file, first, second, mid) {
      var i := RowAt(base, x);
      OldRowAgain(setup, base, file, first, second, m + 1, m + 1, mid, i);
      CompletesWithStatus(setup, base, file, first, second, m + 1, m + 1, mid, i);
    }
  }

  lemma RowAt(rows: seq<Row>, x: string) returns (i: nat)
    requires IsRow(Faces(rows), x)
    ensures i < |rows| && rows[i].id == x
  {
    var k :| 0 <= k < |Faces(rows)| && Faces(rows)[k].id == x;
    i := k;
  }

  /** A new row whose strays ask for another status than its entry: cutting off where the row's own is not yet given shows. */
  lemma StraysFail(setup: Setup, base: seq<Row>, file: seq<Option<Entry>>, first: seq<string>, second: seq<string>, j: nat)
    requires Draws(setup, base, file, first, second) && j < |file| && Regular(setup, Faces(base), file)
    requires file[j].Some? && IsNew(setup, Faces(base), file[j].value)
    requires ClaimedStatus(setup, base, file, |file|, j) != OwnStatus(setup, file[j].value)
    ensures exists mid :: CutOff(setup, base, file, first, mid) && !Completes(setup, base, file, first, second, mid)
  {
    hide DistinctKeys, Fresh, Regular, Faces, NewRows, StatusNow, Stands, HandleAll, CutRows, Unlinked, ClaimedStatus, OwnStatus,
      Completes, CutOff, IsNew, Created;
    if Quiet(setup, file[j].value) {
      BetweenCut(setup, base, file, first, second, j + 1);
      StraysShow(setup, base, file, first, second, j, j + 1, HandleAll(setup, base, file, first, j + 1).rows);
    } else {
      CreatedCut(setup, base, file, first, second, j);
      StraysShow(setup, base, file, first, second, j, j, Created(HandleAll(setup, base, file, first, j), file[j].value, first[j]));
    }
  }

  lemma StraysShow(setup: Setup, base: seq<Row>, file: seq<Option<Entry>>, first: seq<string>, second: seq<string>, j: nat, d: nat,
                   mid: seq<Row>)
    requires Draws(setup, base, file, first, second) && d <= j + 1 <= |file| && Regular(setup, Faces(base), file)
    requires file[j].Some? && IsNew(setup, Faces(base), file[j].value)
    requires ClaimedStatus(setup, base, file, |file|, j) != OwnStatus(setup, file[j].value)
    requires CutRows(setup, base, file, Drawn(first, second, j + 1), j + 1, d, mid) && (d <= j || Quiet(setup, file[j].value))
    ensures !Completes(setup, base, file, first, second, mid)
  {
    hide DistinctKeys, Fresh, Regular, Faces, StatusNow, Stands, HandleAll, ClaimedStatus, OwnStatus, Completes, IsNew, Quiet;
    var h := Drawn(first, second, j + 1);
    var all := base + NewRows(setup, base, file, h, j + 1);
    var i := |all| - 1;
    assert all[i] == NewRow(file[j].value, h[j]);
    if Completes(setup, base, file, first, second, mid) {
      hide NewRows, CutRows;
      CutFaces(setup, base, file, h, j + 1, d, mid);
      NewRowAgain(setup, base, file, first, second, j + 1, d, mid, i, j);
      CompletesWithStatus(setup, base, file, first, second, j + 1, d, mid, i);
    }
  }

  /** Every cut of the first run leaves a store that the second run completes. */
  ghost predicate AlwaysCompletes(setup: Setup, base: seq<Row>, file: seq<Option<Entry>>, first: seq<string>, second: seq<string>)
    requires |first| == |file| == |second|
  {
    forall mid | CutOff(setup, base, file, first, mid) :: Completes(setup, base, file, first, second, mid)
  }

  lemma MustBeRegular(setup: Setup, base: seq<Row>, file: seq<Option<Entry>>, first: seq<string>, second: seq<string>)
    requires Draws(setup, base, file, first, second) && AlwaysCompletes(setup, base, file, first, second)
    ensures Regular(setup, Faces(base), file)
  {
    hide DistinctKeys, Fresh, Faces, IsNew, HandleAll, CutOff, Completes, WouldClaim, KeyOf, Tagged, Sound, Reached;
    if i, j :| 0 <= i < j < |file| && file[i].Some? && file[j].Some? && IsNew(setup, Faces(base), file[i].value)
               && IsNew(setup, Faces(base), file[j].value) && file[j].value.id.Some? && WouldClaim(file[i].value, KeyOf(file[j].value))
    {
      TakenOverFails(setup, base, file, first, second, i, j);
      CutSound(setup, base, file, first, second, j);
    }
    if j :| 0 <= j < |file| && file[j].Some? && IsNew(setup, Faces(base), file[j].value) && !Tagged(file[j].value) {
      UntaggedFails(setup, base, file, first, second, j);
      CutSound(setup, base, file, first, second, j + 1);
    }
  }

  lemma MustShareOneStatus(setup: Setup, base: seq<Row>, file: seq<Option<Entry>>, first: seq<string>, second: seq<string>)
    requires Draws(setup, base, file, first, second) && AlwaysCompletes(setup, base, file, first, second)
    requires Regular(setup, Faces(base), file)
    ensures OneStatusEach(setup, base, file)
  {
    hide DistinctKeys, Fresh, Faces, HandleAll, CutOff, Completes, Found, Restored, Stands, SetBy, MayRepair, Regular, Passes, Strip;
    forall i, k | 0 <= i < |file| && 0 <= k < |file| && SharesCopy(setup, base, file, i, k)
      ensures Restored(file[i].value.status.value) == Restored(file[k].value.status.value)
    {
      var x := Found(base, file[i].value).value;
      GivenLast(setup, base, file, first, second, i, x);
      GivenLast(setup, base, file, first, second, k, x);
    }
  }

  /** The status a copy ends with, whatever the draws. */
  function LastAsked(setup: Setup, base: seq<Row>, file: seq<Option<Entry>>, n: nat, x: string): Option<string>
    requires n <= |file|
  {
    if n == 0 then None
    else if EligibleAt(setup, file, n - 1) && Found(base, file[n - 1].value) == Some(x) && !Quiet(setup, file[n - 1].value)
    then Some(Restored(file[n - 1].value.status.value))
    else LastAsked(setup, base, file, n - 1, x)
  }

  lemma {:induction false} SetByIsLast(setup: Setup, base: seq<Row>, file: seq<Option<Entry>>, ids: seq<string>, n: nat, x: string)
    requires Sound(setup, base, file, ids) && n <= |file| && IsRow(Faces(base), x)
    ensures SetBy(setup, file, Stands(setup, base, file, ids), n, x) == LastAsked(setup, base, file, n, x)
  {
    hide DistinctKeys, Fresh, Faces, IsRow, Stands, Eligible, Found, Quiet, Restored;
    if n > 0 {
      SetByIsLast(setup, base, file, ids, n - 1, x);
      StandsForRow(setup, base, file, ids, n - 1, x);
    }
  }

  lemma GivenLast(setup: Setup, base: seq<Row>, file: seq<Option<Entry>>, first: seq<string>, second: seq<string>, m: nat, x: string)
    requires Draws(setup, base, file, first, second) && AlwaysCompletes(setup, base, file, first, second)
    requires Regular(setup, Faces(base), file) && m < |file|
    requires EligibleAt(setup, file, m) && Found(base, file[m].value) == Some(x) && MayRepair(base, x) && !Quiet(setup, file[m].value)
    ensures LastAsked(setup, base, file, |file|, x) == Some(Restored(file[m].value.status.value))
  {
    hide DistinctKeys, Fresh, Faces, HandleAll, CutOff, Completes, Found, Restored, Stands, SetBy, MayRepair, Regular, Eligible,
      IsRow, LastAsked, Reached;
    CutSound(setup, base, file, first, second, m + 1);
    FoundIsRow(base, file[m].value);
    SetByIsLast(setup, base, file, Drawn(first, second, m + 1), |file|, x);
    if LastAsked(setup, base, file, |file|, x) != Some(Restored(file[m].value.status.value)) {
      SharedFails(setup, base, file, first, second, m, x);
    }
  }

  /** Whatever the file and the store, with distinct keys and fresh ids: an import can be cut off after any write
      and completed by running it again if and only if the condition holds. */
  lemma ResumesIff(setup: Setup, base: seq<Row>, file: seq<Option<Entry>>, first: seq<string>, second: seq<string>)
    requires Draws(setup, base, file, first, second)
    ensures AlwaysCompletes(setup, base, file, first, second) <==> Resumable(setup, base, file, first, second)
  {
    hide DistinctKeys, Fresh, Faces, HandleAll, CutOff, Completes, CutRows, Unlinked, OneStatusEach, AllTagged, NoneTakenOver,
      LinksTheSame, IsNew, ClaimedStatus, OwnStatus, DistinctIds;
    if Resumable(setup, base, file, first, second) {
      forall mid | CutOff(setup, base, file, first, mid) ensures Completes(setup, base, file, first, second, mid) {
        ResumedImportCompletes(setup, base, file, first, second, mid);
      }
    }
    if AlwaysCompletes(setup, base, file, first, second) {
      MustBeRegular(setup, base, file, first, second);
      MustShareOneStatus(setup, base, file, first, second);
      forall j | 0 <= j < |file| && file[j].Some? && IsNew(setup, Faces(base), file[j].value)
        ensures ClaimedStatus(setup, base, file, |file|, j) == OwnStatus(setup, file[j].value)
      {
        if ClaimedStatus(setup, base, file, |file|, j) != OwnStatus(setup, file[j].value) {
          StraysFail(setup, base, file, first, second, j);
        }
      }
      forall c | 0 <= c <= |file| ensures LinksTheSame(setup, base, file, Drawn(first, second, c), c) {
        MustLinkTheSame(setup, base, file, first, second, c);
      }
    }
  }

  lemma MustLinkTheSame(setup: Setup, base: seq<Row>, file: seq<Option<Entry>>, first: seq<string>, second: seq<string>, c: nat)
    requires Draws(setup, base, file, first, second) && AlwaysCompletes(setup, base, file, first, second) && c <= |file|
    requires Regular(setup, Faces(base), file) && OneStatusEach(setup, base, file) && StraysQuiet(setup, base, file)
    ensures LinksTheSame(setup, base, file, Drawn(first, second, c), c)
  {
    hide DistinctKeys, Fresh, Faces, HandleAll, CutOff, Completes, CutRows, Unlinked, OneStatusEach, Regular, StraysQuiet,
      LinksTheSame, DistinctIds, Import;
    BetweenCut(setup, base, file, first, second, c);
    var mid := HandleAll(setup, base, file, first, c).rows;
    CompletesAsDrawn(setup, base, file, first, second, c, c, mid);
    ResumeRows(setup, base, file, first, second, c, c, mid);
  }
}
