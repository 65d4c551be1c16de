/** When an import can be cut off and run again; what a further run does; the project's own rows never change. */
module ImportTheorems {
  import opened Basics
  import opened TextLines
  import opened ImportModel
  import opened ImportRecognition
  import opened ImportPhases
  import opened ImportLinks
  import opened ImportResume
  import opened ImportStatuses

  // ---- What a second run comes to ----------------------------------------------------

  /** The import run again ends as an uninterrupted one, with the first run's ids up to some item and the
      second's from there on. */
  ghost predicate Completes(setup: Setup, base: seq<Row>, file: seq<Option<Entry>>, first: seq<string>, second: seq<string>,
                            mid: seq<Row>)
    requires |first| == |file| == |second|
  {
    exists c :: 0 <= c <= |file| && Import(setup, mid, file, second) == Import(setup, base, file, Drawn(first, second, c))
  }

  lemma {:induction false} SamePrefix(setup: Setup, base: seq<Row>, file: seq<Option<Entry>>, f: seq<string>, h: seq<string>, n: nat)
    requires |f| == |h| == |file| && n <= |file| && f[..n] == h[..n]
    ensures HandleAll(setup, base, file, f, n) == HandleAll(setup, base, file, h, n)
  {
    hide Handle;
    if n > 0 {
      assert f[n - 1] == f[..n][n - 1] && h[n - 1] == h[..n][n - 1];
      assert f[..n - 1] == f[..n][..n - 1] && h[..n - 1] == h[..n][..n - 1];
      SamePrefix(setup, base, file, f, h, n - 1);
    }
  }

  /** The plan of the second phase, with what the items stand for. */
  function CloserWith(setup: Setup, file: seq<Option<Entry>>, stands: seq<Option<string>>, repairable: set<string>, x: string): Option<string>
    requires |stands| == |file|
  {
    FirstCloser(setup, MatchedAs(file, stands, |file|), DestinationsAs(file, stands, |file|), repairable, x)
  }

  /** Recognising entries by the rows of the first `c` items changes no open row's closer. */
  ghost predicate LinksTheSame(setup: Setup, base: seq<Row>, file: seq<Option<Entry>>, ids: seq<string>, c: nat)
    requires c <= |file| == |ids|
  {
    var all, repairable := base + NewRows(setup, base, file, ids, |file|), Touchable(setup, base, file, ids);
    forall i :: 0 <= i < |all| && all[i].closedBy == None ==>
      CloserWith(setup, file, StandsLater(setup, base, file, ids, c), repairable, all[i].id)
      == CloserWith(setup, file, Stands(setup, base, file, ids), repairable, all[i].id)
  }

  /** An import as its rows and the plan of its links. */
  lemma ImportMade(setup: Setup, base: seq<Row>, file: seq<Option<Entry>>, ids: seq<string>)
    requires Sound(setup, base, file, ids) && DistinctIds(base)
    ensures var rows, stands := HandleAll(setup, base, file, ids, |file|).rows, Stands(setup, base, file, ids);
            && DistinctIds(rows) && RowsAre(setup, base, file, ids, |file|, |file|, rows)
            && Touchable(setup, base, file, ids) <= RowIds(rows)
            && LinksMade(setup, rows, MatchedAs(file, stands, |file|), DestinationsAs(file, stands, |file|),
                         Touchable(setup, base, file, ids), Import(setup, base, file, ids))
  {
    hide DistinctKeys, Fresh, HandleAll, Stands, Touchable, NewRows, StatusNow, LinkAll, LinksMade, Repairable;
    var w := HandleAll(setup, base, file, ids, |file|);
    RowsOfRun(setup, base, file, ids, |file|);
    MatchesOfRun(setup, base, file, ids, |file|);
    TouchableOfRun(setup, base, file, ids);
    AllDistinct(setup, base, file, ids, |file|);
    LinksAsExported(setup, w.rows, w.matched, w.destinations, Repairables(base, w));
  }

  /** A store in the middle of an import, without links. */
  ghost predicate Unlinked(setup: Setup, base: seq<Row>, file: seq<Option<Entry>>, ids: seq<string>, c: nat, mid: seq<Row>)
    requires c <= |file| == |ids|
  {
    var all := base + NewRows(setup, base, file, ids, c);
    |mid| == |all| && forall i :: 0 <= i < |mid| ==> mid[i].closedBy == all[i].closedBy && mid[i].supersedes == all[i].supersedes
  }

  lemma SoundAgain(setup: Setup, base: seq<Row>, file: seq<Option<Entry>>, first: seq<string>, second: seq<string>, c: nat,
                   d: nat, mid: seq<Row>)
    requires Draws(setup, base, file, first, second) && d <= c <= |file|
    requires CutRows(setup, base, file, Drawn(first, second, c), c, d, mid)
    ensures Sound(setup, base, file, Drawn(first, second, c)) && Sound(setup, mid, file, second) && DistinctIds(mid)
    ensures Reached(setup, base, file, Drawn(first, second, c), c, mid)
  {
    hide DistinctKeys, Fresh, CutRows, Reached;
    FreshPart(Faces(base), file, first, second, c);
    CutFaces(setup, base, file, Drawn(first, second, c), c, d, mid);
    CutDistinct(setup, base, file, Drawn(first, second, c), c, d, mid);
    FreshLater(setup, base, file, first, second, c, mid);
  }

  /** Row by row, the second run has the rows of the uninterrupted one but for statuses, and links there already. */
  lemma RowsAgain(setup: Setup, base: seq<Row>, file: seq<Option<Entry>>, first: seq<string>, second: seq<string>, c: nat,
                  d: nat, mid: seq<Row>)
    requires Draws(setup, base, file, first, second) && d <= c <= |file| && Regular(setup, Faces(base), file)
    requires CutRows(setup, base, file, Drawn(first, second, c), c, d, mid)
    ensures var a, b := HandleAll(setup, base, file, Drawn(first, second, c), |file|).rows, HandleAll(setup, mid, file, second, |file|).rows;
            var all := base + NewRows(setup, base, file, Drawn(first, second, c), |file|);
            && |a| == |b| == |all| && |mid| <= |a|
            && (forall i :: 0 <= i < |mid| ==>
                  b[i] == mid[i].(status := StatusNow(setup, mid, file, Stands(setup, mid, file, second), |file|, mid[i])))
            && (forall i :: |mid| <= i < |b| ==>
                  b[i] == all[i].(status := StatusNow(setup, mid, file, Stands(setup, mid, file, second), |file|, all[i])))
            && (forall i :: 0 <= i < |a| ==>
                  a[i] == all[i].(status := StatusNow(setup, base, file, Stands(setup, base, file, Drawn(first, second, c)), |file|, all[i])))
            && (forall i :: 0 <= i < |mid| ==> all[i] == (base + NewRows(setup, base, file, Drawn(first, second, c), c))[i])
  {
    hide DistinctKeys, Fresh, Regular, NewRows, StatusNow, Stands, HandleAll, Reached;
    var h := Drawn(first, second, c);
    SoundAgain(setup, base, file, first, second, c, d, mid);
    RowsOfRun(setup, base, file, h, |file|);
    RowsOfRun(setup, mid, file, second, |file|);
    NewRowsAgain(setup, base, file, first, second, c, mid, |file|);
    var news, more := NewRows(setup, base, file, h, c), NewRows(setup, mid, file, second, |file|);
    assert base + (news + more) == (base + news) + more;
  }

  /** The item of a new row. */
  lemma ItemOf(setup: Setup, base: seq<Row>, file: seq<Option<Entry>>, ids: seq<string>, n: nat, i: nat) returns (j: nat)
    requires n <= |file| == |ids| && |base| <= i < |base + NewRows(setup, base, file, ids, n)|
    ensures j < n && file[j].Some? && IsNew(setup, Faces(base), file[j].value)
            && (base + NewRows(setup, base, file, ids, n))[i] == NewRow(file[j].value, ids[j])
  {
    hide IsNew, NewRows, NewRow;
    NewRowsAre(setup, base, file, ids, n);
    var news := NewRows(setup, base, file, ids, n);
    var r := news[i - |base|];
    assert r in news && (base + news)[i] == r;
    j :| 0 <= j < n && file[j].Some? && IsNew(setup, Faces(base), file[j].value) && r == NewRow(file[j].value, ids[j]);
  }

  // ---- The conditions suffice --------------------------------------------------------

  lemma {:induction false} Giver(setup: Setup, file: seq<Option<Entry>>, stands: seq<Option<string>>, n: nat, x: string) returns (k: nat)
    requires n <= |file| == |stands| && SetBy(setup, file, stands, n, x).Some?
    ensures k < n && file[k].Some? && stands[k] == Some(x) && !Quiet(setup, file[k].value)
    ensures SetBy(setup, file, stands, n, x) == Some(Restored(file[k].value.status.value))
  {
    if file[n - 1].Some? && stands[n - 1] == Some(x) && !Quiet(setup, file[n - 1].value) {
      k := n - 1;
    } else {
      k := Giver(setup, file, stands, n - 1, x);
    }
  }

  lemma SharedGiven(setup: Setup, base: seq<Row>, file: seq<Option<Entry>>, ids: seq<string>, d: nat, x: string)
    requires Sound(setup, base, file, ids) && OneStatusEach(setup, base, file) && d <= |file| && MayRepair(base, x) && IsRow(Faces(base), x)
    requires SetBy(setup, file, Stands(setup, base, file, ids), d, x).Some?
    ensures SetBy(setup, file, Stands(setup, base, file, ids), |file|, x) == SetBy(setup, file, Stands(setup, base, file, ids), d, x)
  {
    hide DistinctKeys, Fresh, Faces, Stands, MayRepair, IsRow, SetBy, Found, Restored;
    var stands := Stands(setup, base, file, ids);
    GivenStays(setup, file, stands, d, x);
    var i := Giver(setup, file, stands, d, x);
    var k := Giver(setup, file, stands, |file|, x);
    StandsForRow(setup, base, file, ids, i, x);
    StandsForRow(setup, base, file, ids, k, x);
    assert SharesCopy(setup, base, file, i, k);
  }

  lemma StandsForRow(setup: Setup, base: seq<Row>, file: seq<Option<Entry>>, ids: seq<string>, k: nat, x: string)
    requires Sound(setup, base, file, ids) && k < |file| && IsRow(Faces(base), x)
    ensures Stands(setup, base, file, ids)[k] == Some(x) <==> EligibleAt(setup, file, k) && Found(base, file[k].value) == Some(x)
  {
    hide DistinctKeys, Fresh, Faces, IsRow, Eligible, Found;
    FreshIsNoRow(base, file, ids, k);
  }

  /** The statuses of the second run are those of the uninterrupted one. */
  lemma StatusesAgain(setup: Setup, base: seq<Row>, file: seq<Option<Entry>>, first: seq<string>, second: seq<string>, c: nat,
                      d: nat, mid: seq<Row>, i: nat)
    requires Draws(setup, base, file, first, second) && d <= c <= |file| && Regular(setup, Faces(base), file)
    requires CutRows(setup, base, file, Drawn(first, second, c), c, d, mid)
    requires OneStatusEach(setup, base, file) && StraysQuiet(setup, base, file)
    requires i < |HandleAll(setup, base, file, Drawn(first, second, c), |file|).rows|
    ensures i < |HandleAll(setup, mid, file, second, |file|).rows|
    ensures HandleAll(setup, mid, file, second, |file|).rows[i].status
            == HandleAll(setup, base, file, Drawn(first, second, c), |file|).rows[i].status
  {
    hide DistinctKeys, Fresh, Regular, Faces, NewRows, StatusNow, Stands, HandleAll, Reached, MayRepair, IsRow, IsNew, SetBy,
      ClaimedStatus, OneStatusEach, CutRows;
    var h := Drawn(first, second, c);
    RowsAgain(setup, base, file, first, second, c, d, mid);
    SoundAgain(setup, base, file, first, second, c, d, mid);
    CutFaces(setup, base, file, h, c, d, mid);
    if i < |base| {
      OldRowAgain(setup, base, file, first, second, c, d, mid, i);
      FaceAt(base, i);
      if MayRepair(base, base[i].id) && SetBy(setup, file, Stands(setup, base, file, h), d, base[i].id).Some? {
        SharedGiven(setup, base, file, h, d, base[i].id);
      }
    } else if i < |mid| {
      var j := ItemOf(setup, base, file, h, c, i);
      NewRowAgain(setup, base, file, first, second, c, d, mid, i, j);
    } else {
      var j := ItemOf(setup, base, file, h, |file|, i);
      LateRowAgain(setup, base, file, first, second, c, d, mid, i, j);
    }
  }

  /** A row that only the second run adds gets its status as in the uninterrupted one. */
  lemma LateRowAgain(setup: Setup, base: seq<Row>, file: seq<Option<Entry>>, first: seq<string>, second: seq<string>, c: nat,
                     d: nat, mid: seq<Row>, i: nat, j: nat)
    requires Draws(setup, base, file, first, second) && d <= c <= |file| && Regular(setup, Faces(base), file)
    requires CutRows(setup, base, file, Drawn(first, second, c), c, d, mid)
    requires j < |file| && file[j].Some? && IsNew(setup, Faces(base), file[j].value)
    requires |mid| <= i < |base + NewRows(setup, base, file, Drawn(first, second, c), |file|)|
    requires (base + NewRows(setup, base, file, Drawn(first, second, c), |file|))[i] == NewRow(file[j].value, Drawn(first, second, c)[j])
    ensures var r := NewRow(file[j].value, Drawn(first, second, c)[j]);
            StatusNow(setup, mid, file, Stands(setup, mid, file, second), |file|, r)
            == StatusNow(setup, base, file, Stands(setup, base, file, Drawn(first, second, c)), |file|, r)
  {
    hide DistinctKeys, Fresh, Regular, Faces, NewRows, Stands, StandsLater, SetBy, IsNew, Reached, CutRows, IsRow, ClaimedStatus;
    var h := Drawn(first, second, c);
    SoundAgain(setup, base, file, first, second, c, d, mid);
    StandsAgain(setup, base, file, first, second, c, mid);
    NewGiven(setup, base, file, h, c, |file|, j);
    FreshIsNoRow(base, file, h, j);
    LateItem(setup, base, file, first, second, c, d, mid, i, j);
    assert h[j] == second[j];
    FreshIsNoRow(mid, file, second, j);
  }

  lemma LateItem(setup: Setup, base: seq<Row>, file: seq<Option<Entry>>, first: seq<string>, second: seq<string>, c: nat,
                 d: nat, mid: seq<Row>, i: nat, j: nat)
    requires Draws(setup, base, file, first, second) && d <= c <= |file| && Regular(setup, Faces(base), file)
    requires CutRows(setup, base, file, Drawn(first, second, c), c, d, mid)
    requires j < |file| && file[j].Some? && IsNew(setup, Faces(base), file[j].value)
    requires |mid| <= i < |base + NewRows(setup, base, file, Drawn(first, second, c), |file|)|
    requires (base + NewRows(setup, base, file, Drawn(first, second, c), |file|))[i] == NewRow(file[j].value, Drawn(first, second, c)[j])
    ensures j >= c
  {
    hide DistinctKeys, Fresh, Regular, Faces, NewRows, IsNew, Reached, CutRows;
    var h := Drawn(first, second, c);
    SoundAgain(setup, base, file, first, second, c, d, mid);
    CutFaces(setup, base, file, h, c, d, mid);
    NewRowsAgain(setup, base, file, first, second, c, mid, |file|);
    var more := NewRows(setup, mid, file, second, |file|);
    NewRowsAre(setup, mid, file, second, |file|);
    var r := more[i - |mid|];
    assert r in more && r == (base + NewRows(setup, base, file, h, |file|))[i];
    var k :| 0 <= k < |file| && file[k].Some? && IsNew(setup, Faces(mid), file[k].value) && r == NewRow(file[k].value, second[k]);
    assert h[j] == second[k];
    if j < c {
      DrawsApart(base, file, first, second, j, k);
    }
  }

  lemma DrawsApart(base: seq<Row>, file: seq<Option<Entry>>, first: seq<string>, second: seq<string>, j: nat, k: nat)
    requires |first| == |file| == |second| && Fresh(Faces(base), file, first + second) && j < |file| && k < |file|
    ensures first[j] != second[k] && (first[j] == first[k] ==> j == k) && (second[j] == second[k] ==> j == k)
  {
    hide Unseen;
    var all := first + second;
    assert all[j] == first[j] && all[k] == first[k] && all[|first| + j] == second[j] && all[|first| + k] == second[k];
  }

  /** With equal rows after both first phases, the second run ends as the uninterrupted one if and only if the links
      come out the same. */
  lemma EndsIff(setup: Setup, base: seq<Row>, file: seq<Option<Entry>>, first: seq<string>, second: seq<string>, c: nat,
                d: nat, mid: seq<Row>)
    requires Draws(setup, base, file, first, second) && d <= c <= |file| && Regular(setup, Faces(base), file)
    requires CutRows(setup, base, file, Drawn(first, second, c), c, d, mid)
    requires HandleAll(setup, mid, file, second, |file|).rows == HandleAll(setup, base, file, Drawn(first, second, c), |file|).rows
    ensures Import(setup, mid, file, second) == Import(setup, base, file, Drawn(first, second, c))
            <==> LinksTheSame(setup, base, file, Drawn(first, second, c), c)
  {
    hide DistinctKeys, Fresh, Regular, Faces, NewRows, Stands, StandsLater, Reached, CutRows, HandleAll, Touchable, Import, LinksMade,
      MatchedAs, DestinationsAs, FirstCloser, StatusNow;
    var h := Drawn(first, second, c);
    var rows, rep := HandleAll(setup, base, file, h, |file|).rows, Touchable(setup, base, file, h);
    var stands, later := Stands(setup, base, file, h), StandsLater(setup, base, file, h, c);
    SoundAgain(setup, base, file, first, second, c, d, mid);
    StandsAgain(setup, base, file, first, second, c, mid);
    TouchableAgain(setup, base, file, first, second, c, mid);
    ImportMade(setup, base, file, h);
    ImportMade(setup, mid, file, second);
    LinksUnique(setup, rows, MatchedAs(file, later, |file|), DestinationsAs(file, later, |file|),
                MatchedAs(file, stands, |file|), DestinationsAs(file, stands, |file|), rep,
                Import(setup, mid, file, second), Import(setup, base, file, h));
    var all := base + NewRows(setup, base, file, h, |file|);
    forall i | 0 <= i < |rows| ensures rows[i].id == all[i].id && rows[i].closedBy == all[i].closedBy { }
    forall i | 0 <= i < |rows|
      ensures ClosedBy(setup, rows[i], MatchedAs(file, later, |file|), DestinationsAs(file, later, |file|), rep)
              == ClosedBy(setup, rows[i], MatchedAs(file, stands, |file|), DestinationsAs(file, stands, |file|), rep)
              <==> (all[i].closedBy == None ==>
                      CloserWith(setup, file, later, rep, all[i].id) == CloserWith(setup, file, stands, rep, all[i].id))
    {
    }
  }

  /** Without links on the way, only statuses can differ after the second run's first phase. */
  lemma RowsEqualIff(setup: Setup, base: seq<Row>, file: seq<Option<Entry>>, first: seq<string>, second: seq<string>, c: nat,
                     d: nat, mid: seq<Row>)
    requires Draws(setup, base, file, first, second) && d <= c <= |file| && Regular(setup, Faces(base), file)
    requires CutRows(setup, base, file, Drawn(first, second, c), c, d, mid) && Unlinked(setup, base, file, Drawn(first, second, c), c, mid)
    ensures var a, b := HandleAll(setup, base, file, Drawn(first, second, c), |file|).rows, HandleAll(setup, mid, file, second, |file|).rows;
            |a| == |b| && (a == b <==> forall i :: 0 <= i < |a| ==> a[i].status == b[i].status)
  {
    hide DistinctKeys, Fresh, Regular, Faces, NewRows, Stands, StandsLater, HandleAll, StatusNow;
    var h := Drawn(first, second, c);
    RowsAgain(setup, base, file, first, second, c, d, mid);
    var a, b := HandleAll(setup, base, file, h, |file|).rows, HandleAll(setup, mid, file, second, |file|).rows;
    forall i | 0 <= i < |a| ensures a[i] == b[i].(status := a[i].status) { }
  }

  /** Cut off in the first phase, the import completes if the conditions hold. */
  lemma ResumeRows(setup: Setup, base: seq<Row>, file: seq<Option<Entry>>, first: seq<string>, second: seq<string>, c: nat,
                   d: nat, mid: seq<Row>)
    requires Draws(setup, base, file, first, second) && d <= c <= |file| && Regular(setup, Faces(base), file)
    requires CutRows(setup, base, file, Drawn(first, second, c), c, d, mid) && Unlinked(setup, base, file, Drawn(first, second, c), c, mid)
    requires OneStatusEach(setup, base, file) && StraysQuiet(setup, base, file)
    ensures Import(setup, mid, file, second) == Import(setup, base, file, Drawn(first, second, c))
            <==> LinksTheSame(setup, base, file, Drawn(first, second, c), c)
  {
    hide DistinctKeys, Fresh, Regular, Faces, NewRows, Stands, StandsLater, CutRows, HandleAll, Import, StatusNow, OneStatusEach,
      StraysQuiet, LinksTheSame, Unlinked;
    RowsEqualIff(setup, base, file, first, second, c, d, mid);
    var a := HandleAll(setup, base, file, Drawn(first, second, c), |file|).rows;
    forall i | 0 <= i < |a| ensures a[i].status == HandleAll(setup, mid, file, second, |file|).rows[i].status {
      StatusesAgain(setup, base, file, first, second, c, d, mid, i);
    }
    EndsIff(setup, base, file, first, second, c, d, mid);
  }
}
