/** The statuses of an interrupted and repeated import against those of an uninterrupted one, row by row. */
module ImportStatuses {
  import opened Basics
  import opened TextLines
  import opened ImportModel
  import opened ImportRecognition
  import opened ImportPhases
  import opened ImportLinks
  import opened ImportResume

  // ---- The conditions ----------------------------------------------------------------

  /** Two items that ask for a status of one active copy of an earlier import. */
  ghost predicate SharesCopy(setup: Setup, base: seq<Row>, file: seq<Option<Entry>>, i: nat, k: nat)
    requires i < |file| && k < |file|
  {
    && EligibleAt(setup, file, i) && EligibleAt(setup, file, k)
    && Found(base, file[i].value).Some? && Found(base, file[k].value) == Found(base, file[i].value)
    && MayRepair(base, Found(base, file[i].value).value) && !Quiet(setup, file[i].value) && !Quiet(setup, file[k].value)
  }

  /** Entries that stand for one active copy of an earlier import ask for one status. */
  ghost predicate OneStatusEach(setup: Setup, base: seq<Row>, file: seq<Option<Entry>>) {
    forall i, k | 0 <= i < |file| && 0 <= k < |file| && SharesCopy(setup, base, file, i, k) ::
      Restored(file[i].value.status.value) == Restored(file[k].value.status.value)
  }

  /** Item `k`, unknown to the store, would be recognised as the new row of item `j`. */
  predicate StandsWith(setup: Setup, base: seq<Row>, file: seq<Option<Entry>>, k: nat, j: nat)
    requires k < |file|
  {
    && EligibleAt(setup, file, k) && file[k].value.id.Some? && Found(base, file[k].value) == None
    && FirstClaimant(setup, Faces(base), file, |file|, KeyOf(file[k].value)) == Some(j)
  }

  /** The status that the last of the items standing with `j` asks for. */
  function ClaimedStatus(setup: Setup, base: seq<Row>, file: seq<Option<Entry>>, n: nat, j: nat): Option<string>
    requires n <= |file|
  {
    if n == 0 then None
    else if StandsWith(setup, base, file, n - 1, j) && !Quiet(setup, file[n - 1].value)
    then Some(Restored(file[n - 1].value.status.value))
    else ClaimedStatus(setup, base, file, n - 1, j)
  }

  function OwnStatus(setup: Setup, e: Entry): Option<string> {
    if Quiet(setup, e) then None else Some(Restored(e.status.value))
  }

  /** What entries the store turns away ask for makes no difference to the new row they would be recognised as. */
  predicate StraysQuiet(setup: Setup, base: seq<Row>, file: seq<Option<Entry>>) {
    forall j | 0 <= j < |file| && file[j].Some? && IsNew(setup, Faces(base), file[j].value) ::
      ClaimedStatus(setup, base, file, |file|, j) == OwnStatus(setup, file[j].value)
  }

  // ---- Who gives a row its status ----------------------------------------------------

  lemma {:induction false} GivenIsRestored(setup: Setup, file: seq<Option<Entry>>, stands: seq<Option<string>>, n: nat, x: string)
    requires n <= |file| == |stands|
    ensures SetBy(setup, file, stands, n, x).Some? ==> SetBy(setup, file, stands, n, x).value in RESTORED
    ensures SetBy(setup, file, stands, n, x) != Some("active")
  {
    if n > 0 {
      GivenIsRestored(setup, file, stands, n - 1, x);
      if file[n - 1].Some? && stands[n - 1] == Some(x) && !Quiet(setup, file[n - 1].value) {
        RestoredIs(file[n - 1].value.status.value);
      }
    }
  }

  lemma RestoredIs(status: string)
    ensures Restored(status) in RESTORED && Restored(status) != "active"
  {
  }

  /** Two assignments of items to rows that agree about `x` give it one status. */
  lemma {:induction false} SameGiven(setup: Setup, file: seq<Option<Entry>>, stands: seq<Option<string>>, other: seq<Option<string>>,
                                     n: nat, x: string, y: string)
    requires n <= |file| == |stands| == |other|
    requires forall k :: 0 <= k < n ==> (stands[k] == Some(x) <==> other[k] == Some(y))
    ensures SetBy(setup, file, stands, n, x) == SetBy(setup, file, other, n, y)
  {
    hide Quiet, Restored;
    if n > 0 {
      SameGiven(setup, file, stands, other, n - 1, x, y);
    }
  }

  /** If only item `j` stands for the row, it gives the status. */
  lemma {:induction false} OnlyGiver(setup: Setup, file: seq<Option<Entry>>, stands: seq<Option<string>>, n: nat, x: string, j: nat)
    requires n <= |file| == |stands| && j < |file| && file[j].Some?
    requires forall k :: 0 <= k < n ==> (stands[k] == Some(x) <==> k == j)
    ensures SetBy(setup, file, stands, n, x) == if j < n then OwnStatus(setup, file[j].value) else None
  {
    hide Quiet, Restored;
    if n > 0 {
      OnlyGiver(setup, file, stands, n - 1, x, j);
    }
  }

  lemma {:induction false} ClaimedGiven(setup: Setup, base: seq<Row>, file: seq<Option<Entry>>, stands: seq<Option<string>>,
                                        n: nat, x: string, j: nat)
    requires n <= |file| == |stands|
    requires forall k :: 0 <= k < n ==> (stands[k] == Some(x) <==> StandsWith(setup, base, file, k, j))
    ensures SetBy(setup, file, stands, n, x) == ClaimedStatus(setup, base, file, n, j)
  {
    hide Quiet, Restored, StandsWith;
    if n > 0 {
      ClaimedGiven(setup, base, file, stands, n - 1, x, j);
      assert StandsWith(setup, base, file, n - 1, j) ==> file[n - 1].Some? by { WithIsObject(setup, base, file, n - 1, j); }
    }
  }

  lemma WithIsObject(setup: Setup, base: seq<Row>, file: seq<Option<Entry>>, k: nat, j: nat)
    requires k < |file|
    ensures StandsWith(setup, base, file, k, j) ==> file[k].Some?
  {
  }

  /** What an item stands for is a row of the store, or has a fresh id. */
  lemma LaterIs(setup: Setup, base: seq<Row>, file: seq<Option<Entry>>, ids: seq<string>, c: nat, k: nat)
    requires Sound(setup, base, file, ids) && Regular(setup, Faces(base), file) && c <= |file| && k < |file|
    ensures var later, now := LaterOf(setup, base, file, ids, c, k), Stands(setup, base, file, ids)[k];
            && (forall x :: IsRow(Faces(base), x) ==> (later == Some(x) <==> now == Some(x)))
            && (forall j :: 0 <= j < |file| && file[j].Some? && IsNew(setup, Faces(base), file[j].value) ==>
                  && (now == Some(ids[j]) <==> k == j)
                  && (later == Some(ids[j]) <==> if j < c then StandsWith(setup, base, file, k, j) else k == j))
  {
    hide DistinctKeys, Fresh, Regular, Faces, KeyOf, IsNew, Eligible, FirstClaimant, IsRow;
    var later, now := LaterOf(setup, base, file, ids, c, k), Stands(setup, base, file, ids)[k];
    if file[k].Some? {
      FoundIsRow(base, file[k].value);
      FoundIsNotNew(setup, base, file[k].value);
      if IsNew(setup, Faces(base), file[k].value) {
        ClaimantOfNew(setup, Faces(base), file, c, k);
        ClaimantOfNew(setup, Faces(base), file, |file|, k);
      }
      if file[k].value.id.Some? {
        ClaimantStays(setup, Faces(base), file, c, |file|, KeyOf(file[k].value));
      }
    }
    forall i | 0 <= i < |file| ensures !IsRow(Faces(base), ids[i]) { FreshIsNoRow(base, file, ids, i); }
    forall i, j | 0 <= i < |file| && 0 <= j < |file| && i != j ensures ids[i] != ids[j] { FreshDistinct(base, file, ids, i, j); }
  }

  // ---- Rows in both runs -------------------------------------------------------------

  /** `mid` has the rows of the first `c` items with the statuses of the first `d`; it may have links. */
  ghost predicate CutRows(setup: Setup, base: seq<Row>, file: seq<Option<Entry>>, ids: seq<string>, c: nat, d: nat, mid: seq<Row>)
    requires d <= c <= |file| == |ids|
  {
    var all := base + NewRows(setup, base, file, ids, c);
    && |mid| == |all|
    && forall i :: 0 <= i < |mid| ==>
         mid[i] == all[i].(status := StatusNow(setup, base, file, Stands(setup, base, file, ids), d, all[i]),
                           closedBy := mid[i].closedBy, supersedes := mid[i].supersedes)
  }

  lemma CutFaces(setup: Setup, base: seq<Row>, file: seq<Option<Entry>>, ids: seq<string>, c: nat, d: nat, mid: seq<Row>)
    requires d <= c <= |file| == |ids| && CutRows(setup, base, file, ids, c, d, mid)
    ensures Reached(setup, base, file, ids, c, mid)
    ensures |mid| == |base| + |NewRows(setup, base, file, ids, c)|
  {
    hide NewRows, Born, StatusNow;
    NewRowsAre(setup, base, file, ids, c);
    var all := base + NewRows(setup, base, file, ids, c);
    assert Faces(all) == Faces(base) + Faces(NewRows(setup, base, file, ids, c));
    forall i | 0 <= i < |mid| ensures FaceOf(mid[i]) == FaceOf(all[i]) { }
    assert Faces(mid) == Faces(all);
  }

  lemma CutDistinct(setup: Setup, base: seq<Row>, file: seq<Option<Entry>>, ids: seq<string>, c: nat, d: nat, mid: seq<Row>)
    requires d <= c && Sound(setup, base, file, ids) && DistinctIds(base) && c <= |file| && CutRows(setup, base, file, ids, c, d, mid)
    ensures DistinctIds(mid)
  {
    hide NewRows, StatusNow, Fresh, DistinctKeys;
    AllDistinct(setup, base, file, ids, c);
  }

  lemma {:induction false} AllDistinct(setup: Setup, base: seq<Row>, file: seq<Option<Entry>>, ids: seq<string>, n: nat)
    requires Sound(setup, base, file, ids) && DistinctIds(base) && n <= |file|
    ensures DistinctIds(base + NewRows(setup, base, file, ids, n))
  {
    hide Fresh, DistinctKeys, IsNew, Faces;
    if n > 0 {
      AllDistinct(setup, base, file, ids, n - 1);
      var before, all := base + NewRows(setup, base, file, ids, n - 1), base + NewRows(setup, base, file, ids, n);
      if file[n - 1].Some? && IsNew(setup, Faces(base), file[n - 1].value) {
        assert all == before + [NewRow(file[n - 1].value, ids[n - 1])];
        forall i | 0 <= i < |before| ensures before[i].id != ids[n - 1] { IdApart(setup, base, file, ids, n - 1, i); }
      } else {
        assert all == before;
      }
    } else {
      assert base + NewRows(setup, base, file, ids, 0) == base;
    }
  }

  /** The status of a row after the whole second run, if it was there before. */
  lemma StatusAgain(setup: Setup, base: seq<Row>, file: seq<Option<Entry>>, first: seq<string>, second: seq<string>, c: nat,
                    d: nat, mid: seq<Row>, i: nat)
    requires Draws(setup, base, file, first, second) && d <= c <= |file| && Regular(setup, Faces(base), file)
    requires CutRows(setup, base, file, Drawn(first, second, c), c, d, mid) && i < |mid|
    ensures StatusNow(setup, mid, file, Stands(setup, mid, file, second), |file|, mid[i])
            == var given := SetBy(setup, file, StandsLater(setup, base, file, Drawn(first, second, c), c), |file|, mid[i].id);
               if given.Some? && IsCopy(Faces(mid), mid[i].id) && mid[i].status == "active" then given.value else mid[i].status
  {
    hide DistinctKeys, Fresh, Regular, Faces, NewRows, CutRows, Reached, Stands, StandsLater, SetBy;
    FreshPart(Faces(base), file, first, second, c);
    CutFaces(setup, base, file, Drawn(first, second, c), c, d, mid);
    CutDistinct(setup, base, file, Drawn(first, second, c), c, d, mid);
    StandsAgain(setup, base, file, first, second, c, mid);
    StatusAt(mid, i);
    FaceAt(mid, i);
  }

  /** A row of the store: the second run leaves it as an uninterrupted run if and only if its status, when
      the first run gave it one, is the last one asked for. */
  lemma OldRowAgain(setup: Setup, base: seq<Row>, file: seq<Option<Entry>>, first: seq<string>, second: seq<string>, c: nat,
                    d: nat, mid: seq<Row>, i: nat)
    requires Draws(setup, base, file, first, second) && d <= c <= |file| && Regular(setup, Faces(base), file)
    requires CutRows(setup, base, file, Drawn(first, second, c), c, d, mid) && i < |base|
    ensures i < |mid|
    ensures var stands := Stands(setup, base, file, Drawn(first, second, c));
            StatusNow(setup, mid, file, Stands(setup, mid, file, second), |file|, mid[i])
            == StatusNow(setup, base, file, stands, |file|, base[i])
            <==> (MayRepair(base, base[i].id) && SetBy(setup, file, stands, d, base[i].id).Some? ==>
                    SetBy(setup, file, stands, |file|, base[i].id) == SetBy(setup, file, stands, d, base[i].id))
  {
    hide DistinctKeys, Fresh, Regular, Faces, NewRows, Stands, StandsLater, SetBy, IsCopy;
    var h, x := Drawn(first, second, c), base[i].id;
    var stands, later := Stands(setup, base, file, h), StandsLater(setup, base, file, h, c);
    FreshPart(Faces(base), file, first, second, c);
    assert (base + NewRows(setup, base, file, h, c))[i] == base[i];
    StatusAgain(setup, base, file, first, second, c, d, mid, i);
    CutFaces(setup, base, file, h, c, d, mid);
    OldCopy(setup, base, file, h, c, mid, i);
    FaceAt(base, i);
    StatusAt(base, i);
    OldGiven(setup, base, file, h, c, x);
    GivenIsRestored(setup, file, stands, d, x);
    GivenIsRestored(setup, file, stands, |file|, x);
    GivenStays(setup, file, stands, d, x);
  }

  /** Once an item has asked for a status of the row, some status is given. */
  lemma {:induction false} GivenStays(setup: Setup, file: seq<Option<Entry>>, stands: seq<Option<string>>, d: nat, x: string)
    requires d <= |file| == |stands|
    ensures SetBy(setup, file, stands, d, x).Some? ==> SetBy(setup, file, stands, |file|, x).Some?
  {
    hide Quiet, Restored;
    var n := d;
    while n < |file|
      invariant d <= n <= |file| && (SetBy(setup, file, stands, d, x).Some? ==> SetBy(setup, file, stands, n, x).Some?)
    {
      n := n + 1;
    }
  }

  lemma OldGiven(setup: Setup, base: seq<Row>, file: seq<Option<Entry>>, ids: seq<string>, c: nat, x: string)
    requires Sound(setup, base, file, ids) && Regular(setup, Faces(base), file) && c <= |file| && IsRow(Faces(base), x)
    ensures SetBy(setup, file, StandsLater(setup, base, file, ids, c), |file|, x)
            == SetBy(setup, file, Stands(setup, base, file, ids), |file|, x)
  {
    hide DistinctKeys, Fresh, Regular, Faces, IsRow, LaterOf, SetBy, IsNew;
    var stands, later := Stands(setup, base, file, ids), StandsLater(setup, base, file, ids, c);
    forall k | 0 <= k < |file| ensures later[k] == Some(x) <==> stands[k] == Some(x) {
      LaterIs(setup, base, file, ids, c, k);
    }
    SameGiven(setup, file, later, stands, |file|, x, x);
  }

  /** The row of a new item `j < c`: likewise if and only if it had its status, or what stands with it asks for the same. */
  lemma NewRowAgain(setup: Setup, base: seq<Row>, file: seq<Option<Entry>>, first: seq<string>, second: seq<string>, c: nat,
                    d: nat, mid: seq<Row>, i: nat, j: nat)
    requires Draws(setup, base, file, first, second) && d <= c <= |file| && Regular(setup, Faces(base), file)
    requires CutRows(setup, base, file, Drawn(first, second, c), c, d, mid) && i < |mid|
    requires j < c && file[j].Some? && IsNew(setup, Faces(base), file[j].value)
    requires (base + NewRows(setup, base, file, Drawn(first, second, c), c))[i] == NewRow(file[j].value, Drawn(first, second, c)[j])
    ensures var r := NewRow(file[j].value, Drawn(first, second, c)[j]);
            StatusNow(setup, mid, file, Stands(setup, mid, file, second), |file|, mid[i])
            == StatusNow(setup, base, file, Stands(setup, base, file, Drawn(first, second, c)), |file|, r)
            <==> (j < d && !Quiet(setup, file[j].value))
                 || ClaimedStatus(setup, base, file, |file|, j) == OwnStatus(setup, file[j].value)
  {
    hide DistinctKeys, Fresh, Regular, Faces, NewRows, Stands, StandsLater, SetBy, IsCopy, IsNew, ClaimedStatus;
    var h := Drawn(first, second, c);
    var x := h[j];
    var stands, later := Stands(setup, base, file, h), StandsLater(setup, base, file, h, c);
    FreshPart(Faces(base), file, first, second, c);
    StatusAgain(setup, base, file, first, second, c, d, mid, i);
    CutFaces(setup, base, file, h, c, d, mid);
    NewCopy(setup, base, file, h, c, mid, j);
    FreshIsNoRow(base, file, h, j);
    NewGiven(setup, base, file, h, c, d, j);
    NewGiven(setup, base, file, h, c, |file|, j);
    GivenIsRestored(setup, file, stands, |file|, x);
    GivenIsRestored(setup, file, later, |file|, x);
  }

  lemma NewGiven(setup: Setup, base: seq<Row>, file: seq<Option<Entry>>, ids: seq<string>, c: nat, n: nat, j: nat)
    requires Sound(setup, base, file, ids) && Regular(setup, Faces(base), file) && c <= |file| && n <= |file|
    requires j < |file| && file[j].Some? && IsNew(setup, Faces(base), file[j].value)
    ensures SetBy(setup, file, Stands(setup, base, file, ids), n, ids[j]) == if j < n then OwnStatus(setup, file[j].value) else None
    ensures SetBy(setup, file, StandsLater(setup, base, file, ids, c), |file|, ids[j])
            == if j < c then ClaimedStatus(setup, base, file, |file|, j) else OwnStatus(setup, file[j].value)
  {
    hide DistinctKeys, Fresh, Regular, Faces, IsRow, LaterOf, SetBy, IsNew, StandsWith, ClaimedStatus;
    var stands, later := Stands(setup, base, file, ids), StandsLater(setup, base, file, ids, c);
    forall k | 0 <= k < |file|
      ensures stands[k] == Some(ids[j]) <==> k == j
      ensures later[k] == Some(ids[j]) <==> if j < c then StandsWith(setup, base, file, k, j) else k == j
    {
      LaterIs(setup, base, file, ids, c, k);
    }
    OnlyGiver(setup, file, stands, n, ids[j], j);
    if j < c {
      ClaimedGiven(setup, base, file, later, |file|, ids[j], j);
    } else {
      OnlyGiver(setup, file, later, |file|, ids[j], j);
    }
  }
}
