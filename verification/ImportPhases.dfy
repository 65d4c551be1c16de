/** What the two phases of an import do to the rows of the store. */
module ImportPhases {
  import opened Basics
  import opened TextLines
  import opened ImportModel
  import opened ImportRecognition

  // ---- Row updates -------------------------------------------------------------------

  lemma {:induction false} StatusOfRow(rows: seq<Row>, x: string)
    ensures StatusOf(rows, x).Some? <==> IsRow(Faces(rows), x)
  {
    if rows != [] {
      assert Faces(rows)[1..] == Faces(rows[1..]) && Faces(rows)[0].id == rows[0].id;
      StatusOfRow(rows[1..], x);
      if IsRow(Faces(rows), x) && rows[0].id != x {
        var i :| 0 <= i < |rows| && Faces(rows)[i].id == x;
        assert Faces(rows[1..])[i - 1].id == x;
      }
      if IsRow(Faces(rows[1..]), x) {
        var i :| 0 <= i < |rows| - 1 && Faces(rows[1..])[i].id == x;
        assert Faces(rows)[i + 1].id == x;
      }
    }
  }

  lemma {:induction false} StatusAt(rows: seq<Row>, i: nat)
    requires DistinctIds(rows) && i < |rows|
    ensures StatusOf(rows, rows[i].id) == Some(rows[i].status)
  {
    if i > 0 {
      assert rows[0].id != rows[i].id;
      StatusAt(rows[1..], i - 1);
    }
  }

  lemma FacesAfter(setup: Setup, rows: seq<Row>, e: Entry, id: string, closer: string)
    ensures Faces(RestoreStatus(setup, rows, e, id)) == Faces(rows)
    ensures Faces(Linked(rows, closer, id)) == Faces(rows)
    ensures Faces(rows + [NewRow(e, id)]) == Faces(rows) + [BirthFace(e, id)]
  {
  }

  // ---- One entry at a time -----------------------------------------------------------

  ghost predicate Sound(setup: Setup, base: seq<Row>, file: seq<Option<Entry>>, ids: seq<string>) {
    |ids| == |file| && DistinctKeys(setup, file) && Fresh(Faces(base), file, ids)
  }

  /** The row the store held for an entry before the import. */
  function Found(base: seq<Row>, e: Entry): Option<string> {
    if e.id == None then None else Destination(Faces(base), KeyOf(e))
  }

  lemma {:induction false} AddedKeys(setup: Setup, base: seq<Row>, file: seq<Option<Entry>>, ids: seq<string>, n: nat)
    requires |ids| == |file| && n <= |file|
    ensures forall key :: key in HandleAll(setup, base, file, ids, n).added ==>
              exists j :: 0 <= j < n && KeyedAt(setup, file, j) && key == KeyOf(file[j].value)
  {
    hide KeyOf, Lookup, Eligible, RestoreStatus, Repairable;
    if n > 0 {
      AddedKeys(setup, base, file, ids, n - 1);
      var before, after := HandleAll(setup, base, file, ids, n - 1), HandleAll(setup, base, file, ids, n);
      forall key | key in after.added
        ensures exists j :: 0 <= j < n && KeyedAt(setup, file, j) && key == KeyOf(file[j].value)
      {
        if key !in before.added {
          AddsOwnKey(setup, base, before, file[n - 1].value, ids[n - 1], key);
          assert KeyedAt(setup, file, n - 1);
        }
      }
    }
  }

  lemma AddsOwnKey(setup: Setup, base: seq<Row>, w: Work, e: Entry, id: string, key: Key)
    requires key in Handle(setup, base, w, e, id).added && key !in w.added
    ensures Eligible(setup, e) && e.id.Some? && key == KeyOf(e)
  {
    hide KeyOf, Lookup, RestoreStatus, Repairable;
  }

  /** With distinct keys, each entry is recognised by what the store held at the start. */
  lemma LooksUpStart(setup: Setup, base: seq<Row>, file: seq<Option<Entry>>, ids: seq<string>, n: nat)
    requires Sound(setup, base, file, ids) && n < |file| && EligibleAt(setup, file, n)
    ensures Lookup(base, HandleAll(setup, base, file, ids, n), file[n].value) == Found(base, file[n].value)
  {
    hide KeyOf, Destination, Fresh;
    AddedKeys(setup, base, file, ids, n);
    if file[n].value.id.Some? {
      assert KeyedAt(setup, file, n);
    }
  }

  /** One item handled, with the lookup replaced by what the store held at the start. */
  ghost function HandleFound(setup: Setup, base: seq<Row>, w: Work, e: Entry, id: string): Work {
    if !Passes(setup, e) then w.(filtered := w.filtered + 1)
    else if Strip(e.summary) == "" then w.(refused := w.refused + ["empty summary"])
    else if Found(base, e).Some? then Recognise(setup, base, w, e, Found(base, e).value)
    else Store(setup, w, e, id)
  }

  lemma HandlesFound(setup: Setup, base: seq<Row>, file: seq<Option<Entry>>, ids: seq<string>, n: nat)
    requires Sound(setup, base, file, ids) && n < |file| && file[n].Some?
    ensures HandleAll(setup, base, file, ids, n + 1)
            == HandleFound(setup, base, HandleAll(setup, base, file, ids, n), file[n].value, ids[n])
  {
    hide DistinctKeys, Fresh, Recognise, Store, Lookup, Found;
    if EligibleAt(setup, file, n) {
      LooksUpStart(setup, base, file, ids, n);
    }
  }

  // ---- What the first phase leaves ---------------------------------------------------

  lemma FoundIsNotNew(setup: Setup, base: seq<Row>, e: Entry)
    ensures IsNew(setup, Faces(base), e) <==> Eligible(setup, e) && setup.verdict(e) == Recorded && Found(base, e) == None
  {
  }

  lemma HandledFaces(setup: Setup, base: seq<Row>, w: Work, e: Entry, id: string)
    ensures Faces(HandleFound(setup, base, w, e, id).rows)
            == Faces(w.rows) + if IsNew(setup, Faces(base), e) then [BirthFace(e, id)] else []
  {
    hide IsNew, Repairable, RestoreStatus, Destination, Strip, BirthFace;
    FoundIsNotNew(setup, base, e);
    FacesAfter(setup, w.rows, e, id, id);
    FacesAfter(setup, Created(w, e, id), e, id, id);
    if Found(base, e).Some? {
      FacesAfter(setup, w.rows, e, Found(base, e).value, id);
    }
  }

  lemma {:induction false} FacesOfRun(setup: Setup, base: seq<Row>, file: seq<Option<Entry>>, ids: seq<string>, n: nat)
    requires Sound(setup, base, file, ids) && n <= |file|
    ensures Faces(HandleAll(setup, base, file, ids, n).rows) == Faces(base) + Born(setup, Faces(base), file, ids, n)
  {
    hide DistinctKeys, Fresh, IsNew, BirthFace, HandleFound, Faces;
    if n > 0 {
      FacesOfRun(setup, base, file, ids, n - 1);
      if file[n - 1].Some? {
        HandlesFound(setup, base, file, ids, n - 1);
        HandledFaces(setup, base, HandleAll(setup, base, file, ids, n - 1), file[n - 1].value, ids[n - 1]);
      }
    }
  }

  /** The ids the run itself made repairable: those of its new rows with an exported id. */
  lemma {:induction false} MineOfRun(setup: Setup, base: seq<Row>, file: seq<Option<Entry>>, ids: seq<string>, n: nat)
    requires Sound(setup, base, file, ids) && n <= |file|
    ensures forall x :: x in HandleAll(setup, base, file, ids, n).mine <==>
              exists j :: 0 <= j < n && file[j].Some? && IsNew(setup, Faces(base), file[j].value)
                          && file[j].value.id.Some? && x == ids[j]
  {
    hide DistinctKeys, Fresh, IsNew, HandleFound, Faces;
    if n > 0 {
      MineOfRun(setup, base, file, ids, n - 1);
      if file[n - 1].Some? {
        HandlesFound(setup, base, file, ids, n - 1);
        HandledMine(setup, base, HandleAll(setup, base, file, ids, n - 1), file[n - 1].value, ids[n - 1]);
      }
    }
  }

  lemma HandledMine(setup: Setup, base: seq<Row>, w: Work, e: Entry, id: string)
    ensures HandleFound(setup, base, w, e, id).mine
            == w.mine + if IsNew(setup, Faces(base), e) && e.id.Some? then {id} else {}
  {
    hide IsNew, Repairable, RestoreStatus, Destination, Strip;
    FoundIsNotNew(setup, base, e);
  }

  // ---- Rows and what entries stand for -----------------------------------------------

  lemma DestinationIsRow(faces: seq<Face>, key: Key)
    ensures Destination(faces, key).Some? ==> IsRow(faces, Destination(faces, key).value)
  {
    ClaimIs(faces, key);
    if HasOwn(faces, key) {
      var i :| 0 <= i < |faces| && IsOwn(faces[i], key);
      assert faces[i].id == key.id;
    } else if FirstClaim(faces, key).Some? {
      var f :| f in faces && Claims(f, key) && FirstClaim(faces, key) == Some(f.id);
      var i :| 0 <= i < |faces| && faces[i] == f;
      assert faces[i].id == f.id;
    }
  }

  lemma FreshIsNoRow(base: seq<Row>, file: seq<Option<Entry>>, ids: seq<string>, j: nat)
    requires Fresh(Faces(base), file, ids) && j < |ids|
    ensures !IsRow(Faces(base), ids[j]) && StatusOf(base, ids[j]) == None
  {
    assert Unseen(Faces(base), file, ids[j]);
    StatusOfRow(base, ids[j]);
  }

  /** The row an item stands for once it has been handled. */
  function Standing(setup: Setup, base: seq<Row>, e: Entry, id: string): Option<string> {
    if !Eligible(setup, e) then None
    else if Found(base, e).Some? then Found(base, e)
    else if setup.verdict(e) == Recorded then Some(id) else None
  }

  lemma FreshDistinct(base: seq<Row>, file: seq<Option<Entry>>, ids: seq<string>, i: nat, j: nat)
    requires Fresh(Faces(base), file, ids) && i < |ids| && j < |ids| && i != j
    ensures ids[i] != ids[j]
  {
  }

  /** What each item stands for once it has been handled. */
  function Stands(setup: Setup, base: seq<Row>, file: seq<Option<Entry>>, ids: seq<string>): (r: seq<Option<string>>)
    requires |ids| == |file|
    ensures |r| == |file|
  {
    seq(|file|, k requires 0 <= k < |file| => if file[k].Some? then Standing(setup, base, file[k].value, ids[k]) else None)
  }

  function MatchedAs(file: seq<Option<Entry>>, stands: seq<Option<string>>, n: nat): seq<(Entry, string)>
    requires n <= |file| == |stands|
  {
    if n == 0 then []
    else MatchedAs(file, stands, n - 1) +
         if file[n - 1].Some? && stands[n - 1].Some? then [(file[n - 1].value, stands[n - 1].value)] else []
  }

  /** The rows that the entries with each exported id stand for. */
  function DestinationsAs(file: seq<Option<Entry>>, stands: seq<Option<string>>, n: nat): map<string, set<string>>
    requires n <= |file| == |stands|
  {
    if n == 0 then map[]
    else
      var before := DestinationsAs(file, stands, n - 1);
      if file[n - 1].Some? && stands[n - 1].Some? && file[n - 1].value.id.Some?
      then Seen(before, file[n - 1].value.id.value, stands[n - 1].value) else before
  }

  lemma Matches(setup: Setup, base: seq<Row>, w: Work, e: Entry, id: string)
    ensures var u, row := HandleFound(setup, base, w, e, id), Standing(setup, base, e, id);
            && u.matched == w.matched + (if row.Some? then [(e, row.value)] else [])
            && u.destinations == if row.Some? && e.id.Some? then Seen(w.destinations, e.id.value, row.value) else w.destinations
  {
    hide Repairable, RestoreStatus, Destination, KeyOf, Strip, Seen;
  }

  lemma {:induction false} MatchesOfRun(setup: Setup, base: seq<Row>, file: seq<Option<Entry>>, ids: seq<string>, n: nat)
    requires Sound(setup, base, file, ids) && n <= |file|
    ensures var w, stands := HandleAll(setup, base, file, ids, n), Stands(setup, base, file, ids);
            w.matched == MatchedAs(file, stands, n) && w.destinations == DestinationsAs(file, stands, n)
  {
    hide DistinctKeys, Fresh, HandleFound, Standing, Seen;
    if n > 0 {
      MatchesOfRun(setup, base, file, ids, n - 1);
      if file[n - 1].Some? {
        HandlesFound(setup, base, file, ids, n - 1);
        Matches(setup, base, HandleAll(setup, base, file, ids, n - 1), file[n - 1].value, ids[n - 1]);
      }
    }
  }

  // ---- The rows of a run, in one piece -----------------------------------------------

  /** The rows after one item, from the rows before it. */
  ghost function RowsAfter(setup: Setup, base: seq<Row>, rows: seq<Row>, e: Entry, id: string): seq<Row> {
    if !Eligible(setup, e) then rows
    else if Found(base, e).Some? then
      if MayRepair(base, Found(base, e).value) then RestoreStatus(setup, rows, e, Found(base, e).value) else rows
    else if setup.verdict(e) == Recorded then RestoreStatus(setup, rows + [NewRow(e, id)], e, id)
    else rows
  }

  /** The row is an earlier import's, and active: only such a row of the store gets a status. */
  ghost predicate MayRepair(base: seq<Row>, x: string) {
    IsCopy(Faces(base), x) && StatusOf(base, x) == Some("active")
  }

  lemma RowsGo(setup: Setup, base: seq<Row>, file: seq<Option<Entry>>, ids: seq<string>, n: nat)
    requires Sound(setup, base, file, ids) && n < |file| && file[n].Some?
    ensures HandleAll(setup, base, file, ids, n + 1).rows
            == RowsAfter(setup, base, HandleAll(setup, base, file, ids, n).rows, file[n].value, ids[n])
  {
    hide DistinctKeys, Fresh, RestoreStatus, Destination, KeyOf, Strip, IsCopy, StatusOf, Faces, IsNew;
    HandlesFound(setup, base, file, ids, n);
    MineOfRun(setup, base, file, ids, n);
    var e := file[n].value;
    if Found(base, e).Some? {
      DestinationIsRow(Faces(base), KeyOf(e));
      forall j | 0 <= j < n ensures ids[j] != Found(base, e).value { FreshIsNoRow(base, file, ids, j); }
    }
  }

  function NewRows(setup: Setup, base: seq<Row>, file: seq<Option<Entry>>, ids: seq<string>, n: nat): seq<Row>
    requires n <= |file| == |ids|
  {
    if n == 0 then []
    else NewRows(setup, base, file, ids, n - 1) +
         if file[n - 1].Some? && IsNew(setup, Faces(base), file[n - 1].value) then [NewRow(file[n - 1].value, ids[n - 1])] else []
  }

  /** The status given by the last of the first `n` items that stands for the row and asks for one. */
  function SetBy(setup: Setup, file: seq<Option<Entry>>, stands: seq<Option<string>>, n: nat, x: string): Option<string>
    requires n <= |file| == |stands|
  {
    if n == 0 then None
    else if file[n - 1].Some? && stands[n - 1] == Some(x) && !Quiet(setup, file[n - 1].value)
    then Some(Restored(file[n - 1].value.status.value))
    else SetBy(setup, file, stands, n - 1, x)
  }

  /** The status of a row after `n` items. */
  ghost function StatusNow(setup: Setup, base: seq<Row>, file: seq<Option<Entry>>, stands: seq<Option<string>>, n: nat, r: Row): string
    requires n <= |file| == |stands|
  {
    var given := SetBy(setup, file, stands, n, r.id);
    if given == None || (IsRow(Faces(base), r.id) && !MayRepair(base, r.id)) then r.status else given.value
  }

  /** The rows are those of the store and the new ones, with the statuses `n` items gave them. */
  ghost predicate RowsAre(setup: Setup, base: seq<Row>, file: seq<Option<Entry>>, ids: seq<string>, c: nat, n: nat, rows: seq<Row>)
    requires c <= |file| == |ids| && n <= |file|
  {
    var all := base + NewRows(setup, base, file, ids, c);
    && |rows| == |all|
    && forall i :: 0 <= i < |rows| ==>
         rows[i] == all[i].(status := StatusNow(setup, base, file, Stands(setup, base, file, ids), n, all[i]))
  }

  lemma {:induction false} NewRowsAre(setup: Setup, base: seq<Row>, file: seq<Option<Entry>>, ids: seq<string>, n: nat)
    requires n <= |file| == |ids|
    ensures forall r :: r in NewRows(setup, base, file, ids, n) ==>
              exists j :: 0 <= j < n && file[j].Some? && IsNew(setup, Faces(base), file[j].value) && r == NewRow(file[j].value, ids[j])
    ensures Faces(NewRows(setup, base, file, ids, n)) == Born(setup, Faces(base), file, ids, n)
  {
    hide IsNew, NewRow, FaceOf;
    if n > 0 {
      NewRowsAre(setup, base, file, ids, n - 1);
      var before := NewRows(setup, base, file, ids, n - 1);
      forall r | r in NewRows(setup, base, file, ids, n)
        ensures exists j :: 0 <= j < n && file[j].Some? && IsNew(setup, Faces(base), file[j].value) && r == NewRow(file[j].value, ids[j])
      {
        if r !in before {
          assert file[n - 1].Some? && IsNew(setup, Faces(base), file[n - 1].value) && r == NewRow(file[n - 1].value, ids[n - 1]);
        }
      }
      assert Faces(NewRows(setup, base, file, ids, n)) == Born(setup, Faces(base), file, ids, n);
    }
  }

  /** A fresh id is the id of no row, and nothing stands for it, before its item has come. */
  lemma {:induction false} NothingSet(setup: Setup, base: seq<Row>, file: seq<Option<Entry>>, ids: seq<string>, n: nat, j: nat)
    requires Sound(setup, base, file, ids) && n <= j < |file|
    ensures SetBy(setup, file, Stands(setup, base, file, ids), n, ids[j]) == None
  {
    hide DistinctKeys, Fresh, Faces, Destination, KeyOf, IsRow, Eligible, Quiet;
    if n > 0 {
      NothingSet(setup, base, file, ids, n - 1, j);
      FreshDistinct(base, file, ids, n - 1, j);
      FreshIsNoRow(base, file, ids, j);
      if file[n - 1].Some? && file[n - 1].value.id.Some? {
        DestinationIsRow(Faces(base), KeyOf(file[n - 1].value));
      }
    }
  }

  lemma IdApart(setup: Setup, base: seq<Row>, file: seq<Option<Entry>>, ids: seq<string>, n: nat, i: nat)
    requires Fresh(Faces(base), file, ids) && n < |file| == |ids| && i < |base + NewRows(setup, base, file, ids, n)|
    ensures (base + NewRows(setup, base, file, ids, n))[i].id != ids[n]
  {
    hide IsNew, Fresh, NewRows;
    var news := NewRows(setup, base, file, ids, n);
    if i < |base| {
      FreshIsNoRow(base, file, ids, n);
      assert Faces(base)[i].id == base[i].id;
    } else {
      hide Faces;
      NewRowsAre(setup, base, file, ids, n);
      var r := news[i - |base|];
      assert r in news && (base + news)[i] == r;
      var j :| 0 <= j < n && file[j].Some? && IsNew(setup, Faces(base), file[j].value) && r == NewRow(file[j].value, ids[j]);
      FreshDistinct(base, file, ids, j, n);
    }
  }

  lemma SetByNext(setup: Setup, file: seq<Option<Entry>>, stands: seq<Option<string>>, n: nat, x: string)
    requires n < |file| == |stands|
    ensures SetBy(setup, file, stands, n + 1, x)
            == if file[n].Some? && stands[n] == Some(x) && !Quiet(setup, file[n].value)
               then Some(Restored(file[n].value.status.value)) else SetBy(setup, file, stands, n, x)
  {
  }

  /** An item that stands for nothing, or asks for no status, changes no status. */
  lemma StillAre(setup: Setup, base: seq<Row>, file: seq<Option<Entry>>, ids: seq<string>, n: nat, rows: seq<Row>)
    requires Sound(setup, base, file, ids) && n < |file| && RowsAre(setup, base, file, ids, n, n, rows)
    requires file[n].Some? ==> !IsNew(setup, Faces(base), file[n].value)
    requires file[n].Some? && Stands(setup, base, file, ids)[n].Some? && !Quiet(setup, file[n].value) ==>
               var x := Stands(setup, base, file, ids)[n].value; IsRow(Faces(base), x) && !MayRepair(base, x)
    ensures RowsAre(setup, base, file, ids, n + 1, n + 1, rows)
  {
    hide DistinctKeys, Fresh, Faces, Stands, SetBy, IsNew, IsRow, MayRepair;
    var stands := Stands(setup, base, file, ids);
    forall x ensures SetBy(setup, file, stands, n + 1, x)
                     == if file[n].Some? && stands[n] == Some(x) && !Quiet(setup, file[n].value)
                        then Some(Restored(file[n].value.status.value)) else SetBy(setup, file, stands, n, x)
    {
      SetByNext(setup, file, stands, n, x);
    }
    assert NewRows(setup, base, file, ids, n + 1) == NewRows(setup, base, file, ids, n);
  }

  lemma RepairedAre(setup: Setup, base: seq<Row>, file: seq<Option<Entry>>, ids: seq<string>, n: nat, rows: seq<Row>, x: string)
    requires Sound(setup, base, file, ids) && n < |file| && RowsAre(setup, base, file, ids, n, n, rows)
    requires file[n].Some? && !IsNew(setup, Faces(base), file[n].value) && Stands(setup, base, file, ids)[n] == Some(x)
    requires MayRepair(base, x) && !Quiet(setup, file[n].value)
    ensures RowsAre(setup, base, file, ids, n + 1, n + 1, SetStatus(rows, x, Restored(file[n].value.status.value)))
  {
    hide DistinctKeys, Fresh, Faces, Stands, SetBy, IsNew, IsRow, MayRepair, Restored;
    var stands := Stands(setup, base, file, ids);
    forall y ensures SetBy(setup, file, stands, n + 1, y)
                     == if y == x then Some(Restored(file[n].value.status.value)) else SetBy(setup, file, stands, n, y)
    {
      SetByNext(setup, file, stands, n, y);
    }
    assert NewRows(setup, base, file, ids, n + 1) == NewRows(setup, base, file, ids, n);
  }

  lemma AddedAre(setup: Setup, base: seq<Row>, file: seq<Option<Entry>>, ids: seq<string>, n: nat, rows: seq<Row>)
    requires Sound(setup, base, file, ids) && n < |file| && RowsAre(setup, base, file, ids, n, n, rows)
    requires file[n].Some? && IsNew(setup, Faces(base), file[n].value)
    ensures RowsAre(setup, base, file, ids, n + 1, n, rows + [NewRow(file[n].value, ids[n])])
    ensures RowsAre(setup, base, file, ids, n + 1, n + 1,
                    RestoreStatus(setup, rows + [NewRow(file[n].value, ids[n])], file[n].value, ids[n]))
  {
    hide DistinctKeys, Fresh, Faces, Stands, SetBy, IsNew, IsRow, MayRepair, Restored;
    var e, id, stands := file[n].value, ids[n], Stands(setup, base, file, ids);
    var news, more := NewRows(setup, base, file, ids, n), NewRows(setup, base, file, ids, n + 1);
    NewStands(setup, base, file, ids, n);
    NothingSet(setup, base, file, ids, n, n);
    FreshIsNoRow(base, file, ids, n);
    assert base + more == (base + news) + [NewRow(e, id)];
    forall i | 0 <= i < |base + news| ensures (base + news)[i].id != id {
      IdApart(setup, base, file, ids, n, i);
    }
    forall y ensures SetBy(setup, file, stands, n + 1, y)
                     == if y == id && !Quiet(setup, e) then Some(Restored(e.status.value)) else SetBy(setup, file, stands, n, y)
    {
      SetByNext(setup, file, stands, n, y);
    }
  }

  lemma NewStands(setup: Setup, base: seq<Row>, file: seq<Option<Entry>>, ids: seq<string>, n: nat)
    requires n < |file| == |ids| && file[n].Some?
    ensures IsNew(setup, Faces(base), file[n].value) ==> Stands(setup, base, file, ids)[n] == Some(ids[n])
    ensures !IsNew(setup, Faces(base), file[n].value) ==>
              Stands(setup, base, file, ids)[n] == if Eligible(setup, file[n].value) then Found(base, file[n].value) else None
  {
    FoundIsNotNew(setup, base, file[n].value);
  }

  /** The store after `n` items of an import, in one piece. */
  lemma {:induction false} RowsOfRun(setup: Setup, base: seq<Row>, file: seq<Option<Entry>>, ids: seq<string>, n: nat)
    requires Sound(setup, base, file, ids) && n <= |file|
    ensures RowsAre(setup, base, file, ids, n, n, HandleAll(setup, base, file, ids, n).rows)
  {
    hide DistinctKeys, Fresh, Faces, Stands, IsNew, IsRow, MayRepair, Quiet, Found, RowsAre, NewRow, SetStatus;
    if n > 0 {
      var k := n - 1;
      RowsOfRun(setup, base, file, ids, k);
      var rows := HandleAll(setup, base, file, ids, k).rows;
      if file[k].Some? {
        var e := file[k].value;
        RowsGo(setup, base, file, ids, k);
        NewStands(setup, base, file, ids, k);
        FoundIsNotNew(setup, base, e);
        FoundIsRow(base, e);
        if IsNew(setup, Faces(base), e) {
          AddedAre(setup, base, file, ids, k, rows);
        } else if Eligible(setup, e) && Found(base, e).Some? && MayRepair(base, Found(base, e).value) && !Quiet(setup, e) {
          RepairedAre(setup, base, file, ids, k, rows, Found(base, e).value);
        } else {
          StillAre(setup, base, file, ids, k, rows);
        }
      } else {
        StillAre(setup, base, file, ids, k, rows);
      }
    } else {
      StartAre(setup, base, file, ids);
    }
  }

  lemma StartAre(setup: Setup, base: seq<Row>, file: seq<Option<Entry>>, ids: seq<string>)
    requires |ids| == |file|
    ensures RowsAre(setup, base, file, ids, 0, 0, base)
  {
    assert base + NewRows(setup, base, file, ids, 0) == base;
  }

  lemma FoundIsRow(base: seq<Row>, e: Entry)
    ensures Found(base, e).Some? ==> IsRow(Faces(base), Found(base, e).value)
  {
    hide KeyOf, Destination, Faces, IsRow;
    if e.id.Some? {
      DestinationIsRow(Faces(base), KeyOf(e));
    }
  }
}
