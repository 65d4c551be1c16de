/** What an import leaves behind: every entry counted once, statuses as exported, links where they belong. */
module ImportOutcome {
  import opened Basics
  import opened TextLines
  import opened ImportModel
  import opened ImportRecognition
  import opened ImportPhases
  import opened ImportLinks
  import opened ImportResume
  import opened ImportTheorems

  // ---- Counts ------------------------------------------------------------------------

  function Objects(file: seq<Option<Entry>>, n: nat): nat
    requires n <= |file|
  {
    if n == 0 then 0 else Objects(file, n - 1) + if file[n - 1].Some? then 1 else 0
  }

  /** Every object of the file is counted as imported, duplicate, filtered or refused, and as one of them only. */
  lemma {:induction false} EachCountedOnce(setup: Setup, base: seq<Row>, file: seq<Option<Entry>>, ids: seq<string>, n: nat)
    requires |ids| == |file| && n <= |file|
    ensures var w := HandleAll(setup, base, file, ids, n);
            |w.imported| + w.duplicates + w.filtered + |w.refused| == Objects(file, n)
  {
    if n > 0 {
      EachCountedOnce(setup, base, file, ids, n - 1);
      if file[n - 1].Some? {
        OneMoreCounted(setup, base, HandleAll(setup, base, file, ids, n - 1), file[n - 1].value, ids[n - 1]);
      }
    }
  }

  lemma OneMoreCounted(setup: Setup, base: seq<Row>, w: Work, e: Entry, id: string)
    ensures var u := Handle(setup, base, w, e, id);
            |u.imported| + u.duplicates + u.filtered + |u.refused|
            == |w.imported| + w.duplicates + w.filtered + |w.refused| + 1
  {
    hide Lookup, RestoreStatus, Created, Repairable, Passes, Strip, KeyOf, Seen;
  }

  // ---- Statuses ----------------------------------------------------------------------

  /** Item `j` stands for the row and asks for a status. */
  predicate Asks(setup: Setup, file: seq<Option<Entry>>, stands: seq<Option<string>>, j: nat, x: string)
    requires j < |file| == |stands|
  {
    file[j].Some? && stands[j] == Some(x) && !Quiet(setup, file[j].value)
  }

  /** Item `j` asks last, among the first `n`. */
  predicate AsksLast(setup: Setup, file: seq<Option<Entry>>, stands: seq<Option<string>>, n: nat, j: nat, x: string)
    requires n <= |file| == |stands|
  {
    j < n && Asks(setup, file, stands, j, x) && forall k :: j < k < n ==> !Asks(setup, file, stands, k, x)
  }

  lemma {:induction false} LastAskerGives(setup: Setup, file: seq<Option<Entry>>, stands: seq<Option<string>>, n: nat, j: nat, x: string)
    requires n <= |file| == |stands| && AsksLast(setup, file, stands, n, j, x)
    ensures file[j].Some? && file[j].value.status.Some?
    ensures SetBy(setup, file, stands, n, x) == Some(Restored(file[j].value.status.value))
  {
    hide Restored;
    if j < n - 1 {
      assert !Asks(setup, file, stands, n - 1, x);
      LastAskerGives(setup, file, stands, n - 1, j, x);
    }
  }

  lemma {:induction false} NoAskerNoStatus(setup: Setup, file: seq<Option<Entry>>, stands: seq<Option<string>>, n: nat, x: string)
    requires n <= |file| == |stands| && forall k :: 0 <= k < n ==> !Asks(setup, file, stands, k, x)
    ensures SetBy(setup, file, stands, n, x) == None
  {
    hide Restored;
    if n > 0 {
      assert !Asks(setup, file, stands, n - 1, x);
      NoAskerNoStatus(setup, file, stands, n - 1, x);
    }
  }

  /** After an import, the rows are those of the store and one for each new entry, with their contents; a new row or an
      active copy of an earlier import has the status that the last entry standing for it asks for, or obsolete for one
      that cannot be given, and every other row keeps its own. */
  lemma StatusesAsExported(setup: Setup, base: seq<Row>, file: seq<Option<Entry>>, ids: seq<string>, i: nat)
    requires Sound(setup, base, file, ids) && DistinctIds(base) && i < |Import(setup, base, file, ids)|
    ensures var all, stands := base + NewRows(setup, base, file, ids, |file|), Stands(setup, base, file, ids);
            var after := Import(setup, base, file, ids)[i];
            && |all| == |Import(setup, base, file, ids)|
            && after == all[i].(status := after.status, closedBy := after.closedBy, supersedes := after.supersedes)
            && (i < |base| && !MayRepair(base, all[i].id) ==> after.status == all[i].status)
            && ((forall k :: 0 <= k < |file| ==> !Asks(setup, file, stands, k, all[i].id)) ==> after.status == all[i].status)
            && ((i >= |base| || MayRepair(base, all[i].id)) ==>
                  forall j | 0 <= j < |file| && AsksLast(setup, file, stands, |file|, j, all[i].id) ::
                    file[j].Some? && file[j].value.status.Some? && after.status == Restored(file[j].value.status.value))
  {
    hide DistinctKeys, Fresh, Faces, HandleAll, Import, NewRows, Stands, Touchable, MatchedAs, DestinationsAs, ClosedBy, NewlyCloses,
      MayRepair, SetBy, Asks, AsksLast, IsRow, Restored;
    ImportMade(setup, base, file, ids);
    var all, stands := base + NewRows(setup, base, file, ids, |file|), Stands(setup, base, file, ids);
    forall j | 0 <= j < |file| && AsksLast(setup, file, stands, |file|, j, all[i].id)
      ensures file[j].Some? && file[j].value.status.Some?
      ensures SetBy(setup, file, stands, |file|, all[i].id) == Some(Restored(file[j].value.status.value))
    {
      LastAskerGives(setup, file, stands, |file|, j, all[i].id);
    }
    if forall k :: 0 <= k < |file| ==> !Asks(setup, file, stands, k, all[i].id) {
      NoAskerNoStatus(setup, file, stands, |file|, all[i].id);
    }
    if i < |base| {
      FaceAt(base, i);
    } else {
      var j := ItemOf(setup, base, file, ids, |file|, i);
      FreshIsNoRow(base, file, ids, j);
    }
  }

  // ---- Links -------------------------------------------------------------------------

  /** The ids of the rows after `n` items: those of the store, and some of the fresh ones. */
  ghost predicate KnownIds(base: seq<Row>, ids: seq<string>, n: nat, rows: seq<Row>)
    requires n <= |ids|
  {
    forall i :: 0 <= i < |rows| ==> rows[i].id in RowIds(base) || rows[i].id in ids[..n]
  }

  lemma {:induction false} IdsStayDistinct(setup: Setup, base: seq<Row>, file: seq<Option<Entry>>, ids: seq<string>, n: nat)
    requires DistinctIds(base) && Fresh(Faces(base), file, ids) && n <= |file| == |ids|
    ensures var rows := HandleAll(setup, base, file, ids, n).rows; DistinctIds(rows) && KnownIds(base, ids, n, rows)
  {
    hide Handle, Fresh, KnownIds, DistinctIds;
    if n > 0 {
      IdsStayDistinct(setup, base, file, ids, n - 1);
      var w := HandleAll(setup, base, file, ids, n - 1);
      NewIdUnknown(base, file, ids, n - 1, w.rows);
      if file[n - 1].Some? {
        SameIdsOrOneMore(setup, base, w, file[n - 1].value, ids[n - 1]);
      }
      OneMoreDistinct(base, ids, n, w.rows, HandleAll(setup, base, file, ids, n).rows);
    } else {
      StartIds(base, ids);
    }
  }

  lemma StartIds(base: seq<Row>, ids: seq<string>)
    ensures KnownIds(base, ids, 0, base)
  {
    forall i | 0 <= i < |base| ensures base[i].id in RowIds(base) { }
  }

  lemma OneMoreDistinct(base: seq<Row>, ids: seq<string>, n: nat, before: seq<Row>, rows: seq<Row>)
    requires 0 < n <= |ids| && DistinctIds(before) && KnownIds(base, ids, n - 1, before)
    requires forall i :: 0 <= i < |before| ==> before[i].id != ids[n - 1]
    requires |before| <= |rows| <= |before| + 1 && forall i :: 0 <= i < |before| ==> rows[i].id == before[i].id
    requires |rows| > |before| ==> rows[|before|].id == ids[n - 1]
    ensures DistinctIds(rows) && KnownIds(base, ids, n, rows)
  {
    hide RowIds;
    assert ids[..n] == ids[..n - 1] + [ids[n - 1]];
  }

  lemma NewIdUnknown(base: seq<Row>, file: seq<Option<Entry>>, ids: seq<string>, n: nat, rows: seq<Row>)
    requires Fresh(Faces(base), file, ids) && n < |ids| && KnownIds(base, ids, n, rows)
    ensures forall i :: 0 <= i < |rows| ==> rows[i].id != ids[n]
  {
    assert Unseen(Faces(base), file, ids[n]);
    forall i | 0 <= i < |base| ensures base[i].id != ids[n] { assert Faces(base)[i].id == base[i].id; }
  }

  lemma SameIdsOrOneMore(setup: Setup, base: seq<Row>, w: Work, e: Entry, id: string)
    ensures var rows := Handle(setup, base, w, e, id).rows;
            && |w.rows| <= |rows| <= |w.rows| + 1
            && (forall i :: 0 <= i < |w.rows| ==> rows[i].id == w.rows[i].id)
            && (|rows| > |w.rows| ==> rows[|w.rows|].id == id)
  {
    hide Lookup, Repairable, Passes, Strip, KeyOf, Seen, Quiet;
  }

  /** Over a whole import: rows are closed by the closers their entries name, and closers supersede exactly those. */
  lemma SupersessionAsExported(setup: Setup, base: seq<Row>, file: seq<Option<Entry>>, ids: seq<string>)
    requires |ids| == |file| && DistinctIds(base) && Fresh(Faces(base), file, ids)
    ensures var w := HandleAll(setup, base, file, ids, |file|);
            LinksMade(setup, w.rows, w.matched, w.destinations, Repairables(base, w), Import(setup, base, file, ids))
  {
    hide HandleAll, LinksMade, LinkAll, Repairable, Fresh;
    IdsStayDistinct(setup, base, file, ids, |file|);
    var w := HandleAll(setup, base, file, ids, |file|);
    LinksAsExported(setup, w.rows, w.matched, w.destinations, Repairables(base, w));
  }
}
