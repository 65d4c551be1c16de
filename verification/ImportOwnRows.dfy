/** An import never changes a row that no import made, whatever the file and wherever it stops. */
module ImportOwnRows {
  import opened Basics
  import opened TextLines
  import opened ImportModel
  import opened ImportRecognition

  predicate HasImportTag(tags: seq<string>) {
    exists t :: t in tags && IMPORTED_ID <= t
  }

  /** The rows of `base` that no import made are still there, untouched. */
  ghost predicate KeepsOwn(base: seq<Row>, rows: seq<Row>) {
    && |base| <= |rows|
    && (forall i :: 0 <= i < |base| && !HasImportTag(base[i].tags) ==> rows[i] == base[i])
  }

  lemma OwnNotRepairable(base: seq<Row>, w: Work, file: seq<Option<Entry>>, ids: seq<string>, i: nat)
    requires DistinctIds(base) && i < |base| && !HasImportTag(base[i].tags)
    requires Fresh(Faces(base), file, ids) && (forall x :: x in w.mine ==> x in ids)
    ensures !Repairable(base, w, base[i].id)
  {
    var faces, id := Faces(base), base[i].id;
    forall k | 0 <= k < |ids| ensures ids[k] != id {
      assert Unseen(faces, file, ids[k]) && faces[i].id == id;
    }
    forall key: Key ensures FirstClaim(faces, key) != Some(id) {
      ClaimIs(faces, key);
      forall k | 0 <= k < |faces| && Claims(faces[k], key) ensures faces[k].id != id {
        assert IMPORTED_ID <= IMPORTED_ID + key.id;
      }
    }
  }

  lemma RestoreKeeps(setup: Setup, base: seq<Row>, rows: seq<Row>, e: Entry, id: string)
    requires KeepsOwn(base, rows) && forall i :: 0 <= i < |base| && !HasImportTag(base[i].tags) ==> base[i].id != id
    ensures KeepsOwn(base, RestoreStatus(setup, rows, e, id))
  {
    hide HasImportTag;
  }

  lemma NewKeeps(base: seq<Row>, rows: seq<Row>, r: Row)
    requires KeepsOwn(base, rows)
    ensures KeepsOwn(base, rows + [r])
  {
    hide HasImportTag;
  }

  lemma LinkKeeps(setup: Setup, base: seq<Row>, rows: seq<Row>, m: (Entry, string), destinations: map<string, set<string>>,
                  repairable: set<string>)
    requires KeepsOwn(base, rows)
    requires forall i :: 0 <= i < |base| && !HasImportTag(base[i].tags) ==> base[i].id !in repairable
    ensures KeepsOwn(base, LinkOne(setup, rows, m, destinations, repairable))
  {
    hide HasImportTag;
  }

  lemma {:induction false} LinksKeepOwn(setup: Setup, base: seq<Row>, rows: seq<Row>, matched: seq<(Entry, string)>,
                                     destinations: map<string, set<string>>, repairable: set<string>)
    requires KeepsOwn(base, rows)
    requires forall i :: 0 <= i < |base| && !HasImportTag(base[i].tags) ==> base[i].id !in repairable
    ensures KeepsOwn(base, LinkAll(setup, rows, matched, destinations, repairable))
    decreases |matched|
  {
    hide HasImportTag, KeepsOwn, LinkOne;
    if matched != [] {
      var k := |matched| - 1;
      LinksKeepOwn(setup, base, rows, matched[..k], destinations, repairable);
      LinkKeeps(setup, base, LinkAll(setup, rows, matched[..k], destinations, repairable), matched[k], destinations, repairable);
    }
  }

  lemma HandleKeeps(setup: Setup, base: seq<Row>, w: Work, e: Entry, id: string, file: seq<Option<Entry>>, ids: seq<string>)
    requires DistinctIds(base) && Fresh(Faces(base), file, ids) && id in ids
    requires KeepsOwn(base, w.rows) && forall x :: x in w.mine ==> x in ids
    ensures var u := Handle(setup, base, w, e, id); KeepsOwn(base, u.rows) && forall x :: x in u.mine ==> x in ids
  {
    hide HasImportTag, KeepsOwn, DistinctIds, Fresh, Repairable, RestoreStatus, Lookup, Strip, KeyOf, Faces;
    forall i | 0 <= i < |base| && !HasImportTag(base[i].tags) ensures !Repairable(base, w, base[i].id) && base[i].id != id {
      OwnNotRepairable(base, w, file, ids, i);
      OwnNotRepairable(base, w.(mine := {id}), file, ids, i);
      MineRepairable(base, w.(mine := {id}), id);
    }
    NewKeeps(base, w.rows, NewRow(e, id));
    RestoreKeeps(setup, base, Created(w, e, id), e, id);
    var existing := Lookup(base, w, e);
    if existing.Some? && Repairable(base, w, existing.value) {
      RestoreKeeps(setup, base, w.rows, e, existing.value);
    }
  }

  lemma MineRepairable(base: seq<Row>, w: Work, id: string)
    requires id in w.mine
    ensures Repairable(base, w, id)
  {
  }

  lemma {:induction false} HandlingKeeps(setup: Setup, base: seq<Row>, file: seq<Option<Entry>>, ids: seq<string>, n: nat)
    requires DistinctIds(base) && Fresh(Faces(base), file, ids) && n <= |file| == |ids|
    ensures var w := HandleAll(setup, base, file, ids, n);
            KeepsOwn(base, w.rows) && forall x :: x in w.mine ==> x in ids
  {
    hide HasImportTag, DistinctIds, Fresh, Handle, Faces;
    if n > 0 {
      HandlingKeeps(setup, base, file, ids, n - 1);
      if file[n - 1].Some? {
        HandleKeeps(setup, base, HandleAll(setup, base, file, ids, n - 1), file[n - 1].value, ids[n - 1], file, ids);
      }
    }
  }

  lemma EndIsLinked(setup: Setup, base: seq<Row>, file: seq<Option<Entry>>, ids: seq<string>)
    requires |ids| == |file|
    ensures LinkedUpTo(setup, base, file, ids, |HandleAll(setup, base, file, ids, |file|).matched|, Import(setup, base, file, ids))
  {
    hide HandleAll, Repairables, LinkAll;
    var w := HandleAll(setup, base, file, ids, |file|);
    assert w.matched[..|w.matched|] == w.matched;
  }

  /** Whatever the file, and wherever the import stops, a row without an `imported-id:` tag that was there
      before is not changed. */
  lemma OwnRowsNeverChange(setup: Setup, base: seq<Row>, file: seq<Option<Entry>>, ids: seq<string>, mid: seq<Row>)
    requires |ids| == |file| && DistinctIds(base) && Fresh(Faces(base), file, ids)
    requires CutOff(setup, base, file, ids, mid) || mid == Import(setup, base, file, ids)
    ensures KeepsOwn(base, mid)
  {
    hide HasImportTag, KeepsOwn, DistinctIds, Fresh, HandleAll, Faces, Lookup, Eligible, LinkedUpTo, Import;
    if n :| 0 <= n <= |file| && mid == HandleAll(setup, base, file, ids, n).rows {
      HandlingKeeps(setup, base, file, ids, n);
    } else if n :| 0 <= n < |file| && NewAt(setup, base, file, ids, n)
                   && mid == Created(HandleAll(setup, base, file, ids, n), file[n].value, ids[n]) {
      HandlingKeeps(setup, base, file, ids, n);
      NewKeeps(base, HandleAll(setup, base, file, ids, n).rows, NewRow(file[n].value, ids[n]));
    } else {
      EndIsLinked(setup, base, file, ids);
      var m: nat :| LinkedUpTo(setup, base, file, ids, m, mid);
      LinkingKeeps(setup, base, file, ids, m, mid);
    }
  }

  lemma LinkingKeeps(setup: Setup, base: seq<Row>, file: seq<Option<Entry>>, ids: seq<string>, m: nat, mid: seq<Row>)
    requires |ids| == |file| && DistinctIds(base) && Fresh(Faces(base), file, ids)
    requires LinkedUpTo(setup, base, file, ids, m, mid)
    ensures KeepsOwn(base, mid)
  {
    hide HasImportTag, KeepsOwn, DistinctIds, Fresh, HandleAll, Faces, LinkAll, Repairable;
    var w := HandleAll(setup, base, file, ids, |file|);
    HandlingKeeps(setup, base, file, ids, |file|);
    forall i | 0 <= i < |base| && !HasImportTag(base[i].tags) ensures base[i].id !in Repairables(base, w) {
      OwnNotRepairable(base, w, file, ids, i);
    }
    LinksKeepOwn(setup, base, w.rows, w.matched[..m], w.destinations, Repairables(base, w));
  }
}
