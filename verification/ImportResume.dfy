/** A second import over a store that an earlier one was cut off with. */
module ImportResume {
  import opened Basics
  import opened TextLines
  import opened ImportModel
  import opened ImportRecognition
  import opened ImportPhases
  import opened ImportLinks

  // ---- The interrupted run, the second run, and the run they amount to ---------------

  /** `first` and `second` are the ids the two runs draw. */
  ghost predicate Draws(setup: Setup, base: seq<Row>, file: seq<Option<Entry>>, first: seq<string>, second: seq<string>) {
    && |first| == |file| && |second| == |file|
    && DistinctKeys(setup, file) && DistinctIds(base) && Fresh(Faces(base), file, first + second)
  }

  function Drawn(first: seq<string>, second: seq<string>, c: nat): seq<string>
    requires c <= |first| == |second|
  {
    first[..c] + second[c..]
  }

  /** Rows found in a store that has the first `c` items' rows, whatever else was done to them. */
  ghost predicate Reached(setup: Setup, base: seq<Row>, file: seq<Option<Entry>>, ids: seq<string>, c: nat, mid: seq<Row>) {
    c <= |file| && |ids| == |file| && Faces(mid) == Faces(base) + Born(setup, Faces(base), file, ids, c)
  }

  lemma FreshPart(faces: seq<Face>, file: seq<Option<Entry>>, first: seq<string>, second: seq<string>, c: nat)
    requires Fresh(faces, file, first + second) && c <= |first| == |second|
    ensures Fresh(faces, file, first) && Fresh(faces, file, second) && Fresh(faces, file, Drawn(first, second, c))
    ensures forall i, j :: 0 <= i < |first| && 0 <= j < |second| ==> first[i] != second[j]
  {
    hide Unseen;
    var all, h := first + second, Drawn(first, second, c);
    forall i | 0 <= i < |first| ensures all[i] == first[i] { }
    forall i | 0 <= i < |second| ensures all[|first| + i] == second[i] { }
    forall i | 0 <= i < |h| ensures h[i] == if i < c then all[i] else all[|first| + i] { }
  }

  // ---- What entries stand for in the second run --------------------------------------

  /** No new entry's tag and content come along with an earlier new entry. */
  predicate NoneTakenOver(setup: Setup, faces: seq<Face>, file: seq<Option<Entry>>) {
    forall i, j | 0 <= i < j < |file| && file[i].Some? && file[j].Some? && IsNew(setup, faces, file[i].value)
                  && IsNew(setup, faces, file[j].value) && file[j].value.id.Some? ::
      !WouldClaim(file[i].value, KeyOf(file[j].value))
  }

  /** Every new entry is recognised as its own row once that is there. */
  predicate Regular(setup: Setup, faces: seq<Face>, file: seq<Option<Entry>>) {
    AllTagged(setup, faces, file) && NoneTakenOver(setup, faces, file)
  }

  /** What item `k` stands for in a run that starts with the rows of the first `c` items there; `ids[k]` if new. */
  function LaterOf(setup: Setup, base: seq<Row>, file: seq<Option<Entry>>, ids: seq<string>, c: nat, k: nat): Option<string>
    requires c <= |file| == |ids| && k < |file|
  {
    if file[k] == None || !Eligible(setup, file[k].value) then None
    else
      var e := file[k].value;
      if Found(base, e).Some? then Found(base, e)
      else if e.id.Some? && FirstClaimant(setup, Faces(base), file, c, KeyOf(e)).Some?
      then IdOf(FirstClaimant(setup, Faces(base), file, c, KeyOf(e)), ids)
      else if setup.verdict(e) == Recorded then Some(ids[k]) else None
  }

  function StandsLater(setup: Setup, base: seq<Row>, file: seq<Option<Entry>>, ids: seq<string>, c: nat): (r: seq<Option<string>>)
    requires c <= |file| == |ids|
    ensures |r| == |file|
  {
    seq(|file|, k requires 0 <= k < |file| => LaterOf(setup, base, file, ids, c, k))
  }

  /** What a store with the first `c` items' rows recognises an entry as. */
  lemma FoundNow(setup: Setup, base: seq<Row>, file: seq<Option<Entry>>, ids: seq<string>, c: nat, mid: seq<Row>, k: nat)
    requires |ids| == |file| && Fresh(Faces(base), file, ids) && k < |file| && file[k].Some?
    requires Reached(setup, base, file, ids, c, mid)
    ensures Found(mid, file[k].value)
            == if Found(base, file[k].value).Some? || file[k].value.id == None then Found(base, file[k].value)
               else IdOf(FirstClaimant(setup, Faces(base), file, c, KeyOf(file[k].value)), ids)
  {
    hide Fresh, KeyOf, Destination, Faces, FirstClaimant, Born;
    if file[k].value.id.Some? {
      FoundAfter(setup, Faces(base), file, ids, c, k);
    }
  }

  lemma OwnClaim(e: Entry)
    ensures Tagged(e) <==> e.id.Some? && WouldClaim(e, KeyOf(e))
  {
    if e.id.Some? {
      KeyDigest(e);
    }
  }

  lemma ClaimantOfNew(setup: Setup, faces: seq<Face>, file: seq<Option<Entry>>, c: nat, k: nat)
    requires Regular(setup, faces, file) && c <= |file| && k < |file| && file[k].Some? && IsNew(setup, faces, file[k].value)
    ensures file[k].value.id.Some?
    ensures FirstClaimant(setup, faces, file, c, KeyOf(file[k].value)) == if k < c then Some(k) else None
  {
    hide IsNew, WouldClaim, KeyOf, Tagged;
    OwnClaim(file[k].value);
    assert Tagged(file[k].value);
    assert NewClaims(setup, faces, file, k, KeyOf(file[k].value));
    forall i | 0 <= i < k ensures !NewClaims(setup, faces, file, i, KeyOf(file[k].value)) { }
  }

  /** The second run starts from what the first one has left, with ids that are still fresh. */
  lemma FreshLater(setup: Setup, base: seq<Row>, file: seq<Option<Entry>>, first: seq<string>, second: seq<string>, c: nat,
                   mid: seq<Row>)
    requires |first| == |file| == |second| && Fresh(Faces(base), file, first + second) && c <= |file|
    requires Reached(setup, base, file, Drawn(first, second, c), c, mid)
    ensures Fresh(Faces(mid), file, second)
  {
    hide Faces, IsNew, Tagged;
    FreshPart(Faces(base), file, first, second, c);
    var h := Drawn(first, second, c);
    var born := Born(setup, Faces(base), file, h, c);
    BornAre(setup, Faces(base), file, h, c);
    forall k | 0 <= k < |second| ensures Unseen(Faces(mid), file, second[k]) {
      assert Unseen(Faces(base), file, second[k]);
      forall i | 0 <= i < |Faces(mid)|
        ensures Faces(mid)[i].id != second[k] && IMPORTED_ID + second[k] !in Faces(mid)[i].tags
      {
        if i >= |Faces(base)| {
          assert born[i - |Faces(base)|] in born;
        }
      }
    }
  }

  lemma StandsAgain(setup: Setup, base: seq<Row>, file: seq<Option<Entry>>, first: seq<string>, second: seq<string>, c: nat,
                    mid: seq<Row>)
    requires Draws(setup, base, file, first, second) && c <= |file| && Regular(setup, Faces(base), file)
    requires Reached(setup, base, file, Drawn(first, second, c), c, mid)
    ensures Stands(setup, mid, file, second) == StandsLater(setup, base, file, Drawn(first, second, c), c)
  {
    hide DistinctKeys, Fresh, Regular, Faces, KeyOf, Found, FirstClaimant, Reached, Eligible;
    var h := Drawn(first, second, c);
    FreshPart(Faces(base), file, first, second, c);
    forall k | 0 <= k < |file| ensures Stands(setup, mid, file, second)[k] == StandsLater(setup, base, file, h, c)[k] {
      if file[k].Some? {
        FoundNow(setup, base, file, h, c, mid, k);
        FoundIsNotNew(setup, base, file[k].value);
        if IsNew(setup, Faces(base), file[k].value) {
          ClaimantOfNew(setup, Faces(base), file, c, k);
        }
      }
    }
  }

  lemma NewAgain(setup: Setup, base: seq<Row>, file: seq<Option<Entry>>, first: seq<string>, second: seq<string>, c: nat,
                 mid: seq<Row>, k: nat)
    requires Draws(setup, base, file, first, second) && c <= |file| && Regular(setup, Faces(base), file)
    requires Reached(setup, base, file, Drawn(first, second, c), c, mid) && k < |file| && file[k].Some?
    requires setup.verdict(file[k].value) == Recorded
    ensures IsNew(setup, Faces(mid), file[k].value) <==> IsNew(setup, Faces(base), file[k].value) && k >= c
  {
    hide DistinctKeys, Fresh, Regular, Faces, KeyOf, Found, FirstClaimant, Reached, Eligible;
    FreshPart(Faces(base), file, first, second, c);
    FoundNow(setup, base, file, Drawn(first, second, c), c, mid, k);
    FoundIsNotNew(setup, base, file[k].value);
    FoundIsNotNew(setup, mid, file[k].value);
    if IsNew(setup, Faces(base), file[k].value) {
      ClaimantOfNew(setup, Faces(base), file, c, k);
    }
  }

  /** The second run adds the rows that are missing. */
  lemma {:induction false} NewRowsAgain(setup: Setup, base: seq<Row>, file: seq<Option<Entry>>, first: seq<string>,
                                        second: seq<string>, c: nat, mid: seq<Row>, n: nat)
    requires Draws(setup, base, file, first, second) && c <= |file| && n <= |file| && Regular(setup, Faces(base), file)
    requires Reached(setup, base, file, Drawn(first, second, c), c, mid)
    ensures var h := Drawn(first, second, c);
            && (n <= c ==> NewRows(setup, mid, file, second, n) == [])
            && (n >= c ==> NewRows(setup, base, file, h, n)
                           == NewRows(setup, base, file, h, c) + NewRows(setup, mid, file, second, n))
  {
    hide DistinctKeys, Fresh, Regular, Faces, IsNew, NewRow, Reached;
    if n > 0 {
      NewRowsAgain(setup, base, file, first, second, c, mid, n - 1);
      if file[n - 1].Some? {
        if setup.verdict(file[n - 1].value) == Recorded {
          NewAgain(setup, base, file, first, second, c, mid, n - 1);
        } else {
          OnlyRecorded(setup, Faces(base), file[n - 1].value);
          OnlyRecorded(setup, Faces(mid), file[n - 1].value);
        }
      }
    }
  }

  lemma OnlyRecorded(setup: Setup, faces: seq<Face>, e: Entry)
    ensures IsNew(setup, faces, e) ==> setup.verdict(e) == Recorded
  {
  }

  // ---- Which rows the second phase may touch -----------------------------------------

  /** The rows an import may link: earlier imports' copies, and the new rows of entries with an id. */
  ghost function Touchable(setup: Setup, base: seq<Row>, file: seq<Option<Entry>>, ids: seq<string>): set<string>
    requires |ids| == |file|
  {
    (set i | 0 <= i < |base| && IsCopy(Faces(base), base[i].id) :: base[i].id) +
    (set j | 0 <= j < |file| && file[j].Some? && IsNew(setup, Faces(base), file[j].value) && file[j].value.id.Some? :: ids[j])
  }

  lemma TouchableOfRun(setup: Setup, base: seq<Row>, file: seq<Option<Entry>>, ids: seq<string>)
    requires Sound(setup, base, file, ids)
    ensures Repairables(base, HandleAll(setup, base, file, ids, |file|)) == Touchable(setup, base, file, ids)
  {
    hide DistinctKeys, Fresh, IsNew, IsCopy, Faces, NewRow, NewRows, StatusNow;
    var w := HandleAll(setup, base, file, ids, |file|);
    var news := NewRows(setup, base, file, ids, |file|);
    MineOfRun(setup, base, file, ids, |file|);
    RowsOfRun(setup, base, file, ids, |file|);
    NewRowsAre(setup, base, file, ids, |file|);
    forall i | 0 <= i < |w.rows| ensures w.rows[i].id == (base + news)[i].id { }
    forall x | x in Repairables(base, w) ensures x in Touchable(setup, base, file, ids) {
      var i :| 0 <= i < |w.rows| && w.rows[i].id == x && Repairable(base, w, x);
      if x !in w.mine {
        CopyIsThere(base, x);
      }
    }
    forall x | x in Touchable(setup, base, file, ids) ensures x in Repairables(base, w) {
      TouchableIsRow(setup, base, file, ids, x);
      var i :| 0 <= i < |base + news| && (base + news)[i].id == x;
      assert w.rows[i].id == x;
    }
  }

  lemma CopyIsThere(base: seq<Row>, x: string)
    requires IsCopy(Faces(base), x)
    ensures exists i :: 0 <= i < |base| && base[i].id == x
  {
    var key: Key :| !HasOwn(Faces(base), key) && FirstClaim(Faces(base), key) == Some(x);
    ClaimIs(Faces(base), key);
    var f :| f in Faces(base) && Claims(f, key) && f.id == x;
    var i :| 0 <= i < |Faces(base)| && Faces(base)[i] == f;
    assert base[i].id == x;
  }

  lemma TouchableIsRow(setup: Setup, base: seq<Row>, file: seq<Option<Entry>>, ids: seq<string>, x: string)
    requires |ids| == |file| && x in Touchable(setup, base, file, ids)
    ensures exists i :: 0 <= i < |base + NewRows(setup, base, file, ids, |file|)|
                        && (base + NewRows(setup, base, file, ids, |file|))[i].id == x
  {
    hide IsNew, IsCopy, Faces;
    var news := NewRows(setup, base, file, ids, |file|);
    if i :| 0 <= i < |base| && IsCopy(Faces(base), base[i].id) && base[i].id == x {
      assert (base + news)[i].id == x;
    } else {
      var j :| 0 <= j < |file| && file[j].Some? && IsNew(setup, Faces(base), file[j].value) && ids[j] == x;
      RowOfNew(setup, base, file, ids, |file|, j);
      var i :| 0 <= i < |news| && news[i] == NewRow(file[j].value, ids[j]);
      assert (base + news)[|base| + i].id == x;
    }
  }

  lemma {:induction false} RowOfNew(setup: Setup, base: seq<Row>, file: seq<Option<Entry>>, ids: seq<string>, n: nat, j: nat)
    requires j < n <= |file| == |ids| && file[j].Some? && IsNew(setup, Faces(base), file[j].value)
    ensures exists i :: 0 <= i < |NewRows(setup, base, file, ids, n)| && NewRows(setup, base, file, ids, n)[i] == NewRow(file[j].value, ids[j])
  {
    hide IsNew, Faces, NewRow;
    var news := NewRows(setup, base, file, ids, n);
    if j == n - 1 {
      assert news[|news| - 1] == NewRow(file[j].value, ids[j]);
    } else {
      RowOfNew(setup, base, file, ids, n - 1, j);
      var before := NewRows(setup, base, file, ids, n - 1);
      var i :| 0 <= i < |before| && before[i] == NewRow(file[j].value, ids[j]);
      assert news[i] == before[i];
    }
  }

  /** Both runs may link the same rows. */
  lemma TouchableAgain(setup: Setup, base: seq<Row>, file: seq<Option<Entry>>, first: seq<string>, second: seq<string>, c: nat,
                       mid: seq<Row>)
    requires Draws(setup, base, file, first, second) && c <= |file| && Regular(setup, Faces(base), file)
    requires Reached(setup, base, file, Drawn(first, second, c), c, mid)
    ensures Touchable(setup, mid, file, second) == Touchable(setup, base, file, Drawn(first, second, c))
  {
    hide DistinctKeys, Fresh, Regular, IsNew, IsCopy, Faces, KeyOf, Reached, Born;
    var h := Drawn(first, second, c);
    FreshPart(Faces(base), file, first, second, c);
    forall x | x in Touchable(setup, mid, file, second) ensures x in Touchable(setup, base, file, h) {
      if i :| 0 <= i < |mid| && IsCopy(Faces(mid), mid[i].id) && mid[i].id == x {
        CopyAgain(setup, base, file, h, c, mid, i);
      } else {
        var k :| 0 <= k < |file| && file[k].Some? && IsNew(setup, Faces(mid), file[k].value) && file[k].value.id.Some? && second[k] == x;
        OnlyRecorded(setup, Faces(mid), file[k].value);
        NewAgain(setup, base, file, first, second, c, mid, k);
        assert h[k] == x;
      }
    }
    forall x | x in Touchable(setup, base, file, h) ensures x in Touchable(setup, mid, file, second) {
      if i :| 0 <= i < |base| && IsCopy(Faces(base), base[i].id) && base[i].id == x {
        OldCopy(setup, base, file, h, c, mid, i);
      } else {
        var j :| 0 <= j < |file| && file[j].Some? && IsNew(setup, Faces(base), file[j].value) && file[j].value.id.Some? && h[j] == x;
        if j < c {
          NewCopy(setup, base, file, h, c, mid, j);
        } else {
          OnlyRecorded(setup, Faces(base), file[j].value);
          NewAgain(setup, base, file, first, second, c, mid, j);
          assert second[j] == x;
        }
      }
    }
  }

  lemma FaceAt(rows: seq<Row>, i: nat)
    requires i < |rows|
    ensures Faces(rows)[i] == FaceOf(rows[i]) && Faces(rows)[i].id == rows[i].id && IsRow(Faces(rows), rows[i].id)
    ensures |Faces(rows)| == |rows|
  {
    assert Faces(rows)[i].id == rows[i].id;
  }

  lemma CopyAgain(setup: Setup, base: seq<Row>, file: seq<Option<Entry>>, ids: seq<string>, c: nat, mid: seq<Row>, i: nat)
    requires Sound(setup, base, file, ids) && Regular(setup, Faces(base), file) && i < |mid|
    requires Reached(setup, base, file, ids, c, mid) && IsCopy(Faces(mid), mid[i].id)
    ensures mid[i].id in Touchable(setup, base, file, ids)
  {
    hide DistinctKeys, Fresh, IsNew, IsCopy, Faces, Born, KeyOf, Tagged, NoneTakenOver;
    FaceAt(mid, i);
    BornAre(setup, Faces(base), file, ids, c);
    var born := Born(setup, Faces(base), file, ids, c);
    if i < |Faces(base)| {
      FacesLength(base);
      FaceAt(base, i);
      CopiesStay(setup, Faces(base), file, ids, c, base[i].id);
    } else {
      assert born[i - |Faces(base)|] in born;
      var j :| 0 <= j < c && file[j].Some? && IsNew(setup, Faces(base), file[j].value)
               && born[i - |Faces(base)|] == BirthFace(file[j].value, ids[j]);
      TaggedHasId(file[j].value);
    }
  }

  lemma FacesLength(rows: seq<Row>)
    ensures |Faces(rows)| == |rows|
  {
  }

  lemma TaggedHasId(e: Entry)
    ensures Tagged(e) ==> e.id.Some?
  {
  }

  lemma OldCopy(setup: Setup, base: seq<Row>, file: seq<Option<Entry>>, ids: seq<string>, c: nat, mid: seq<Row>, i: nat)
    requires Sound(setup, base, file, ids) && i < |base|
    requires Reached(setup, base, file, ids, c, mid)
    ensures i < |mid| && mid[i].id == base[i].id && (IsCopy(Faces(mid), base[i].id) <==> IsCopy(Faces(base), base[i].id))
  {
    hide DistinctKeys, Fresh, IsNew, IsCopy, Faces, Born;
    FacesLength(base);
    FacesLength(mid);
    FaceAt(base, i);
    FaceAt(mid, i);
    CopiesStay(setup, Faces(base), file, ids, c, base[i].id);
  }

  lemma NewCopy(setup: Setup, base: seq<Row>, file: seq<Option<Entry>>, ids: seq<string>, c: nat, mid: seq<Row>, j: nat)
    requires Sound(setup, base, file, ids) && Regular(setup, Faces(base), file) && j < c
    requires Reached(setup, base, file, ids, c, mid) && file[j].Some? && IsNew(setup, Faces(base), file[j].value)
    ensures IsCopy(Faces(mid), ids[j]) && exists i :: 0 <= i < |mid| && mid[i].id == ids[j]
  {
    hide DistinctKeys, Fresh, IsNew, IsCopy, Faces, Born, KeyOf, Regular, FirstClaimant, Destination;
    ClaimantOfNew(setup, Faces(base), file, c, j);
    NewIsUnknown(setup, base, file[j].value);
    NewIsCopy(setup, Faces(base), file, ids, c, j, j);
    CopyIsThere(mid, ids[j]);
  }

  lemma NewIsUnknown(setup: Setup, base: seq<Row>, e: Entry)
    requires IsNew(setup, Faces(base), e) && e.id.Some?
    ensures Destination(Faces(base), KeyOf(e)) == None
  {
  }
}
