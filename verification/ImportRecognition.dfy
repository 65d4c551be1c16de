/** Which rows an import recognises, before and after it has added some. */
module ImportRecognition {
  import opened Basics
  import opened TextLines
  import opened ImportModel

  // ---- What is assumed of a file and of fresh ids ------------------------------------

  predicate EligibleAt(setup: Setup, file: seq<Option<Entry>>, i: nat)
    requires i < |file|
  {
    file[i].Some? && Eligible(setup, file[i].value)
  }

  predicate KeyedAt(setup: Setup, file: seq<Option<Entry>>, i: nat)
    requires i < |file|
  {
    EligibleAt(setup, file, i) && file[i].value.id.Some?
  }

  /** The row an entry becomes carries the tag of this key, with its content. */
  predicate WouldClaim(e: Entry, key: Key) {
    IMPORTED_ID + key.id in RowTags(e) && DigestOf(e.summary, e.detail) == key.digest
  }

  /** No two entries that get as far as being recognised have one key. */
  ghost predicate DistinctKeys(setup: Setup, file: seq<Option<Entry>>) {
    forall i, j | 0 <= i < |file| && 0 <= j < |file| && i != j && KeyedAt(setup, file, i) && KeyedAt(setup, file, j) ::
      KeyOf(file[i].value) != KeyOf(file[j].value)
  }

  predicate DistinctIds(rows: seq<Row>) {
    forall i, j :: 0 <= i < j < |rows| ==> rows[i].id != rows[j].id
  }

  /** A new row is recognisable: it carries the tag of its own exported id. */
  predicate Tagged(e: Entry) {
    e.id.Some? && IMPORTED_ID + e.id.value in RowTags(e)
  }

  predicate IsNew(setup: Setup, faces: seq<Face>, e: Entry) {
    Eligible(setup, e) && setup.verdict(e) == Recorded && (e.id.Some? ==> Destination(faces, KeyOf(e)) == None)
  }

  predicate AllTagged(setup: Setup, faces: seq<Face>, file: seq<Option<Entry>>) {
    forall i :: 0 <= i < |file| && file[i].Some? && IsNew(setup, faces, file[i].value) ==> Tagged(file[i].value)
  }

  /** The id occurs nowhere: not as a row's id, an entry's id, or in a tag. */
  predicate Unseen(faces: seq<Face>, file: seq<Option<Entry>>, id: string) {
    && (forall i :: 0 <= i < |faces| ==> faces[i].id != id && IMPORTED_ID + id !in faces[i].tags)
    && (forall i :: 0 <= i < |file| && file[i].Some? ==>
          file[i].value.id != Some(id) && IMPORTED_ID + id !in RowTags(file[i].value))
  }

  predicate Fresh(faces: seq<Face>, file: seq<Option<Entry>>, ids: seq<string>) {
    NoDuplicates(ids) && forall i :: 0 <= i < |ids| ==> Unseen(faces, file, ids[i])
  }

  // ---- The rows an import adds -------------------------------------------------------

  function BirthFace(e: Entry, id: string): Face { FaceOf(NewRow(e, id)) }

  function Born(setup: Setup, faces: seq<Face>, file: seq<Option<Entry>>, ids: seq<string>, n: nat): seq<Face>
    requires n <= |file| && n <= |ids|
  {
    if n == 0 then []
    else Born(setup, faces, file, ids, n - 1) +
         (if file[n - 1].Some? && IsNew(setup, faces, file[n - 1].value) then [BirthFace(file[n - 1].value, ids[n - 1])]
          else [])
  }

  lemma {:induction false} BornAre(setup: Setup, faces: seq<Face>, file: seq<Option<Entry>>, ids: seq<string>, n: nat)
    requires n <= |file| && n <= |ids|
    ensures forall f :: f in Born(setup, faces, file, ids, n) ==>
              exists j :: 0 <= j < n && file[j].Some? && IsNew(setup, faces, file[j].value)
                          && f == BirthFace(file[j].value, ids[j])
    ensures forall j :: 0 <= j < n && file[j].Some? && IsNew(setup, faces, file[j].value) ==>
              BirthFace(file[j].value, ids[j]) in Born(setup, faces, file, ids, n)
  {
    hide IsNew, BirthFace;
    if n > 0 {
      BornAre(setup, faces, file, ids, n - 1);
      var born, last := Born(setup, faces, file, ids, n), n - 1;
      forall f | f in born
        ensures exists j :: 0 <= j < n && file[j].Some? && IsNew(setup, faces, file[j].value)
                            && f == BirthFace(file[j].value, ids[j])
      {
        if f !in Born(setup, faces, file, ids, last) {
          assert file[last].Some? && f == BirthFace(file[last].value, ids[last]);
        }
      }
    }
  }

  lemma {:induction false} ClaimJoined(a: seq<Face>, b: seq<Face>, key: Key)
    ensures FirstClaim(a + b, key) == if FirstClaim(a, key).Some? then FirstClaim(a, key) else FirstClaim(b, key)
  {
    if a == [] {
      assert a + b == b;
    } else {
      assert (a + b)[1..] == a[1..] + b;
      ClaimJoined(a[1..], b, key);
    }
  }

  lemma {:induction false} ClaimIs(faces: seq<Face>, key: Key)
    ensures FirstClaim(faces, key).Some? ==>
              exists f :: f in faces && Claims(f, key) && FirstClaim(faces, key) == Some(f.id)
    ensures FirstClaim(faces, key) == None ==> forall f :: f in faces ==> !Claims(f, key)
  {
    if faces != [] {
      ClaimIs(faces[1..], key);
      assert forall f :: f in faces <==> f == faces[0] || f in faces[1..];
      if Claims(faces[0], key) {
        assert faces[0] in faces;
      }
    }
  }

  lemma KeyDigest(e: Entry)
    requires e.id.Some?
    ensures KeyOf(e).digest == DigestOf(e.summary, e.detail)
  {
    StripAgain(e.summary);
  }

  predicate NewClaims(setup: Setup, faces: seq<Face>, file: seq<Option<Entry>>, i: nat, key: Key)
    requires i < |file|
  {
    file[i].Some? && IsNew(setup, faces, file[i].value) && WouldClaim(file[i].value, key)
  }

  /** The first of the first `n` items whose new row carries the key's tag and content. */
  function FirstClaimant(setup: Setup, faces: seq<Face>, file: seq<Option<Entry>>, n: nat, key: Key): (r: Option<nat>)
    requires n <= |file|
    ensures r.Some? ==> r.value < n && NewClaims(setup, faces, file, r.value, key)
                        && forall i :: 0 <= i < r.value ==> !NewClaims(setup, faces, file, i, key)
    ensures r == None ==> forall i :: 0 <= i < n ==> !NewClaims(setup, faces, file, i, key)
  {
    if n == 0 then None
    else
      var before := FirstClaimant(setup, faces, file, n - 1, key);
      if before.Some? then before else if NewClaims(setup, faces, file, n - 1, key) then Some(n - 1) else None
  }

  /** Taking more items into account finds no other first claimant. */
  lemma ClaimantStays(setup: Setup, faces: seq<Face>, file: seq<Option<Entry>>, c: nat, n: nat, key: Key)
    requires c <= n <= |file|
    ensures FirstClaimant(setup, faces, file, c, key)
            == if FirstClaimant(setup, faces, file, n, key).Some? && FirstClaimant(setup, faces, file, n, key).value < c
               then FirstClaimant(setup, faces, file, n, key) else None
  {
    hide NewClaims;
  }

  function IdOf(claimant: Option<nat>, ids: seq<string>): Option<string>
    requires claimant.Some? ==> claimant.value < |ids|
  {
    if claimant.Some? then Some(ids[claimant.value]) else None
  }

  lemma {:induction false} BornClaims(setup: Setup, faces: seq<Face>, file: seq<Option<Entry>>, ids: seq<string>, c: nat, key: Key)
    requires c <= |file| == |ids|
    ensures FirstClaim(Born(setup, faces, file, ids, c), key) == IdOf(FirstClaimant(setup, faces, file, c, key), ids)
  {
    hide IsNew, WouldClaim, BirthFace, Claims, FirstClaim;
    if c > 0 {
      BornClaims(setup, faces, file, ids, c - 1, key);
      if file[c - 1].Some? && IsNew(setup, faces, file[c - 1].value) {
        var f := BirthFace(file[c - 1].value, ids[c - 1]);
        ClaimJoined(Born(setup, faces, file, ids, c - 1), [f], key);
        BirthClaims(file[c - 1].value, ids[c - 1], key);
        OneClaim(f, key);
      } else {
        assert Born(setup, faces, file, ids, c) == Born(setup, faces, file, ids, c - 1);
      }
    } else {
      NoClaim(key);
    }
  }

  lemma NoClaim(key: Key)
    ensures FirstClaim([], key) == None
  {
  }

  lemma OneClaim(f: Face, key: Key)
    ensures FirstClaim([f], key) == if Claims(f, key) then Some(f.id) else None
  {
    assert [f][1..] == [];
  }

  lemma BirthClaims(e: Entry, id: string, key: Key)
    ensures Claims(BirthFace(e, id), key) <==> WouldClaim(e, key)
    ensures BirthFace(e, id).id == id
  {
  }

  /** No new row has the id of an entry. */
  lemma BornNotOwn(setup: Setup, faces: seq<Face>, file: seq<Option<Entry>>, ids: seq<string>, c: nat, j: nat)
    requires c <= |file| == |ids| && j < |file| && file[j].Some? && file[j].value.id.Some? && Fresh(faces, file, ids)
    ensures !HasOwn(Born(setup, faces, file, ids, c), KeyOf(file[j].value))
  {
    hide IsNew, DigestOf;
    var born := Born(setup, faces, file, ids, c);
    BornAre(setup, faces, file, ids, c);
    forall k | 0 <= k < |born| ensures !IsOwn(born[k], KeyOf(file[j].value)) {
      assert born[k] in born;
      var i :| 0 <= i < c && file[i].Some? && born[k] == BirthFace(file[i].value, ids[i]);
      assert Unseen(faces, file, ids[i]);
    }
  }

  /** What a store with the first `c` items' rows added recognises an entry as: the row it was before, else
      the first of those rows that carries its tag and content. */
  lemma FoundAfter(setup: Setup, faces: seq<Face>, file: seq<Option<Entry>>, ids: seq<string>, c: nat, j: nat)
    requires c <= |file| && |ids| == |file| && j < |file| && file[j].Some? && file[j].value.id.Some? && Fresh(faces, file, ids)
    ensures var key := KeyOf(file[j].value);
            Destination(faces + Born(setup, faces, file, ids, c), key)
            == if Destination(faces, key).Some? then Destination(faces, key)
               else IdOf(FirstClaimant(setup, faces, file, c, key), ids)
  {
    hide KeyOf, HasOwn, FirstClaim, Born, FirstClaimant;
    var key, born := KeyOf(file[j].value), Born(setup, faces, file, ids, c);
    BornClaims(setup, faces, file, ids, c, key);
    BornNotOwn(setup, faces, file, ids, c, j);
    ClaimJoined(faces, born, key);
    OwnJoined(faces, born, key);
  }

  lemma OwnJoined(a: seq<Face>, b: seq<Face>, key: Key)
    ensures HasOwn(a + b, key) <==> HasOwn(a, key) || HasOwn(b, key)
  {
    if HasOwn(a, key) {
      var i :| 0 <= i < |a| && IsOwn(a[i], key);
      assert (a + b)[i] == a[i];
    }
    if HasOwn(b, key) {
      var i :| 0 <= i < |b| && IsOwn(b[i], key);
      assert (a + b)[|a| + i] == b[i];
    }
  }

  // ---- Which rows may be repaired ----------------------------------------------------

  ghost predicate IsRow(faces: seq<Face>, id: string) {
    exists i :: 0 <= i < |faces| && faces[i].id == id
  }

  /** Adding rows changes nothing about which of the earlier rows are known as imported. */
  lemma CopiesStay(setup: Setup, faces: seq<Face>, file: seq<Option<Entry>>, ids: seq<string>, c: nat, id: string)
    requires c <= |file| && |ids| == |file| && Fresh(faces, file, ids) && IsRow(faces, id)
    ensures IsCopy(faces + Born(setup, faces, file, ids, c), id) <==> IsCopy(faces, id)
  {
    var born := Born(setup, faces, file, ids, c);
    BornAre(setup, faces, file, ids, c);
    forall key: Key
      ensures !HasOwn(faces + born, key) && FirstClaim(faces + born, key) == Some(id)
              <==> !HasOwn(faces, key) && FirstClaim(faces, key) == Some(id)
    {
      ClaimJoined(faces, born, key);
      OwnJoined(faces, born, key);
      ClaimIs(faces, key);
      ClaimIs(born, key);
      NotReborn(setup, faces, file, ids, c, id);
      if FirstClaim(faces, key) == Some(id) && HasOwn(born, key) {
        OwnUnclaimed(setup, faces, file, ids, c, key);
      }
    }
  }

  lemma NotReborn(setup: Setup, faces: seq<Face>, file: seq<Option<Entry>>, ids: seq<string>, c: nat, id: string)
    requires c <= |file| && |ids| == |file| && Fresh(faces, file, ids) && IsRow(faces, id)
    ensures forall f :: f in Born(setup, faces, file, ids, c) ==> f.id != id
  {
    BornAre(setup, faces, file, ids, c);
    forall f | f in Born(setup, faces, file, ids, c) ensures f.id != id {
      var i :| 0 <= i < c && file[i].Some? && f == BirthFace(file[i].value, ids[i]);
      assert Unseen(faces, file, ids[i]);
    }
  }

  lemma OwnUnclaimed(setup: Setup, faces: seq<Face>, file: seq<Option<Entry>>, ids: seq<string>, c: nat, key: Key)
    requires c <= |file| && |ids| == |file| && Fresh(faces, file, ids)
    requires HasOwn(Born(setup, faces, file, ids, c), key)
    ensures FirstClaim(faces, key) == None
  {
    BornAre(setup, faces, file, ids, c);
    var born := Born(setup, faces, file, ids, c);
    var k :| 0 <= k < |born| && IsOwn(born[k], key);
    assert born[k] in born;
    var i :| 0 <= i < c && file[i].Some? && born[k] == BirthFace(file[i].value, ids[i]);
    assert Unseen(faces, file, ids[i]);
    ClaimIs(faces, key);
  }

  /** A new row that an entry would be recognised as is known as imported from then on. */
  lemma NewIsCopy(setup: Setup, faces: seq<Face>, file: seq<Option<Entry>>, ids: seq<string>, c: nat, k: nat, j: nat)
    requires c <= |file| && |ids| == |file| && k < |file| && file[k].Some? && file[k].value.id.Some? && Fresh(faces, file, ids)
    requires Destination(faces, KeyOf(file[k].value)) == None
    requires FirstClaimant(setup, faces, file, c, KeyOf(file[k].value)) == Some(j)
    ensures IsCopy(faces + Born(setup, faces, file, ids, c), ids[j])
  {
    hide KeyOf, Born, FirstClaimant, IsNew, Fresh;
    var key, born := KeyOf(file[k].value), Born(setup, faces, file, ids, c);
    BornClaims(setup, faces, file, ids, c, key);
    BornNotOwn(setup, faces, file, ids, c, k);
    ClaimJoined(faces, born, key);
    OwnJoined(faces, born, key);
    assert !HasOwn(faces + born, key) && FirstClaim(faces + born, key) == Some(ids[j]);
  }
}
