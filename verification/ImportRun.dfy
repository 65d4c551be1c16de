/** The import itself: an index of what is known, a loop over the entries, a loop over the matches. */
module ImportRun {
  import opened Basics
  import opened TextLines
  import opened ImportModel
  import opened ImportRecognition
  import opened ImportPhases
  import opened ImportResume
  import opened ImportTheorems

  function AtKey(m: map<Key, string>, key: Key): Option<string> {
    if key in m then Some(m[key]) else None
  }

  /** The memory store; each method is one write, after which the process may die. */
  class Memory {
    var rows: seq<Row>
    ghost var trail: seq<seq<Row>>

    constructor (initial: seq<Row>)
      ensures rows == initial && trail == []
    {
      rows, trail := initial, [];
    }

    method Record(e: Entry, id: string)
      modifies this
      ensures rows == old(rows) + [NewRow(e, id)] && trail == old(trail) + [rows]
    {
      rows := rows + [NewRow(e, id)];
      trail := trail + [rows];
    }

    method UpdateStatus(id: string, status: string)
      modifies this
      ensures rows == SetStatus(old(rows), id, status) && trail == old(trail) + [rows]
    {
      rows := SetStatus(rows, id, status);
      trail := trail + [rows];
    }

    method Supersede(closer: string, prior: string)
      modifies this
      ensures rows == Linked(old(rows), closer, prior) && trail == old(trail) + [rows]
    {
      rows := Linked(rows, closer, prior);
      trail := trail + [rows];
    }
  }

  /** What the project already holds. */
  class Known {
    var destination: map<Key, string>
    var importedCopies: set<string>
    var status: map<string, string>
    var superseded: set<string>

    constructor ()
      ensures destination == map[] && importedCopies == {} && status == map[] && superseded == {}
    {
      destination, importedCopies, status, superseded := map[], {}, map[], {};
    }

    method Add(key: Key, id: string, importedCopy: bool)
      modifies this`destination, this`importedCopies
      ensures destination == if importedCopy && key in old(destination) then old(destination) else old(destination)[key := id]
      ensures importedCopies == if importedCopy && key !in old(destination) then old(importedCopies) + {id}
                                else old(importedCopies)
    {
      if importedCopy && key in destination {
        return;
      }
      destination := destination[key := id];
      if importedCopy {
        importedCopies := importedCopies + {id};
      }
    }

    /** The project's own ids, which win over an import's alias of the same id. */
    method AddOwnRows(rows: seq<Row>)
      requires DistinctIds(rows) && destination == map[] && importedCopies == {} && status == map[] && superseded == {}
      modifies this
      ensures importedCopies == {}
      ensures forall key :: AtKey(destination, key) == if HasOwn(Faces(rows), key) then Some(key.id) else None
      ensures forall x :: x in status ==> StatusOf(rows, x) == Some(status[x])
      ensures forall i :: 0 <= i < |rows| ==> rows[i].id in status
      ensures forall x :: x in superseded <==> IsClosed(rows, x)
    {
      hide DigestOf, Faces, HasOwn, StatusOf;
      NoFaces(rows);
      for i := 0 to |rows|
        invariant importedCopies == {}
        invariant forall key :: AtKey(destination, key) == if HasOwn(Faces(rows[..i]), key) then Some(key.id) else None
        invariant forall x :: x in status ==> StatusOf(rows, x) == Some(status[x])
        invariant forall j :: 0 <= j < i ==> rows[j].id in status
        invariant forall x :: x in superseded <==> exists j :: 0 <= j < i && rows[j].id == x && rows[j].closedBy.Some?
      {
        var r := rows[i];
        status := status[r.id := r.status];
        StatusAt(rows, i);
        if r.closedBy.Some? {
          superseded := superseded + {r.id};
        }
        OneMoreOwn(rows, i);
        ghost var before, key := destination, Key(r.id, DigestOf(r.summary, r.detail));
        Add(Key(r.id, DigestOf(r.summary, r.detail)), r.id, false);
        forall k ensures AtKey(destination, k) == if HasOwn(Faces(rows[..i + 1]), k) then Some(k.id) else None {
          assert AtKey(destination, k) == if k == key then Some(r.id) else AtKey(before, k);
        }
      }
      assert rows[..|rows|] == rows;
    }

    /** One row's `imported-id:` tags. */
    method AddTags(r: Row)
      modifies this`destination, this`importedCopies
      ensures forall key :: AtKey(destination, key)
                == if key in old(destination) then Some(old(destination)[key])
                   else if Claims(FaceOf(r), key) then Some(r.id) else None
      ensures importedCopies == old(importedCopies) +
                if exists key :: key !in old(destination) && Claims(FaceOf(r), key) then {r.id} else {}
    {
      var digest := DigestOf(r.summary, r.detail);
      for k := 0 to |r.tags|
        invariant forall key :: AtKey(destination, key)
                    == if key in old(destination) then Some(old(destination)[key])
                       else if IMPORTED_ID + key.id in r.tags[..k] && digest == key.digest then Some(r.id) else None
        invariant importedCopies == old(importedCopies) + if destination != old(destination) then {r.id} else {}
      {
        var tag := r.tags[k];
        assert r.tags[..k + 1] == r.tags[..k] + [tag];
        if IMPORTED_ID <= tag {
          var key := Key(tag[|IMPORTED_ID|..], digest);
          assert forall other: Key :: IMPORTED_ID + other.id == tag ==> other.id == key.id by {
            forall other: Key | IMPORTED_ID + other.id == tag ensures other.id == key.id {
              assert (IMPORTED_ID + other.id)[|IMPORTED_ID|..] == other.id;
            }
          }
          assert IMPORTED_ID + key.id == tag;
          Add(key, r.id, true);
        } else {
          assert forall other: Key :: IMPORTED_ID + other.id != tag;
        }
      }
      assert r.tags[..|r.tags|] == r.tags;
      ChangedBy(old(destination), destination, r);
    }

    /** Indexes every learning by its own id and by any earlier import's tag. */
    method Index(rows: seq<Row>)
      requires DistinctIds(rows) && destination == map[] && importedCopies == {} && status == map[] && superseded == {}
      modifies this
      ensures forall key :: AtKey(destination, key) == Destination(Faces(rows), key)
      ensures forall x :: x in importedCopies <==> IsCopy(Faces(rows), x)
      ensures forall x :: (if x in status then Some(status[x]) else None) == StatusOf(rows, x)
      ensures forall x :: x in superseded <==> IsClosed(rows, x)
    {
      hide Faces, HasOwn, StatusOf, FirstClaim, Claims;
      AddOwnRows(rows);
      NoFaces(rows);
      for i := 0 to |rows|
        invariant forall key :: AtKey(destination, key)
                    == if HasOwn(Faces(rows), key) then Some(key.id) else FirstClaim(Faces(rows[..i]), key)
        invariant forall x :: x in importedCopies
                    <==> exists key :: !HasOwn(Faces(rows), key) && FirstClaim(Faces(rows[..i]), key) == Some(x)
        invariant forall x :: x in status ==> StatusOf(rows, x) == Some(status[x])
        invariant forall j :: 0 <= j < |rows| ==> rows[j].id in status
        invariant forall x :: x in superseded <==> IsClosed(rows, x)
      {
        ghost var before := destination;
        AddTags(rows[i]);
        OneMoreClaim(rows, i, before);
      }
      assert rows[..|rows|] == rows;
      forall x ensures (if x in status then Some(status[x]) else None) == StatusOf(rows, x) {
        NoStatusNoRow(rows, x);
      }
    }
  }

  /** What the import keeps in local variables, and in the end reports. */
  datatype Tally = Tally(matched: seq<(Entry, string)>, destinations: map<string, set<string>>, imported: seq<string>,
                         duplicates: nat, filtered: nat, refused: seq<string>)

  function TallyOf(w: Work): Tally {
    Tally(w.matched, w.destinations, w.imported, w.duplicates, w.filtered, w.refused)
  }

  /** The index holds what the store held at the start and what the run has added. */
  ghost predicate Indexes(destination: map<Key, string>, copies: set<string>, status: map<string, string>, base: seq<Row>,
                          w: Work) {
    && (forall key :: AtKey(destination, key) == if key in w.added then Some(w.added[key]) else Destination(Faces(base), key))
    && (forall x :: x in copies <==> x in w.mine || IsCopy(Faces(base), x))
    && (forall x :: (if x in status then Some(status[x]) else None) == StatusOf(base, x))
  }

  lemma LooksUp(destination: map<Key, string>, copies: set<string>, status: map<string, string>, base: seq<Row>, w: Work,
                e: Entry)
    requires Indexes(destination, copies, status, base, w)
    ensures Lookup(base, w, e) == if e.id.Some? then AtKey(destination, KeyOf(e)) else None
  {
    hide Destination, Faces, KeyOf, StatusOf, IsCopy;
  }

  lemma IndexesMore(destination: map<Key, string>, copies: set<string>, status: map<string, string>, base: seq<Row>,
                    w: Work, u: Work, key: Key, id: string)
    requires Indexes(destination, copies, status, base, w) && key !in destination
    requires u.added == w.added[key := id] && u.mine == w.mine + {id}
    ensures Indexes(destination[key := id], copies + {id}, status, base, u)
  {
    hide Destination, Faces, StatusOf, IsCopy;
    assert forall k :: k in destination <==> AtKey(destination, k).Some?;
  }

  /** The states one entry leaves behind: the finished one, and before it perhaps a new row without its status. */
  ghost predicate EntryStates(setup: Setup, base: seq<Row>, w: Work, e: Entry, id: string, earlier: seq<seq<Row>>,
                              later: seq<seq<Row>>) {
    && earlier <= later
    && (forall k :: |earlier| <= k < |later| ==>
          || later[k] == Handle(setup, base, w, e, id).rows
          || (later[k] == Created(w, e, id) && Eligible(setup, e) && setup.verdict(e) == Recorded && Lookup(base, w, e) == None))
  }

  /** Gives the row the exported status, unless there is none to give or the store refuses it. */
  method RestoreOne(setup: Setup, memory: Memory, e: Entry, id: string)
    modifies memory
    ensures memory.rows == RestoreStatus(setup, old(memory.rows), e, id)
    ensures memory.trail == old(memory.trail) || memory.trail == old(memory.trail) + [memory.rows]
  {
    if e.status == None || e.status.value == "" || e.status.value == "active" {
      return;
    }
    if setup.takesStatus(e) {
      memory.UpdateStatus(id, Restored(e.status.value));
    }
  }

  method HandleEntry(setup: Setup, memory: Memory, known: Known, e: Entry, id: string, t: Tally, ghost base: seq<Row>,
                     ghost w: Work)
      returns (r: Tally)
    requires memory.rows == w.rows && t == TallyOf(w)
    requires Indexes(known.destination, known.importedCopies, known.status, base, w)
    modifies memory, known`destination, known`importedCopies
    ensures var u := Handle(setup, base, w, e, id);
            && memory.rows == u.rows && r == TallyOf(u)
            && Indexes(known.destination, known.importedCopies, known.status, base, u)
    ensures EntryStates(setup, base, w, e, id, old(memory.trail), memory.trail)
  {
    hide Indexes, Lookup, KeyOf, Strip, RestoreStatus, Destination, Faces, IsCopy, Passes, Seen, NewRow, StatusOf, Repairable;
    Repairs(known.destination, known.importedCopies, known.status, base, w, "");
    if !Passes(setup, e) {
      return t.(filtered := t.filtered + 1);
    }
    if Strip(e.summary) == "" {
      return t.(refused := t.refused + ["empty summary"]);
    }
    LooksUp(known.destination, known.importedCopies, known.status, base, w, e);
    if e.id.Some? && KeyOf(e) in known.destination {
      var existing := known.destination[KeyOf(e)];
      Repairs(known.destination, known.importedCopies, known.status, base, w, existing);
      if existing in known.importedCopies && existing in known.status && known.status[existing] == "active" {
        RestoreOne(setup, memory, e, existing);
      }
      r := t.(matched := t.matched + [(e, existing)], destinations := Seen(t.destinations, e.id.value, existing),
              duplicates := t.duplicates + 1);
      return;
    }
    match setup.verdict(e)
    case Recorded =>
      memory.Record(e, id);
      r := t.(matched := t.matched + [(e, id)], imported := t.imported + [id]);
      if e.id.Some? {
        IndexesMore(known.destination, known.importedCopies, known.status, base, w, Store(setup, w, e, id), KeyOf(e), id);
        known.Add(KeyOf(e), id, true);
        r := r.(destinations := Seen(r.destinations, e.id.value, id));
      } else {
        IndexesSame(known.destination, known.importedCopies, known.status, base, w, Store(setup, w, e, id));
      }
      RestoreOne(setup, memory, e, id);
    case AlreadyThere =>
      r := t.(duplicates := t.duplicates + 1);
    case Turned(reason) =>
      r := t.(refused := t.refused + [reason]);
  }

  /** Every state added is one with the first few matches linked. */
  ghost predicate LinkStates(setup: Setup, rows: seq<Row>, matched: seq<(Entry, string)>,
                             destinations: map<string, set<string>>, repairable: set<string>, earlier: seq<seq<Row>>,
                             later: seq<seq<Row>>) {
    && earlier <= later
    && (forall k :: |earlier| <= k < |later| ==>
          exists m: nat :: m <= |matched| && later[k] == LinkAll(setup, rows, matched[..m], destinations, repairable))
  }

  /** Links each superseded learning to its closer. */
  method RestoreSupersession(setup: Setup, memory: Memory, matched: seq<(Entry, string)>,
                             destinations: map<string, set<string>>, repairable: set<string>, closed: set<string>)
    requires forall x :: x in closed <==> IsClosed(memory.rows, x)
    requires forall x :: x in repairable ==> x in Ids(memory.rows)
    modifies memory
    ensures memory.rows == LinkAll(setup, old(memory.rows), matched, destinations, repairable)
    ensures LinkStates(setup, old(memory.rows), matched, destinations, repairable, old(memory.trail), memory.trail)
  {
    hide IsClosed, Ids, Linked, LinkOne;
    var superseded := closed;
    ghost var start, soFar := memory.rows, memory.trail;
    for i := 0 to |matched|
      invariant memory.rows == LinkAll(setup, start, matched[..i], destinations, repairable)
      invariant forall x :: x in superseded <==> IsClosed(memory.rows, x)
      invariant Ids(memory.rows) == Ids(start)
      invariant LinkStates(setup, start, matched, destinations, repairable, soFar, memory.trail)
    {
      var (e, prior) := matched[i];
      assert matched[..i + 1][..i] == matched[..i] && matched[..i + 1][i] == matched[i];
      LinkIs(setup, memory.rows, matched[i], destinations, repairable);
      if e.superseded && prior in repairable && prior !in superseded {
        var closers := if e.invalidatedBy.Some? then GetOr(destinations, e.invalidatedBy.value, {}) else {};
        if |closers| == 1 {
          var closer :| closer in closers;
          Single(closers, closer);
          if closer in repairable && setup.takesLink(e) {
            LinkedCloses(memory.rows, closer, prior);
            memory.Supersede(closer, prior);
            superseded := superseded + {prior};
          }
        }
      }
      assert memory.rows == LinkAll(setup, start, matched[..i + 1], destinations, repairable);
    }
    assert matched[..|matched|] == matched;
  }

  /** Imports a file into the store. */
  method ImportLearnings(setup: Setup, memory: Memory, file: seq<Option<Entry>>, ids: seq<string>) returns (t: Tally)
    requires |ids| == |file| && DistinctIds(memory.rows)
    modifies memory
    ensures memory.rows == Import(setup, old(memory.rows), file, ids)
    ensures t == TallyOf(HandleAll(setup, old(memory.rows), file, ids, |file|))
    ensures old(memory.trail) <= memory.trail
    ensures forall k :: |old(memory.trail)| <= k < |memory.trail| ==>
              CutOff(setup, old(memory.rows), file, ids, memory.trail[k])
  {
    hide IsClosed, Faces, StatusOf, Destination, IsCopy, Indexes, Handle, CutOff, LinkAll, Repairables;
    ghost var base, start := memory.rows, memory.trail;
    var known := new Known();
    known.Index(memory.rows);
    t := Tally([], map[], [], 0, 0, []);
    IndexesStart(known.destination, known.importedCopies, known.status, base);
    for i := 0 to |file|
      invariant var w := HandleAll(setup, base, file, ids, i);
                && memory.rows == w.rows && t == TallyOf(w)
                && Indexes(known.destination, known.importedCopies, known.status, base, w)
      invariant forall x :: x in known.superseded <==> IsClosed(base, x)
      invariant start <= memory.trail
      invariant forall k :: |start| <= k < |memory.trail| ==> CutOff(setup, base, file, ids, memory.trail[k])
    {
      if file[i].Some? {
        ghost var w, soFar := HandleAll(setup, base, file, ids, i), memory.trail;
        t := HandleEntry(setup, memory, known, file[i].value, ids[i], t, base, w);
        EntryCuts(setup, base, file, ids, i, soFar, memory.trail);
      }
    }
    ghost var w := HandleAll(setup, base, file, ids, |file|);
    CoversOfRun(setup, base, file, ids, |file|);
    MayTouch(known.destination, known.importedCopies, known.status, base, w);
    ghost var soFar := memory.trail;
    RestoreSupersession(setup, memory, t.matched, t.destinations, known.importedCopies, known.superseded);
    LinkCuts(setup, base, file, ids, soFar, memory.trail);
  }

  function Ids(rows: seq<Row>): set<string> {
    set i | 0 <= i < |rows| :: rows[i].id
  }

  lemma Single(s: set<string>, x: string)
    requires |s| == 1 && x in s
    ensures s == {x}
  {
    assert |s - {x}| == 0;
    assert s == {x} + (s - {x});
  }

  lemma LinkIs(setup: Setup, rows: seq<Row>, m: (Entry, string), destinations: map<string, set<string>>, repairable: set<string>)
    ensures var (e, prior) := m;
            var closers := if e.invalidatedBy.Some? then GetOr(destinations, e.invalidatedBy.value, {}) else {};
            && (!(e.superseded && prior in repairable && !IsClosed(rows, prior)) || !setup.takesLink(e) || |closers| != 1 ==>
                  LinkOne(setup, rows, m, destinations, repairable) == rows)
            && (forall c :: closers == {c} && e.superseded && prior in repairable && !IsClosed(rows, prior) && setup.takesLink(e) ==>
                  LinkOne(setup, rows, m, destinations, repairable) == if c in repairable then Linked(rows, c, prior) else rows)
  {
    hide IsClosed, Linked;
  }

  lemma LinkedCloses(rows: seq<Row>, closer: string, prior: string)
    requires prior in Ids(rows)
    ensures Ids(Linked(rows, closer, prior)) == Ids(rows)
    ensures forall x :: IsClosed(Linked(rows, closer, prior), x) <==> IsClosed(rows, x) || x == prior
  {
    var u := Linked(rows, closer, prior);
    forall i | 0 <= i < |rows| ensures u[i].id == rows[i].id && (u[i].closedBy.Some? <==> rows[i].closedBy.Some? || rows[i].id == prior) { }
    forall x | IsClosed(rows, x) || x == prior ensures IsClosed(u, x) {
      var i :| 0 <= i < |rows| && rows[i].id == x && (rows[i].closedBy.Some? || x == prior);
      assert u[i].id == x && u[i].closedBy.Some?;
    }
    forall x | IsClosed(u, x) ensures IsClosed(rows, x) || x == prior {
      var i :| 0 <= i < |u| && u[i].id == x && u[i].closedBy.Some?;
      assert rows[i].id == x;
    }
    forall x ensures x in Ids(u) <==> x in Ids(rows) {
      if x in Ids(rows) { var i :| 0 <= i < |rows| && rows[i].id == x; assert u[i].id == x; }
      if x in Ids(u) { var i :| 0 <= i < |u| && u[i].id == x; assert rows[i].id == x; }
    }
  }

  lemma IndexesStart(destination: map<Key, string>, copies: set<string>, status: map<string, string>, base: seq<Row>)
    requires forall key :: AtKey(destination, key) == Destination(Faces(base), key)
    requires forall x :: x in copies <==> IsCopy(Faces(base), x)
    requires forall x :: (if x in status then Some(status[x]) else None) == StatusOf(base, x)
    ensures Indexes(destination, copies, status, base, Start(base))
  {
  }

  lemma EntryCuts(setup: Setup, base: seq<Row>, file: seq<Option<Entry>>, ids: seq<string>, i: nat, earlier: seq<seq<Row>>,
                  later: seq<seq<Row>>)
    requires |ids| == |file| && i < |file| && file[i].Some?
    requires EntryStates(setup, base, HandleAll(setup, base, file, ids, i), file[i].value, ids[i], earlier, later)
    ensures forall k :: |earlier| <= k < |later| ==> CutOff(setup, base, file, ids, later[k])
  {
    hide Handle, Created, Lookup, Eligible, LinkedUpTo;
    forall k | |earlier| <= k < |later| ensures CutOff(setup, base, file, ids, later[k]) {
      if later[k] == Handle(setup, base, HandleAll(setup, base, file, ids, i), file[i].value, ids[i]).rows {
        assert later[k] == HandleAll(setup, base, file, ids, i + 1).rows;
      } else {
        assert NewAt(setup, base, file, ids, i);
      }
    }
  }

  lemma LinkCuts(setup: Setup, base: seq<Row>, file: seq<Option<Entry>>, ids: seq<string>, earlier: seq<seq<Row>>,
                 later: seq<seq<Row>>)
    requires |ids| == |file|
    requires var w := HandleAll(setup, base, file, ids, |file|);
             LinkStates(setup, w.rows, w.matched, w.destinations, Repairables(base, w), earlier, later)
    ensures forall k :: |earlier| <= k < |later| ==> CutOff(setup, base, file, ids, later[k])
  {
    hide HandleAll, LinkAll, Repairables, NewAt;
    var w := HandleAll(setup, base, file, ids, |file|);
    forall k | |earlier| <= k < |later| ensures CutOff(setup, base, file, ids, later[k]) {
      var m: nat :| m <= |w.matched| && later[k] == LinkAll(setup, w.rows, w.matched[..m], w.destinations, Repairables(base, w));
      assert LinkedUpTo(setup, base, file, ids, m, later[k]);
    }
  }

  lemma RestoreCovers(setup: Setup, rows: seq<Row>, e: Entry, id: string)
    ensures Ids(RestoreStatus(setup, rows, e, id)) == Ids(rows)
    ensures forall x :: IsClosed(RestoreStatus(setup, rows, e, id), x) <==> IsClosed(rows, x)
  {
    var u := RestoreStatus(setup, rows, e, id);
    forall i | 0 <= i < |rows| ensures u[i].id == rows[i].id && u[i].closedBy == rows[i].closedBy { }
    forall x ensures IsClosed(u, x) <==> IsClosed(rows, x) {
      if IsClosed(rows, x) { var i :| 0 <= i < |rows| && rows[i].id == x && rows[i].closedBy.Some?; assert u[i].id == x; }
      if IsClosed(u, x) { var i :| 0 <= i < |u| && u[i].id == x && u[i].closedBy.Some?; assert rows[i].id == x; }
    }
    forall x ensures x in Ids(u) <==> x in Ids(rows) {
      if x in Ids(rows) { var i :| 0 <= i < |rows| && rows[i].id == x; assert u[i].id == x; }
      if x in Ids(u) { var i :| 0 <= i < |u| && u[i].id == x; assert rows[i].id == x; }
    }
  }

  lemma NewCovers(w: Work, e: Entry, id: string)
    ensures Ids(Created(w, e, id)) == Ids(w.rows) + {id}
    ensures forall x :: IsClosed(Created(w, e, id), x) <==> IsClosed(w.rows, x)
  {
    var u := Created(w, e, id);
    assert u[|w.rows|].id == id;
    forall x ensures IsClosed(u, x) <==> IsClosed(w.rows, x) {
      if IsClosed(w.rows, x) { var i :| 0 <= i < |w.rows| && w.rows[i].id == x && w.rows[i].closedBy.Some?; assert u[i].id == x; }
    }
    forall x ensures x in Ids(u) <==> x in Ids(w.rows) + {id} {
      if x in Ids(w.rows) { var i :| 0 <= i < |w.rows| && w.rows[i].id == x; assert u[i].id == x; }
    }
  }

  lemma HandleCovers(setup: Setup, base: seq<Row>, w: Work, e: Entry, id: string)
    ensures var u := Handle(setup, base, w, e, id);
            && Ids(w.rows) <= Ids(u.rows) && (u.mine == w.mine || (u.mine == w.mine + {id} && id in Ids(u.rows)))
            && (forall x :: IsClosed(u.rows, x) <==> IsClosed(w.rows, x))
  {
    hide Ids, IsClosed, Lookup, Repairable, RestoreStatus, Created, Strip, KeyOf;
    NewCovers(w, e, id);
    RestoreCovers(setup, Created(w, e, id), e, id);
    if Lookup(base, w, e).Some? {
      RestoreCovers(setup, w.rows, e, Lookup(base, w, e).value);
    }
  }

  /** Rows are only added, and none is closed, in the first phase. */
  lemma {:induction false} CoversOfRun(setup: Setup, base: seq<Row>, file: seq<Option<Entry>>, ids: seq<string>, n: nat)
    requires |ids| == |file| && n <= |file|
    ensures var w := HandleAll(setup, base, file, ids, n);
            Ids(base) <= Ids(w.rows) && w.mine <= Ids(w.rows) && forall x :: IsClosed(w.rows, x) <==> IsClosed(base, x)
  {
    hide Ids, IsClosed, Handle;
    if n > 0 {
      CoversOfRun(setup, base, file, ids, n - 1);
      if file[n - 1].Some? {
        HandleCovers(setup, base, HandleAll(setup, base, file, ids, n - 1), file[n - 1].value, ids[n - 1]);
      }
    }
  }

  lemma CopyIsRow(base: seq<Row>, x: string)
    requires IsCopy(Faces(base), x)
    ensures x in Ids(base)
  {
    var key: Key :| !HasOwn(Faces(base), key) && FirstClaim(Faces(base), key) == Some(x);
    ClaimIs(Faces(base), key);
    var f :| f in Faces(base) && f.id == x;
    var i :| 0 <= i < |base| && Faces(base)[i] == f;
    assert base[i].id == x;
  }

  /** The index's imported copies are exactly the rows the second phase may touch. */
  lemma MayTouch(destination: map<Key, string>, copies: set<string>, status: map<string, string>, base: seq<Row>, w: Work)
    requires Indexes(destination, copies, status, base, w) && Ids(base) <= Ids(w.rows) && w.mine <= Ids(w.rows)
    ensures copies == Repairables(base, w) && forall x :: x in copies ==> x in Ids(w.rows)
  {
    hide IsCopy, Destination, StatusOf, Faces;
    forall x | x in copies ensures x in Ids(w.rows) {
      if x !in w.mine { CopyIsRow(base, x); }
    }
    forall x ensures x in copies <==> x in Repairables(base, w) {
      if x in copies { var i :| 0 <= i < |w.rows| && w.rows[i].id == x; }
    }
  }

  lemma NoStatusNoRow(rows: seq<Row>, x: string)
    ensures StatusOf(rows, x).Some? ==> exists i :: 0 <= i < |rows| && rows[i].id == x
  {
    StatusOfRow(rows, x);
    if IsRow(Faces(rows), x) {
      var i :| 0 <= i < |rows| && Faces(rows)[i].id == x;
      assert rows[i].id == x;
    }
  }

  lemma OneMoreFace(rows: seq<Row>, i: nat)
    requires i < |rows|
    ensures Faces(rows[..i + 1]) == Faces(rows[..i]) + [FaceOf(rows[i])]
  {
  }

  lemma ChangedBy(before: map<Key, string>, after: map<Key, string>, r: Row)
    requires forall key :: AtKey(after, key)
               == if key in before then Some(before[key]) else if Claims(FaceOf(r), key) then Some(r.id) else None
    ensures after != before <==> exists key :: key !in before && Claims(FaceOf(r), key)
  {
    hide Claims;
    if key: Key :| key !in before && Claims(FaceOf(r), key) {
      assert AtKey(after, key) == Some(r.id);
    } else {
      forall key ensures AtKey(after, key) == AtKey(before, key) { }
      assert forall key :: key in after <==> AtKey(after, key).Some?;
      assert after == before;
    }
  }

  lemma OneMoreClaim(rows: seq<Row>, i: nat, before: map<Key, string>)
    requires i < |rows|
    requires forall key :: AtKey(before, key)
               == if HasOwn(Faces(rows), key) then Some(key.id) else FirstClaim(Faces(rows[..i]), key)
    ensures forall key :: FirstClaim(Faces(rows[..i + 1]), key)
              == if FirstClaim(Faces(rows[..i]), key).Some? then FirstClaim(Faces(rows[..i]), key)
                 else if Claims(FaceOf(rows[i]), key) then Some(rows[i].id) else None
    ensures forall key :: key in before <==> AtKey(before, key).Some?
  {
    OneMoreFace(rows, i);
    forall key
      ensures FirstClaim(Faces(rows[..i + 1]), key)
              == if FirstClaim(Faces(rows[..i]), key).Some? then FirstClaim(Faces(rows[..i]), key)
                 else if Claims(FaceOf(rows[i]), key) then Some(rows[i].id) else None
    {
      ClaimJoined(Faces(rows[..i]), [FaceOf(rows[i])], key);
      assert [FaceOf(rows[i])][1..] == [];
    }
  }

  lemma OneMoreOwn(rows: seq<Row>, i: nat)
    requires i < |rows|
    ensures var key := Key(rows[i].id, DigestOf(rows[i].summary, rows[i].detail));
            forall k :: HasOwn(Faces(rows[..i + 1]), k) <==> HasOwn(Faces(rows[..i]), k) || k == key
  {
    hide DigestOf;
    OneMoreFace(rows, i);
    var key, last := Key(rows[i].id, DigestOf(rows[i].summary, rows[i].detail)), [FaceOf(rows[i])];
    forall k ensures HasOwn(Faces(rows[..i + 1]), k) <==> HasOwn(Faces(rows[..i]), k) || k == key {
      OwnJoined(Faces(rows[..i]), last, k);
      assert IsOwn(FaceOf(rows[i]), k) <==> k == key;
      assert IsOwn(FaceOf(rows[i]), k) ==> IsOwn(last[0], k);
    }
  }

  lemma NoFaces(rows: seq<Row>)
    ensures forall k :: !HasOwn(Faces(rows[..0]), k) && FirstClaim(Faces(rows[..0]), k) == None
  {
  }

  lemma IndexesSame(destination: map<Key, string>, copies: set<string>, status: map<string, string>, base: seq<Row>,
                    w: Work, u: Work)
    requires Indexes(destination, copies, status, base, w) && u.added == w.added && u.mine == w.mine
    ensures Indexes(destination, copies, status, base, u)
  {
  }

  lemma Repairs(destination: map<Key, string>, copies: set<string>, status: map<string, string>, base: seq<Row>, w: Work,
                x: string)
    requires Indexes(destination, copies, status, base, w)
    ensures Repairable(base, w, x) <==> x in copies
    ensures StatusOf(base, x) == Some("active") <==> x in status && status[x] == "active"
    ensures forall u: Work :: u.added == w.added && u.mine == w.mine ==> Indexes(destination, copies, status, base, u)
  {
    hide Destination, Faces, StatusOf, IsCopy;
  }
}
