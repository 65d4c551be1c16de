/** The second phase in closed form: who closes whom, independent of the order in which links are written. */
module ImportLinks {
  import opened Basics
  import opened TextLines
  import opened ImportModel
  import opened ImportRecognition

  /** The closer of the first match of a row that may be linked. */
  function FirstCloser(setup: Setup, matched: seq<(Entry, string)>, destinations: map<string, set<string>>,
                       repairable: set<string>, id: string): Option<string>
    decreases |matched|
  {
    if matched == [] then None
    else
      var k := |matched| - 1;
      var before, (e, prior) := FirstCloser(setup, matched[..k], destinations, repairable, id), matched[k];
      if before.Some? || prior != id || !e.superseded || id !in repairable || !setup.takesLink(e) then before
      else CloserOf(e, destinations, repairable)
  }

  /** Who closes a row after the second phase: whoever did, else its first closer in the file. */
  function ClosedBy(setup: Setup, r: Row, matched: seq<(Entry, string)>, destinations: map<string, set<string>>,
                    repairable: set<string>): Option<string> {
    if r.closedBy.Some? then r.closedBy else FirstCloser(setup, matched, destinations, repairable, r.id)
  }

  /** The rows of `after` are those of `rows`, each closed by its closer, and each superseding exactly what it did
      and what it has come to close. */
  ghost predicate LinksMade(setup: Setup, rows: seq<Row>, matched: seq<(Entry, string)>,
                            destinations: map<string, set<string>>, repairable: set<string>, after: seq<Row>) {
    && |after| == |rows|
    && (forall i :: 0 <= i < |rows| ==>
          after[i] == rows[i].(closedBy := ClosedBy(setup, rows[i], matched, destinations, repairable),
                               supersedes := after[i].supersedes))
    && (forall i, x :: 0 <= i < |rows| ==>
          (x in after[i].supersedes <==>
             x in rows[i].supersedes || NewlyCloses(setup, rows, matched, destinations, repairable, rows[i].id, x)))
  }

  ghost predicate NewlyCloses(setup: Setup, rows: seq<Row>, matched: seq<(Entry, string)>,
                              destinations: map<string, set<string>>, repairable: set<string>, closer: string, x: string) {
    exists l :: 0 <= l < |rows| && rows[l].id == x && rows[l].closedBy == None
                && FirstCloser(setup, matched, destinations, repairable, x) == Some(closer)
  }

  /** The second phase links each superseded row it may change to the one closer its entry names. */
  lemma {:induction false} LinksAsExported(setup: Setup, rows: seq<Row>, matched: seq<(Entry, string)>,
                                           destinations: map<string, set<string>>, repairable: set<string>)
    requires DistinctIds(rows) && repairable <= RowIds(rows)
    ensures LinksMade(setup, rows, matched, destinations, repairable,
                      LinkAll(setup, rows, matched, destinations, repairable))
    decreases |matched|
  {
    if matched != [] {
      var k := |matched| - 1;
      LinksAsExported(setup, rows, matched[..k], destinations, repairable);
      OneMoreLink(setup, rows, matched, destinations, repairable,
                  LinkAll(setup, rows, matched[..k], destinations, repairable));
    }
  }

  function RowIds(rows: seq<Row>): set<string> {
    set i | 0 <= i < |rows| :: rows[i].id
  }

  /** The row with an id, and whether the linking so far has closed it. */
  lemma ClosedSoFar(setup: Setup, rows: seq<Row>, front: seq<(Entry, string)>, destinations: map<string, set<string>>,
                    repairable: set<string>, mid: seq<Row>, id: string) returns (l: nat)
    requires DistinctIds(rows) && LinksMade(setup, rows, front, destinations, repairable, mid) && id in RowIds(rows)
    ensures l < |rows| && rows[l].id == id && forall i :: 0 <= i < |rows| && rows[i].id == id ==> i == l
    ensures IsClosed(mid, id) <==> ClosedBy(setup, rows[l], front, destinations, repairable).Some?
  {
    hide ClosedBy;
    l :| 0 <= l < |rows| && rows[l].id == id;
    assert mid[l].id == id;
    if IsClosed(mid, id) {
      var i :| 0 <= i < |mid| && mid[i].id == id && mid[i].closedBy.Some?;
      assert rows[i].id == id;
    }
  }

  /** The last match may name the first closer of its row, and of no other. */
  lemma LastCloser(setup: Setup, matched: seq<(Entry, string)>, destinations: map<string, set<string>>,
                   repairable: set<string>, id: string)
    requires matched != []
    ensures var k := |matched| - 1;
            var (e, prior) := matched[k];
            var before := FirstCloser(setup, matched[..k], destinations, repairable, id);
            FirstCloser(setup, matched, destinations, repairable, id)
            == if before == None && prior == id && e.superseded && prior in repairable && setup.takesLink(e)
               then CloserOf(e, destinations, repairable) else before
  {
  }

  lemma OneMoreLink(setup: Setup, rows: seq<Row>, matched: seq<(Entry, string)>, destinations: map<string, set<string>>,
                    repairable: set<string>, mid: seq<Row>)
    requires matched != [] && DistinctIds(rows) && repairable <= RowIds(rows)
    requires LinksMade(setup, rows, matched[..|matched| - 1], destinations, repairable, mid)
    ensures LinksMade(setup, rows, matched, destinations, repairable,
                      LinkOne(setup, mid, matched[|matched| - 1], destinations, repairable))
  {
    var k := |matched| - 1;
    var (e, prior) := matched[k];
    var closer := CloserOf(e, destinations, repairable);
    LinkOneIs(setup, mid, matched[k], destinations, repairable);
    forall id ensures FirstCloser(setup, matched, destinations, repairable, id)
                      == (var before := FirstCloser(setup, matched[..k], destinations, repairable, id);
                          if before == None && prior == id && e.superseded && prior in repairable && setup.takesLink(e)
                          then closer else before)
    {
      LastCloser(setup, matched, destinations, repairable, id);
    }
    hide LinkOne, CloserOf, FirstCloser;
    if e.superseded && prior in repairable && setup.takesLink(e) && closer.Some? {
      var l := ClosedSoFar(setup, rows, matched[..k], destinations, repairable, mid, prior);
      if IsClosed(mid, prior) {
        AlreadyClosed(setup, rows, matched, destinations, repairable, mid, l);
      } else {
        NowLinked(setup, rows, matched, destinations, repairable, mid, l, closer.value);
      }
    }
  }

  /** The row was closed before: nothing changes. */
  lemma AlreadyClosed(setup: Setup, rows: seq<Row>, matched: seq<(Entry, string)>, destinations: map<string, set<string>>,
                      repairable: set<string>, mid: seq<Row>, l: nat)
    requires matched != [] && LinksMade(setup, rows, matched[..|matched| - 1], destinations, repairable, mid)
    requires l < |rows| && forall i :: 0 <= i < |rows| && rows[i].id == rows[l].id ==> i == l
    requires ClosedBy(setup, rows[l], matched[..|matched| - 1], destinations, repairable).Some?
    requires forall id :: id != rows[l].id || FirstCloser(setup, matched[..|matched| - 1], destinations, repairable, id).Some? ==>
               FirstCloser(setup, matched, destinations, repairable, id)
               == FirstCloser(setup, matched[..|matched| - 1], destinations, repairable, id)
    ensures LinksMade(setup, rows, matched, destinations, repairable, mid)
  {
    hide FirstCloser;
    var front := matched[..|matched| - 1];
    forall i | 0 <= i < |rows|
      ensures ClosedBy(setup, rows[i], matched, destinations, repairable) == ClosedBy(setup, rows[i], front, destinations, repairable)
    {
    }
    forall c, x
      ensures NewlyCloses(setup, rows, matched, destinations, repairable, c, x)
              <==> NewlyCloses(setup, rows, front, destinations, repairable, c, x)
    {
    }
  }

  /** The row was open: it and its closer are linked. */
  lemma NowLinked(setup: Setup, rows: seq<Row>, matched: seq<(Entry, string)>, destinations: map<string, set<string>>,
                  repairable: set<string>, mid: seq<Row>, l: nat, closer: string)
    requires matched != [] && LinksMade(setup, rows, matched[..|matched| - 1], destinations, repairable, mid)
    requires l < |rows| && forall i :: 0 <= i < |rows| && rows[i].id == rows[l].id ==> i == l
    requires ClosedBy(setup, rows[l], matched[..|matched| - 1], destinations, repairable) == None
    requires forall id :: FirstCloser(setup, matched, destinations, repairable, id)
               == if id == rows[l].id then Some(closer)
                  else FirstCloser(setup, matched[..|matched| - 1], destinations, repairable, id)
    ensures LinksMade(setup, rows, matched, destinations, repairable, Linked(mid, closer, rows[l].id))
  {
    hide FirstCloser;
    var front, prior, after := matched[..|matched| - 1], rows[l].id, Linked(mid, closer, rows[l].id);
    forall c, x
      ensures NewlyCloses(setup, rows, matched, destinations, repairable, c, x)
              <==> NewlyCloses(setup, rows, front, destinations, repairable, c, x) || (c == closer && x == prior)
    {
      if c == closer && x == prior {
        assert rows[l].id == x && rows[l].closedBy == None;
      }
    }
    hide NewlyCloses;
    forall i | 0 <= i < |rows|
      ensures after[i] == rows[i].(closedBy := ClosedBy(setup, rows[i], matched, destinations, repairable),
                                   supersedes := after[i].supersedes)
    {
      assert mid[i].id == rows[i].id;
    }
  }

  lemma LinkOneIs(setup: Setup, rows: seq<Row>, m: (Entry, string), destinations: map<string, set<string>>, repairable: set<string>)
    ensures var closer := CloserOf(m.0, destinations, repairable);
            LinkOne(setup, rows, m, destinations, repairable)
            == if m.0.superseded && m.1 in repairable && !IsClosed(rows, m.1) && setup.takesLink(m.0) && closer.Some?
               then Linked(rows, closer.value, m.1) else rows
  {
  }

  // ---- Two ways to the same links ----------------------------------------------------

  /** The links determine the rows. */
  lemma LinksUnique(setup: Setup, rows: seq<Row>, matched: seq<(Entry, string)>, destinations: map<string, set<string>>,
                    other: seq<(Entry, string)>, others: map<string, set<string>>, repairable: set<string>, a: seq<Row>, b: seq<Row>)
    requires LinksMade(setup, rows, matched, destinations, repairable, a) && LinksMade(setup, rows, other, others, repairable, b)
    ensures a == b <==> forall i :: 0 <= i < |rows| ==>
                          ClosedBy(setup, rows[i], matched, destinations, repairable) == ClosedBy(setup, rows[i], other, others, repairable)
  {
    hide FirstCloser;
    if forall i :: 0 <= i < |rows| ==>
         ClosedBy(setup, rows[i], matched, destinations, repairable) == ClosedBy(setup, rows[i], other, others, repairable)
    {
      forall c, x ensures NewlyCloses(setup, rows, matched, destinations, repairable, c, x)
                          <==> NewlyCloses(setup, rows, other, others, repairable, c, x)
      {
        forall l | 0 <= l < |rows| && rows[l].closedBy == None
          ensures FirstCloser(setup, matched, destinations, repairable, rows[l].id)
                  == FirstCloser(setup, other, others, repairable, rows[l].id)
        {
          assert ClosedBy(setup, rows[l], matched, destinations, repairable) == ClosedBy(setup, rows[l], other, others, repairable);
        }
      }
      hide NewlyCloses, ClosedBy;
      forall i | 0 <= i < |rows| ensures a[i] == b[i] {
        assert a[i].supersedes == b[i].supersedes;
      }
    } else {
      var i :| 0 <= i < |rows| && ClosedBy(setup, rows[i], matched, destinations, repairable)
                                  != ClosedBy(setup, rows[i], other, others, repairable);
      assert a[i].closedBy != b[i].closedBy;
    }
  }

  lemma {:induction false} FirstStays(setup: Setup, matched: seq<(Entry, string)>, m: nat, destinations: map<string, set<string>>,
                                      repairable: set<string>, id: string)
    requires m <= |matched|
    ensures var before := FirstCloser(setup, matched[..m], destinations, repairable, id);
            before.Some? ==> FirstCloser(setup, matched, destinations, repairable, id) == before
    decreases |matched|
  {
    hide CloserOf;
    if m < |matched| {
      var k := |matched| - 1;
      assert matched[..k][..m] == matched[..m];
      FirstStays(setup, matched[..k], m, destinations, repairable, id);
    } else {
      assert matched[..m] == matched;
    }
  }

  /** Linking the first few matches, and then all of another plan that gives the open rows the same closers,
      is linking all matches. */
  lemma LinksCompose(setup: Setup, rows: seq<Row>, matched: seq<(Entry, string)>, m: nat, destinations: map<string, set<string>>,
                     other: seq<(Entry, string)>, others: map<string, set<string>>, repairable: set<string>,
                     mid: seq<Row>, last: seq<Row>, whole: seq<Row>)
    requires m <= |matched| && LinksMade(setup, rows, matched[..m], destinations, repairable, mid)
    requires LinksMade(setup, mid, other, others, repairable, last)
    requires LinksMade(setup, rows, matched, destinations, repairable, whole)
    requires forall i :: 0 <= i < |rows| && rows[i].closedBy == None ==>
               FirstCloser(setup, other, others, repairable, rows[i].id) == FirstCloser(setup, matched, destinations, repairable, rows[i].id)
    ensures last == whole
  {
    hide FirstCloser;
    forall id { FirstStays(setup, matched, m, destinations, repairable, id); }
    forall i | 0 <= i < |rows| ensures mid[i].id == rows[i].id && last[i].closedBy == whole[i].closedBy { }
    forall c, x
      ensures NewlyCloses(setup, rows, matched, destinations, repairable, c, x)
              <==> NewlyCloses(setup, rows, matched[..m], destinations, repairable, c, x)
                   || NewlyCloses(setup, mid, other, others, repairable, c, x)
    {
      ClosesBefore(setup, rows, matched, m, destinations, other, others, repairable, mid, c, x);
    }
    hide NewlyCloses, ClosedBy;
    forall i | 0 <= i < |rows| ensures last[i] == whole[i] {
      assert last[i].supersedes == whole[i].supersedes;
    }
  }

  lemma ClosesBefore(setup: Setup, rows: seq<Row>, matched: seq<(Entry, string)>, m: nat, destinations: map<string, set<string>>,
                     other: seq<(Entry, string)>, others: map<string, set<string>>, repairable: set<string>,
                     mid: seq<Row>, c: string, x: string)
    requires m <= |matched| && LinksMade(setup, rows, matched[..m], destinations, repairable, mid)
    requires forall id :: FirstCloser(setup, matched[..m], destinations, repairable, id).Some? ==>
               FirstCloser(setup, matched, destinations, repairable, id) == FirstCloser(setup, matched[..m], destinations, repairable, id)
    requires forall i :: 0 <= i < |rows| && rows[i].closedBy == None ==>
               FirstCloser(setup, other, others, repairable, rows[i].id) == FirstCloser(setup, matched, destinations, repairable, rows[i].id)
    ensures NewlyCloses(setup, rows, matched, destinations, repairable, c, x)
            <==> NewlyCloses(setup, rows, matched[..m], destinations, repairable, c, x)
                 || NewlyCloses(setup, mid, other, others, repairable, c, x)
  {
    hide FirstCloser;
    if NewlyCloses(setup, rows, matched, destinations, repairable, c, x) {
      var l :| 0 <= l < |rows| && rows[l].id == x && rows[l].closedBy == None
               && FirstCloser(setup, matched, destinations, repairable, x) == Some(c);
      if FirstCloser(setup, matched[..m], destinations, repairable, x) == None {
        assert mid[l].id == x && mid[l].closedBy == None;
      }
    }
    if NewlyCloses(setup, mid, other, others, repairable, c, x) {
      var l :| 0 <= l < |mid| && mid[l].id == x && mid[l].closedBy == None
               && FirstCloser(setup, other, others, repairable, x) == Some(c);
      assert rows[l].id == x && rows[l].closedBy == None;
    }
  }

  /** What linking leaves alone. */
  lemma LinksKeep(setup: Setup, rows: seq<Row>, matched: seq<(Entry, string)>, destinations: map<string, set<string>>,
                  repairable: set<string>)
    requires DistinctIds(rows) && repairable <= RowIds(rows)
    ensures var after := LinkAll(setup, rows, matched, destinations, repairable);
            && |after| == |rows|
            && forall i :: 0 <= i < |rows| ==> after[i] == rows[i].(closedBy := after[i].closedBy, supersedes := after[i].supersedes)
  {
    LinksAsExported(setup, rows, matched, destinations, repairable);
  }
}
