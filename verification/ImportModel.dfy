/** What an import of exported learnings does to a project's store, as functions of the store and the file. */
module ImportModel {
  import opened Basics
  import opened TextLines

  const IMPORTED_ID := "imported-id:"

  /** Everything else an entry states about itself, carried unread. */
  datatype Payload = Payload(text: string)

  /** One object of an export file; `id` and `invalidatedBy` are absent when they are not strings. */
  datatype Entry = Entry(id: Option<string>, summary: string, detail: string, impact: real, tags: seq<string>,
                         status: Option<string>, superseded: bool, invalidatedBy: Option<string>,
                         source: Option<string>, rest: Payload)

  /** A stored learning. */
  datatype Row = Row(id: string, summary: string, detail: string, tags: seq<string>, status: string,
                     closedBy: Option<string>, supersedes: set<string>, rest: Payload)

  /** The content digest, taken as injective. */
  datatype Digest = Digest(summary: string, detail: string)

  datatype Key = Key(id: string, digest: Digest)

  datatype Verdict = Recorded | AlreadyThere | Turned(reason: string)

  /** The caller's filters, and a write path that decides on the entry alone. */
  datatype Setup = Setup(minImpact: real, tags: set<string>, verdict: Entry -> Verdict, takesStatus: Entry -> bool,
                         takesLink: Entry -> bool)

  // ---- Content and ids ---------------------------------------------------------------

  function DigestOf(summary: string, detail: string): Digest {
    Digest(Strip(summary), Strip(detail))
  }

  /** `L-` and one to 64 letters, digits, underscores or hyphens. */
  predicate IsLearningId(id: string) {
    && 3 <= |id| <= 66 && id[..2] == "L-"
    && forall i :: 2 <= i < |id| ==> IdChar(id[i])
  }

  predicate IdChar(c: char) {
    'A' <= c <= 'Z' || 'a' <= c <= 'z' || '0' <= c <= '9' || c == '_' || c == '-'
  }

  const SOURCES: set<string> := {"human", "agent", "tool", "consolidated", "distill"}

  function ProvenanceTags(e: Entry): seq<string> {
    (if e.id.Some? && IsLearningId(e.id.value) then [IMPORTED_ID + e.id.value] else []) +
    (if e.source.Some? && e.source.value in SOURCES then ["imported-source:" + e.source.value] else [])
  }

  function Missing(tags: seq<string>, present: seq<string>): seq<string> {
    if tags == [] then []
    else (if tags[0] in present then [] else [tags[0]]) + Missing(tags[1..], present)
  }

  /** The tags of the row an entry becomes. */
  function RowTags(e: Entry): seq<string> {
    e.tags + Missing(ProvenanceTags(e), e.tags)
  }

  function NewRow(e: Entry, id: string): Row {
    Row(id, e.summary, e.detail, RowTags(e), "active", None, {}, e.rest)
  }

  // ---- Recognising what is already there ---------------------------------------------

  /** The parts of a row that recognition reads. */
  datatype Face = Face(id: string, tags: seq<string>, digest: Digest)

  function FaceOf(r: Row): Face { Face(r.id, r.tags, DigestOf(r.summary, r.detail)) }

  function Faces(rows: seq<Row>): seq<Face> {
    seq(|rows|, i requires 0 <= i < |rows| => FaceOf(rows[i]))
  }

  predicate IsOwn(f: Face, key: Key) { f.id == key.id && f.digest == key.digest }

  predicate Claims(f: Face, key: Key) { IMPORTED_ID + key.id in f.tags && f.digest == key.digest }

  predicate HasOwn(faces: seq<Face>, key: Key) {
    exists i :: 0 <= i < |faces| && IsOwn(faces[i], key)
  }

  /** The first listed row that carries the key's tag. */
  function FirstClaim(faces: seq<Face>, key: Key): Option<string> {
    if faces == [] then None
    else if Claims(faces[0], key) then Some(faces[0].id)
    else FirstClaim(faces[1..], key)
  }

  /** The row the project already holds for a key: its own row of that id and content, else an earlier import's. */
  function Destination(faces: seq<Face>, key: Key): Option<string> {
    if HasOwn(faces, key) then Some(key.id) else FirstClaim(faces, key)
  }

  /** The row is known as an earlier import's: only such rows are repaired. */
  ghost predicate IsCopy(faces: seq<Face>, id: string) {
    exists key: Key :: !HasOwn(faces, key) && FirstClaim(faces, key) == Some(id)
  }

  // ---- Changes to rows ---------------------------------------------------------------

  function SetStatus(rows: seq<Row>, id: string, status: string): seq<Row> {
    seq(|rows|, i requires 0 <= i < |rows| => if rows[i].id == id then rows[i].(status := status) else rows[i])
  }

  function Linked(rows: seq<Row>, closer: string, prior: string): seq<Row> {
    seq(|rows|, i requires 0 <= i < |rows| =>
      var r := if rows[i].id == prior then rows[i].(closedBy := Some(closer)) else rows[i];
      if r.id == closer then r.(supersedes := r.supersedes + {prior}) else r)
  }

  function StatusOf(rows: seq<Row>, id: string): Option<string> {
    if rows == [] then None
    else if rows[0].id == id then Some(rows[0].status)
    else StatusOf(rows[1..], id)
  }

  predicate IsClosed(rows: seq<Row>, id: string) {
    exists i :: 0 <= i < |rows| && rows[i].id == id && rows[i].closedBy.Some?
  }

  const RESTORED: set<string> := {"resolved", "obsolete", "obsolete_poisoned"}

  function Restored(status: string): string {
    if status in RESTORED then status else "obsolete"
  }

  /** The entry asks for no status change, or the store refuses it. */
  predicate Quiet(setup: Setup, e: Entry) {
    e.status == None || e.status.value == "" || e.status.value == "active" || !setup.takesStatus(e)
  }

  function RestoreStatus(setup: Setup, rows: seq<Row>, e: Entry, id: string): seq<Row> {
    if Quiet(setup, e) then rows else SetStatus(rows, id, Restored(e.status.value))
  }

  // ---- First phase: rows -------------------------------------------------------------

  /** The state of an import between entries. */
  datatype Work = Work(
    rows: seq<Row>,
    added: map<Key, string>,                  // keys recognised because this run created their rows
    mine: set<string>,
    matched: seq<(Entry, string)>,
    destinations: map<string, set<string>>,
    imported: seq<string>,
    duplicates: nat,
    filtered: nat,
    refused: seq<string>)

  function Start(rows: seq<Row>): Work {
    Work(rows, map[], {}, [], map[], [], 0, 0, [])
  }

  predicate Passes(setup: Setup, e: Entry) {
    e.impact >= setup.minImpact && (setup.tags == {} || exists t :: t in e.tags && t in setup.tags)
  }

  /** The entry gets as far as being recognised or stored. */
  predicate Eligible(setup: Setup, e: Entry) {
    Passes(setup, e) && Strip(e.summary) != ""
  }

  function KeyOf(e: Entry): Key
    requires e.id.Some?
  {
    Key(e.id.value, DigestOf(Strip(e.summary), e.detail))
  }

  function Lookup(base: seq<Row>, w: Work, e: Entry): Option<string> {
    if e.id == None then None
    else if KeyOf(e) in w.added then Some(w.added[KeyOf(e)])
    else Destination(Faces(base), KeyOf(e))
  }

  ghost predicate Repairable(base: seq<Row>, w: Work, id: string) {
    id in w.mine || IsCopy(Faces(base), id)
  }

  function Seen(destinations: map<string, set<string>>, id: string, row: string): map<string, set<string>> {
    destinations[id := GetOr(destinations, id, {}) + {row}]
  }

  /** The store after the row of a new entry is written, before its status is. */
  function Created(w: Work, e: Entry, id: string): seq<Row> {
    w.rows + [NewRow(e, id)]
  }

  ghost function Recognise(setup: Setup, base: seq<Row>, w: Work, e: Entry, row: string): Work
    requires e.id.Some?
  {
    var repair := Repairable(base, w, row) && StatusOf(base, row) == Some("active");
    w.(rows := if repair then RestoreStatus(setup, w.rows, e, row) else w.rows,
       matched := w.matched + [(e, row)],
       destinations := Seen(w.destinations, e.id.value, row),
       duplicates := w.duplicates + 1)
  }

  function Store(setup: Setup, w: Work, e: Entry, id: string): Work {
    match setup.verdict(e)
    case Recorded =>
      var u := w.(rows := RestoreStatus(setup, Created(w, e, id), e, id),
                  matched := w.matched + [(e, id)], imported := w.imported + [id]);
      if e.id == None then u
      else u.(added := w.added[KeyOf(e) := id], mine := w.mine + {id},
              destinations := Seen(w.destinations, e.id.value, id))
    case AlreadyThere => w.(duplicates := w.duplicates + 1)
    case Turned(reason) => w.(refused := w.refused + [reason])
  }

  ghost function Handle(setup: Setup, base: seq<Row>, w: Work, e: Entry, id: string): Work {
    if !Passes(setup, e) then w.(filtered := w.filtered + 1)
    else if Strip(e.summary) == "" then w.(refused := w.refused + ["empty summary"])
    else
      var existing := Lookup(base, w, e);
      if existing.Some? then Recognise(setup, base, w, e, existing.value) else Store(setup, w, e, id)
  }

  /** The first `n` items of the file, those that are objects, handled in order; item `i` would get `ids[i]`. */
  ghost function HandleAll(setup: Setup, base: seq<Row>, file: seq<Option<Entry>>, ids: seq<string>, n: nat): Work
    requires n <= |file| && |ids| == |file|
  {
    if n == 0 then Start(base)
    else
      var w := HandleAll(setup, base, file, ids, n - 1);
      if file[n - 1] == None then w else Handle(setup, base, w, file[n - 1].value, ids[n - 1])
  }

  // ---- Second phase: supersession ----------------------------------------------------

  /** The one row of this import an entry's closer names, when there is exactly one and it may be changed. */
  function CloserOf(e: Entry, destinations: map<string, set<string>>, repairable: set<string>): Option<string> {
    if e.invalidatedBy == None || e.invalidatedBy.value !in destinations then None
    else OnlyOne(destinations[e.invalidatedBy.value], repairable)
  }

  function OnlyOne(closers: set<string>, repairable: set<string>): Option<string> {
    if exists c :: c in closers && closers == {c} && c in repairable
    then var c :| c in closers && closers == {c} && c in repairable; Some(c)
    else None
  }

  function LinkOne(setup: Setup, rows: seq<Row>, m: (Entry, string), destinations: map<string, set<string>>,
                   repairable: set<string>): seq<Row> {
    var (e, prior) := m;
    if !e.superseded || prior !in repairable || IsClosed(rows, prior) then rows
    else
      var closer := CloserOf(e, destinations, repairable);
      if closer.Some? && setup.takesLink(e) then Linked(rows, closer.value, prior) else rows
  }

  function LinkAll(setup: Setup, rows: seq<Row>, matched: seq<(Entry, string)>, destinations: map<string, set<string>>,
                   repairable: set<string>): seq<Row>
    decreases |matched|
  {
    if matched == [] then rows
    else
      var k := |matched| - 1;
      LinkOne(setup, LinkAll(setup, rows, matched[..k], destinations, repairable), matched[k], destinations, repairable)
  }

  ghost function Repairables(base: seq<Row>, w: Work): set<string> {
    set i | 0 <= i < |w.rows| && Repairable(base, w, w.rows[i].id) :: w.rows[i].id
  }

  /** The store after the whole import. */
  ghost function Import(setup: Setup, base: seq<Row>, file: seq<Option<Entry>>, ids: seq<string>): seq<Row>
    requires |ids| == |file|
  {
    var w := HandleAll(setup, base, file, ids, |file|);
    LinkAll(setup, w.rows, w.matched, w.destinations, Repairables(base, w))
  }

  /** A store an import may be cut off with: between two entries, between a new row and its status, or
      between two links. */
  ghost predicate CutOff(setup: Setup, base: seq<Row>, file: seq<Option<Entry>>, ids: seq<string>, mid: seq<Row>)
    requires |ids| == |file|
  {
    || (exists n :: 0 <= n <= |file| && mid == HandleAll(setup, base, file, ids, n).rows)
    || (exists n :: 0 <= n < |file| && NewAt(setup, base, file, ids, n)
                    && mid == Created(HandleAll(setup, base, file, ids, n), file[n].value, ids[n]))
    || (exists m: nat :: LinkedUpTo(setup, base, file, ids, m, mid))
  }

  /** Item `n` is about to get a row of its own. */
  ghost predicate NewAt(setup: Setup, base: seq<Row>, file: seq<Option<Entry>>, ids: seq<string>, n: nat)
    requires n < |file| == |ids|
  {
    && file[n].Some? && Eligible(setup, file[n].value) && setup.verdict(file[n].value) == Recorded
    && Lookup(base, HandleAll(setup, base, file, ids, n), file[n].value) == None
  }

  ghost predicate LinkedUpTo(setup: Setup, base: seq<Row>, file: seq<Option<Entry>>, ids: seq<string>, m: nat,
                             mid: seq<Row>)
    requires |ids| == |file|
  {
    var w := HandleAll(setup, base, file, ids, |file|);
    m <= |w.matched| && mid == LinkAll(setup, w.rows, w.matched[..m], w.destinations, Repairables(base, w))
  }
}
