/** The one decision whether to deploy: current, too old to write, or deploy. */
module FrameworkDecision {
  import opened Basics
  import opened TextLines
  import opened ScalarEditor
  import opened VersionKeys
  import opened DeploymentModel
  import opened Integrity

  /** What surrounds a decision: how bodies are read, how package versions compare, whether deploys are forced. */
  datatype Setting = Setting(readers: Readers, packageNewer: (string, string) -> bool, force: bool)

  /** The two canon documents. */
  datatype Canon = Framework | Aaref

  function TextOr(fs: Files, p: Rel): string {
    if TextAt(fs, p).Some? then TextAt(fs, p).value else ""
  }

  function FieldOf(d: Canon): string {
    if d == Framework then FRAMEWORK_VERSION else AAREF_VERSION
  }

  function BodyPath(d: Canon): Rel {
    if d == Framework then FRAMEWORK else AAREF
  }

  function BodyVersion(r: Readers, d: Canon, text: string): Option<string> {
    if d == Framework then r.framework(text) else r.aaref(text)
  }

  function Source(b: Bundle, d: Canon): string {
    if d == Framework then b.framework else b.aaref
  }

  function VersionOf(b: Bundle, d: Canon): string {
    if d == Framework then b.frameworkVersion else b.aarefVersion
  }

  /** The three places a project states the version of a document it has. */
  function Candidates(fs: Files, r: Readers, d: Canon): seq<Option<string>> {
    [Scalar(TextOr(fs, STAMP), FieldOf(d)), BodyVersion(r, d, TextOr(fs, BodyPath(d))), Scalar(TextOr(fs, CONFIG), FieldOf(d))]
  }

  predicate Higher(candidate: Option<string>, running: seq<nat>) {
    VersionKey(candidate).Some? && TupleLess(running, VersionKey(candidate).value)
  }

  predicate DocumentNewer(fs: Files, b: Bundle, r: Readers, d: Canon) {
    var running := VersionKey(BodyVersion(r, d, Source(b, d)));
    running.Some? && exists c :: c in Candidates(fs, r, d) && Higher(c, running.value)
  }

  function DeployedPackage(fs: Files): Option<string> {
    if RECEIPT in fs && fs[RECEIPT].Json? && fs[RECEIPT].doc.Receipt? && fs[RECEIPT].doc.package.Some?
       && fs[RECEIPT].doc.package.value != ""
    then fs[RECEIPT].doc.package else None
  }

  predicate PackageNewer(fs: Files, b: Bundle, s: Setting) {
    b.package.Some? && b.package.value != "" && DeployedPackage(fs).Some?
    && s.packageNewer(DeployedPackage(fs).value, b.package.value)
  }

  /** Something deployed here is newer than the running package. */
  predicate NewerDeployed(fs: Files, b: Bundle, s: Setting) {
    !s.force
    && (DocumentNewer(fs, b, s.readers, Framework) || DocumentNewer(fs, b, s.readers, Aaref) || PackageNewer(fs, b, s))
  }

  /** The integrity check is clean and the receipt lists exactly the bundle's bodies. */
  predicate GenerationCurrent(fs: Files, b: Bundle, r: Readers) {
    && Intact(fs, b, r) && !Outdated(fs, b)
    && RECEIPT in fs && fs[RECEIPT].Json? && fs[RECEIPT].doc.Receipt? && fs[RECEIPT].doc.digests == DigestsOf(Expected(b))
  }

  /** Bodies someone edited: neither the bytes the last receipt lists nor the bundle's. */
  function Edited(fs: Files, b: Bundle, s: Setting): set<Rel> {
    if s.force || RECEIPT !in fs || !fs[RECEIPT].Json? || !fs[RECEIPT].doc.Receipt? then {}
    else
      var listed := fs[RECEIPT].doc.digests;
      set p | p in Expected(b) && p in listed && p in fs && Digest(fs[p]) != Digest(Expected(b)[p]) && Digest(fs[p]) != listed[p]
  }

  datatype Decision = Current | SkipStale | Deploy(edited: set<Rel>)

  function Decide(fs: Files, b: Bundle, s: Setting): Decision {
    if GenerationCurrent(fs, b, s.readers) then Current
    else if NewerDeployed(fs, b, s) then SkipStale
    else Deploy(Edited(fs, b, s))
  }

  // ---- Texts a repair writes ---------------------------------------------------------

  lemma VersionFields()
    ensures IsField(FRAMEWORK_VERSION) && IsField(AAREF_VERSION) && |FRAMEWORK_VERSION| == 17 && |AAREF_VERSION| == 13
  {
  }

  lemma DigestFields()
    ensures IsField("framework_digest") && IsField("aaref_digest")
  {
  }

  lemma Fields()
    ensures IsField(FRAMEWORK_VERSION) && IsField(AAREF_VERSION) && IsField(REGISTRY_DIGEST)
    ensures IsField("framework_digest") && IsField("aaref_digest") && IsField("deployed_at")
    ensures |FRAMEWORK_VERSION| == 17 && |AAREF_VERSION| == 13 && |REGISTRY_DIGEST| == 15
  {
    VersionFields();
    DigestFields();
    hide IsField;
    OtherFields();
  }

  lemma OtherFields()
    ensures IsField(REGISTRY_DIGEST) && IsField("deployed_at") && |REGISTRY_DIGEST| == 15
  {
  }

  /** Values that sit on one line and hold no white space, quote or comment sign. */
  predicate ValuesOk(b: Bundle, at: string) {
    && IsValue(b.frameworkVersion) && IsValue(b.aarefVersion) && OneLine(b.frameworkDigest) && OneLine(b.aarefDigest)
    && OneLine(at) && (b.registryDigest.Some? ==> IsValue(b.registryDigest.value))
  }

  predicate AllOneLine(lines: seq<string>) {
    forall i :: 0 <= i < |lines| ==> OneLine(lines[i])
  }

  lemma {:induction false} ReplaceOneLine(lines: seq<string>, field: string, value: string)
    requires AllOneLine(lines) && OneLine(field) && OneLine(value)
    ensures AllOneLine(Replace(lines, field, value))
  {
    if lines != [] && !HasField(lines[0], field) {
      assert forall i :: 0 <= i < |lines[1..]| ==> lines[1..][i] == lines[i + 1];
      ReplaceOneLine(lines[1..], field, value);
    }
  }

  lemma PutOneLine(lines: seq<string>, field: string, value: string)
    requires |lines| >= 1 && AllOneLine(lines) && OneLine(field) && OneLine(value)
    ensures AllOneLine(Put(lines, field, value))
  {
    if Mentions(lines, field) {
      ReplaceOneLine(lines, field, value);
    }
  }

  lemma {:induction false} DropLinesOneLine(lines: seq<string>, field: string)
    requires AllOneLine(lines)
    ensures AllOneLine(DropLines(lines, field))
  {
    if lines != [] {
      assert forall i :: 0 <= i < |lines[1..]| ==> lines[1..][i] == lines[i + 1];
      DropLinesOneLine(lines[1..], field);
    }
  }

  lemma ValueIsOneLine(v: string)
    requires IsValue(v)
    ensures OneLine(v)
  {
    forall i | 0 <= i < |v| ensures v[i] != '\n' { assert ValueChar(v[i]); }
  }

  /** The stamp a repair writes is lines, and its first line for each field is the one written. */
  lemma StampWritten(lines: seq<string>, b: Bundle, at: string)
    requires |lines| >= 1 && AllOneLine(lines) && ValuesOk(b, at)
    ensures var l := StampLines(lines, b, at);
            && AllOneLine(l)
            && FirstLine(l, FRAMEWORK_VERSION) == Some(FRAMEWORK_VERSION + ": " + b.frameworkVersion)
            && FirstLine(l, AAREF_VERSION) == Some(AAREF_VERSION + ": " + b.aarefVersion)
            && (b.registryDigest.Some? ==>
                  FirstLine(l, REGISTRY_DIGEST) == Some(REGISTRY_DIGEST + ": " + b.registryDigest.value))
  {
    hide Put, Drop, FirstLine, IsValue, IsField, OneLine;
    Fields();
    FieldsOneLine();
    ValueIsOneLine(b.frameworkVersion);
    ValueIsOneLine(b.aarefVersion);
    var l0 := Drop(Drop(lines, "trw_mcp_version"), "trw_memory_version");
    DropOneLine(lines, "trw_mcp_version");
    DropOneLine(Drop(lines, "trw_mcp_version"), "trw_memory_version");
    Writes(l0, FRAMEWORK_VERSION, b.frameworkVersion);
    var l1 := Put(l0, FRAMEWORK_VERSION, b.frameworkVersion);
    Writes(l1, AAREF_VERSION, b.aarefVersion);
    var l2 := Put(l1, AAREF_VERSION, b.aarefVersion);
    QuotedOneLine(at);
    if b.registryDigest.Some? {
      ValueIsOneLine(b.registryDigest.value);
      Writes(l2, REGISTRY_DIGEST, b.registryDigest.value);
      var l3 := Put(l2, REGISTRY_DIGEST, b.registryDigest.value);
      Writes(l3, "framework_digest", b.frameworkDigest);
      var l4 := Put(l3, "framework_digest", b.frameworkDigest);
      Writes(l4, "aaref_digest", b.aarefDigest);
      Writes(Put(l4, "aaref_digest", b.aarefDigest), "deployed_at", "'" + at + "'");
    } else {
      Writes(l2, "deployed_at", "'" + at + "'");
    }
  }

  lemma DropOneLine(lines: seq<string>, field: string)
    requires |lines| >= 1 && AllOneLine(lines)
    ensures AllOneLine(Drop(lines, field))
  {
    DropLinesOneLine(lines, field);
  }

  lemma FieldsOneLine()
    ensures OneLine(FRAMEWORK_VERSION) && OneLine(AAREF_VERSION) && OneLine(REGISTRY_DIGEST)
    ensures OneLine("framework_digest") && OneLine("aaref_digest") && OneLine("deployed_at")
  {
  }

  lemma QuotedOneLine(at: string)
    requires OneLine(at)
    ensures OneLine("'" + at + "'")
  {
  }

  /** One put: the field's first line is the new one, the others' are as they were. */
  lemma Writes(lines: seq<string>, field: string, value: string)
    requires |lines| >= 1 && AllOneLine(lines) && IsField(field) && OneLine(field) && OneLine(value)
    ensures AllOneLine(Put(lines, field, value))
    ensures FirstLine(Put(lines, field, value), field) == Some(field + ": " + value)
    ensures forall g :: IsField(g) && g != field ==> FirstLine(Put(lines, field, value), g) == FirstLine(lines, g)
  {
    hide Put, FirstLine, IsField, OneLine;
    PutOneLine(lines, field, value);
    PutFirst(lines, field, value, field);
    forall g | IsField(g) && g != field ensures FirstLine(Put(lines, field, value), g) == FirstLine(lines, g) {
      PutFirst(lines, field, value, g);
    }
  }

  lemma {:induction false} NoLineNoValue(lines: seq<string>, field: string)
    ensures FirstLine(lines, field) == None ==> Get(lines, field) == None
  {
    if lines != [] {
      NoLineNoValue(lines[1..], field);
    }
  }

  /** A pin a repair has been over: absent if it was, else the bundle's version. */
  lemma PinWritten(lines: seq<string>, b: Bundle)
    requires |lines| >= 1 && AllOneLine(lines) && IsValue(b.frameworkVersion) && IsValue(b.aarefVersion)
    ensures var l := ConfigLines(lines, b);
            && AllOneLine(l)
            && Get(l, FRAMEWORK_VERSION) == (if Mentions(lines, FRAMEWORK_VERSION) then Some(b.frameworkVersion) else None)
            && Get(l, AAREF_VERSION) == (if Mentions(lines, AAREF_VERSION) then Some(b.aarefVersion) else None)
  {
    hide Put, FirstLine, Get, IsField, OneLine, Mentions, IsValue;
    Fields();
    FieldsOneLine();
    ValueIsOneLine(b.frameworkVersion);
    ValueIsOneLine(b.aarefVersion);
    FirstLineIs(lines, FRAMEWORK_VERSION);
    FirstLineIs(lines, AAREF_VERSION);
    Writes(lines, FRAMEWORK_VERSION, b.frameworkVersion);
    var l1 := PutIfThere(lines, FRAMEWORK_VERSION, b.frameworkVersion);
    FirstLineIs(l1, AAREF_VERSION);
    Writes(l1, AAREF_VERSION, b.aarefVersion);
    var l := ConfigLines(lines, b);
    FirstLineIs(l, FRAMEWORK_VERSION);
    NoLineNoValue(l, FRAMEWORK_VERSION);
    NoLineNoValue(l, AAREF_VERSION);
    if Mentions(lines, FRAMEWORK_VERSION) {
      FirstDecides(l, FRAMEWORK_VERSION, b.frameworkVersion);
    }
    if Mentions(lines, AAREF_VERSION) {
      FirstDecides(l, AAREF_VERSION, b.aarefVersion);
    }
  }
}
