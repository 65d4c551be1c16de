/** Repair reaches a fixpoint, and no sequence of obeyed decisions lowers a deployed version. */
module FrameworkRuns {
  import opened Basics
  import opened TextLines
  import opened ScalarEditor
  import opened VersionKeys
  import opened DeploymentModel
  import opened Deployment
  import opened Integrity
  import opened FrameworkDecision

  // ---- What a repair writes ----------------------------------------------------------

  lemma Paths()
    ensures PathAllowed(FRAMEWORK) && PathAllowed(AAREF) && PathAllowed(STAMP) && PathAllowed(CONFIG)
    ensures !Own(FRAMEWORK) && !Own(AAREF) && !Own(STAMP) && !Own(CONFIG) && !Own(RECEIPT)
    ensures FRAMEWORK != AAREF && FRAMEWORK != STAMP && FRAMEWORK != CONFIG && AAREF != STAMP && AAREF != CONFIG
    ensures STAMP != CONFIG && RECEIPT != FRAMEWORK && RECEIPT != AAREF && RECEIPT != STAMP && RECEIPT != CONFIG
    ensures META != FRAMEWORK && META != AAREF && META != STAMP && META != CONFIG && META != RECEIPT
  {
    assert FRAMEWORK[2] != RECEIPT[2] && AAREF[2] != RECEIPT[2] && STAMP[2] != RECEIPT[2];
    assert FRAMEWORK[2] != AAREF[2] && FRAMEWORK[2] != STAMP[2] && AAREF[2] != STAMP[2];
    assert |LOCK| == |BACKUPS| == |STAGING| == 3 && |CONFIG| == 2;
    assert forall p: Rel, d: Rel :: |p| == 3 && |d| == 3 && Under(p, d) ==> p[2] == d[2] by {
      forall p: Rel, d: Rel | |p| == 3 && |d| == 3 && Under(p, d) ensures p[2] == d[2] { assert p[..3] == p; }
    }
  }

  lemma RepairAdmissible(fs: Files, b: Bundle, at: string)
    requires CanRepair(fs)
    ensures Admissible(RepairRequest(fs, b, at))
  {
    Paths();
    hide PathAllowed, Own, StampLines, ConfigLines;
  }

  /** The wanted contents, path by path. */
  lemma WantedIs(fs: Files, b: Bundle, at: string)
    requires CanRepair(fs)
    ensures var w := Wanted(RepairRequest(fs, b, at));
            && FRAMEWORK in w && w[FRAMEWORK] == Text(b.framework) && AAREF in w && w[AAREF] == Text(b.aaref)
            && STAMP in w && w[STAMP] == Text(Join(StampLines(Split(TextOr(fs, STAMP)), b, at)))
            && (CONFIG in w <==> CONFIG in fs)
            && (CONFIG in fs ==> w[CONFIG] == Text(Join(ConfigLines(Split(fs[CONFIG].text), b))))
            && RECEIPT in w && w[RECEIPT] == ReceiptFor(RepairRequest(fs, b, at))
  {
    Paths();
    hide PathAllowed, Own, StampLines, ConfigLines, ReceiptFor, Under;
  }

  lemma StampValues(text: string, b: Bundle, at: string)
    requires ValuesOk(b, at)
    ensures var t := Join(StampLines(Split(text), b, at));
            && Scalar(t, FRAMEWORK_VERSION) == Some(b.frameworkVersion) && Scalar(t, AAREF_VERSION) == Some(b.aarefVersion)
            && (b.registryDigest.Some? ==> Scalar(t, REGISTRY_DIGEST) == b.registryDigest)
  {
    hide StampLines, FirstLine, Get, IsValue, OneLine;
    SplitGivesLines(text);
    StampWritten(Split(text), b, at);
    var l := StampLines(Split(text), b, at);
    SplitJoin(l);
    FirstDecides(l, FRAMEWORK_VERSION, b.frameworkVersion);
    FirstDecides(l, AAREF_VERSION, b.aarefVersion);
    if b.registryDigest.Some? {
      FirstDecides(l, REGISTRY_DIGEST, b.registryDigest.value);
    }
  }

  lemma ConfigValues(text: string, b: Bundle)
    requires IsValue(b.frameworkVersion) && IsValue(b.aarefVersion)
    ensures var t := Join(ConfigLines(Split(text), b));
            && Scalar(t, FRAMEWORK_VERSION)
               == (if Mentions(Split(text), FRAMEWORK_VERSION) then Some(b.frameworkVersion) else None)
            && Scalar(t, AAREF_VERSION) == (if Mentions(Split(text), AAREF_VERSION) then Some(b.aarefVersion) else None)
  {
    hide ConfigLines, Get, IsValue, OneLine, Mentions;
    SplitGivesLines(text);
    PinWritten(Split(text), b);
    SplitJoin(ConfigLines(Split(text), b));
  }

  // ---- Fixpoint ----------------------------------------------------------------------

  predicate PinsSame(text: Option<string>, other: Option<string>) {
    && PinOf(text, FRAMEWORK_VERSION) == PinOf(other, FRAMEWORK_VERSION)
    && PinOf(text, AAREF_VERSION) == PinOf(other, AAREF_VERSION)
  }

  function PinOf(text: Option<string>, field: string): Option<string> {
    if text.Some? then Scalar(text.value, field) else None
  }

  /** An edit of the config, the stamp or anything unmanaged that leaves the pinned values alone. */
  ghost predicate EditKeepsPins(now: Files, edited: Files) {
    && At(edited, FRAMEWORK) == At(now, FRAMEWORK) && At(edited, AAREF) == At(now, AAREF)
    && At(edited, RECEIPT) == At(now, RECEIPT)
    && (CONFIG in edited ==> TextAt(edited, CONFIG).Some?) && TextAt(edited, STAMP).Some?
    && PinsSame(TextAt(now, CONFIG), TextAt(edited, CONFIG)) && PinsSame(TextAt(now, STAMP), TextAt(edited, STAMP))
    && PinOf(TextAt(now, STAMP), REGISTRY_DIGEST) == PinOf(TextAt(edited, STAMP), REGISTRY_DIGEST)
  }

  lemma RepairedReceipt(before: Files, b: Bundle, at: string, now: Files)
    requires CanRepair(before) && b.registryDigest.Some?
    requires At(now, RECEIPT) == Some(ReceiptFor(RepairRequest(before, b, at)))
    requires At(now, FRAMEWORK) == Some(Text(b.framework)) && At(now, AAREF) == Some(Text(b.aaref))
    ensures ReceiptAgrees(now, b.registryDigest.value) && RECEIPT in now
    ensures now[RECEIPT].Json? && now[RECEIPT].doc.Receipt? && now[RECEIPT].doc.digests == DigestsOf(Expected(b))
  {
    Paths();
    hide StampLines, ConfigLines, Own, Under, Scalar;
    var digests := DigestsOf(Expected(b));
    assert FRAMEWORK in digests;
    forall p | p in digests ensures ListedFileIntact(now, p, digests[p]) {
      assert p == FRAMEWORK || p == AAREF;
    }
  }

  /** A completed repair is current: inspection is clean, nothing needs upgrading, and the decision writes nothing. */
  lemma RepairedIsCurrent(before: Files, b: Bundle, s: Setting, at: string, now: Files)
    requires CanRepair(before) && SelfConsistent(b, s.readers) && ValuesOk(b, at) && b.registryDigest.Some?
    requires Installed(before, Wanted(RepairRequest(before, b, at)), now)
    ensures Intact(now, b, s.readers) && !Outdated(now, b) && Decide(now, b, s) == Current
  {
    hide StampLines, ConfigLines, Scalar, Own, Under, ReceiptAgrees, ReceiptFor, Wanted, RepairRequest, IsValue, OneLine, NewerDeployed, Edited;
    Paths();
    WantedIs(before, b, at);
    StampValues(TextOr(before, STAMP), b, at);
    assert At(now, FRAMEWORK) == Some(Text(b.framework)) && At(now, AAREF) == Some(Text(b.aaref));
    assert At(now, STAMP).Some? && At(now, RECEIPT) == Some(ReceiptFor(RepairRequest(before, b, at)));
    RepairedReceipt(before, b, at, now);
    assert At(now, CONFIG).Some? <==> CONFIG in before;
    if CONFIG in before {
      ConfigValues(before[CONFIG].text, b);
    }
  }

  /** It stays current under any edit that leaves the pinned values alone. */
  lemma EditedIsCurrent(b: Bundle, s: Setting, now: Files, edited: Files)
    requires Decide(now, b, s) == Current && EditKeepsPins(now, edited)
    ensures Intact(edited, b, s.readers) && !Outdated(edited, b) && Decide(edited, b, s) == Current
  {
    hide Scalar, NewerDeployed, Edited;
    Paths();
    if b.registryDigest.Some? {
      var digests := now[RECEIPT].doc.digests;
      forall p | p in digests ensures ListedFileIntact(edited, p, digests[p]) {
        assert p in Expected(b);
        assert p == FRAMEWORK || p == AAREF;
      }
    }
  }

  /** Repair on a target: when it completes, the inspection it returns is clean, unless values are malformed. */
  method Repair(target: Target, b: Bundle, s: Setting, at: string, boundOrder: seq<Rel>, looseOrder: seq<Rel>,
                sorted: seq<Rel>, backup: Rel, stage: Rel, temps: seq<Rel>, failAfter: Option<nat>)
      returns (outcome: Outcome, errors: seq<Finding>, warnings: seq<Finding>)
    requires CanRepair(target.files)
    requires var req := RepairRequest(target.files, b, at);
             && NoDuplicates(boundOrder) && Elements(boundOrder) == req.bound.Keys
             && NoDuplicates(looseOrder) && Elements(looseOrder) == req.loose.Keys
             && NoDuplicates(sorted) && Elements(sorted) == req.bound.Keys + req.loose.Keys && |temps| == |sorted| + 1
             && (forall t :: t in temps ==> t !in target.files && t !in Wanted(req) && !Own(t))
    requires Under(backup, BACKUPS) && Under(stage, STAGING)
    modifies target
    ensures outcome != Rejected
    ensures outcome == Deployed ==> Installed(old(target.files), Wanted(RepairRequest(old(target.files), b, at)), target.files)
    ensures outcome == Deployed && SelfConsistent(b, s.readers) && ValuesOk(b, at) && b.registryDigest.Some? ==>
              errors == [] && (forall w :: w in warnings ==> !NeedsUpgrade(w)) && Decide(target.files, b, s) == Current
  {
    hide RepairRequest, Own, Under, Intact, Outdated, ValuesOk, SelfConsistent, Installed, Wanted, Decide, Admissible;
    ghost var before := target.files;
    RepairAdmissible(before, b, at);
    ghost var forward;
    outcome, forward := target.Deploy(RepairRequest(target.files, b, at), boundOrder, looseOrder, sorted, backup, stage, temps, failAfter);
    errors, warnings := [], [];
    if outcome == Deployed {
      errors, warnings := Inspect(target.files, b, s.readers);
      if SelfConsistent(b, s.readers) && ValuesOk(b, at) && b.registryDigest.Some? {
        RepairedIsCurrent(before, b, s, at, target.files);
      }
    }
  }

  // ---- No downgrade ------------------------------------------------------------------

  /** The keys of the versions a project states for a document. */
  ghost predicate States(fs: Files, r: Readers, d: Canon, key: seq<nat>) {
    exists c :: c in Candidates(fs, r, d) && VersionKey(c) == Some(key)
  }

  /** Whatever version the one states, the other states one no lower. */
  ghost predicate NoLower(before: Files, now: Files, r: Readers, d: Canon) {
    forall k :: States(before, r, d, k) ==> exists k' :: States(now, r, d, k') && AtMost(k, k')
  }

  /** Bundles whose versions parse. */
  predicate Parseable(b: Bundle, r: Readers) {
    && SelfConsistent(b, r)
    && VersionKey(Some(b.frameworkVersion)).Some? && VersionKey(Some(b.aarefVersion)).Some?
  }

  lemma CandidateAt(fs: Files, r: Readers, d: Canon, i: nat)
    requires i < 3 && VersionKey(Candidates(fs, r, d)[i]).Some?
    ensures States(fs, r, d, VersionKey(Candidates(fs, r, d)[i]).value)
  {
    hide VersionKey, Scalar;
    assert Candidates(fs, r, d)[i] in Candidates(fs, r, d);
  }

  lemma NotNewer(fs: Files, b: Bundle, r: Readers, d: Canon, i: nat)
    requires Parseable(b, r) && !DocumentNewer(fs, b, r, d) && i < 3 && VersionKey(Candidates(fs, r, d)[i]).Some?
    ensures VersionKey(Some(VersionOf(b, d))).Some?
    ensures AtMost(VersionKey(Candidates(fs, r, d)[i]).value, VersionKey(Some(VersionOf(b, d))).value)
  {
    hide VersionKey, Scalar;
    assert Candidates(fs, r, d)[i] in Candidates(fs, r, d);
  }

  /** What a path holds in an interrupted repair. */
  lemma OldOrWanted(before: Files, b: Bundle, at: string, temps: set<Rel>, now: Files, p: Rel)
    requires CanRepair(before) && Interrupted(before, Wanted(RepairRequest(before, b, at)), temps, now)
    requires p in {FRAMEWORK, AAREF, STAMP, CONFIG} && p !in temps
    ensures At(now, p) == At(before, p)
         || (p in Wanted(RepairRequest(before, b, at)) && At(now, p) == Some(Wanted(RepairRequest(before, b, at))[p]))
  {
    hide RepairRequest, Wanted, Own, Under;
    Paths();
  }

  lemma TextFollows(fs: Files, other: Files, p: Rel)
    requires At(fs, p) == At(other, p)
    ensures TextOr(fs, p) == TextOr(other, p)
  {
  }

  /** The stamp of an interrupted repair states the old version or the bundle's. */
  lemma StampThen(before: Files, b: Bundle, at: string, temps: set<Rel>, now: Files, d: Canon)
    requires CanRepair(before) && Interrupted(before, Wanted(RepairRequest(before, b, at)), temps, now)
    requires STAMP !in temps && ValuesOk(b, at)
    ensures Scalar(TextOr(now, STAMP), FieldOf(d)) == Scalar(TextOr(before, STAMP), FieldOf(d))
         || Scalar(TextOr(now, STAMP), FieldOf(d)) == Some(VersionOf(b, d))
  {
    hide RepairRequest, Wanted, Scalar, StampLines, Interrupted, ValuesOk;
    OldOrWanted(before, b, at, temps, now, STAMP);
    WantedIs(before, b, at);
    StampValues(TextOr(before, STAMP), b, at);
    if At(now, STAMP) == At(before, STAMP) {
      TextFollows(now, before, STAMP);
    }
  }

  lemma BodyThen(before: Files, b: Bundle, at: string, temps: set<Rel>, now: Files, d: Canon)
    requires CanRepair(before) && Interrupted(before, Wanted(RepairRequest(before, b, at)), temps, now)
    requires BodyPath(d) !in temps
    ensures TextOr(now, BodyPath(d)) == TextOr(before, BodyPath(d)) || TextOr(now, BodyPath(d)) == Source(b, d)
  {
    hide RepairRequest, Wanted, Interrupted;
    OldOrWanted(before, b, at, temps, now, BodyPath(d));
    WantedIs(before, b, at);
    if At(now, BodyPath(d)) == At(before, BodyPath(d)) {
      TextFollows(now, before, BodyPath(d));
    }
  }

  lemma GetMeansLine(lines: seq<string>, field: string)
    ensures Get(lines, field).Some? ==> Mentions(lines, field)
  {
    NoLineNoValue(lines, field);
    FirstLineIs(lines, field);
  }

  lemma ConfigThen(before: Files, b: Bundle, at: string, temps: set<Rel>, now: Files, d: Canon)
    requires CanRepair(before) && Interrupted(before, Wanted(RepairRequest(before, b, at)), temps, now)
    requires CONFIG !in temps && ValuesOk(b, at) && Scalar(TextOr(before, CONFIG), FieldOf(d)).Some?
    ensures Scalar(TextOr(now, CONFIG), FieldOf(d)) == Scalar(TextOr(before, CONFIG), FieldOf(d))
         || Scalar(TextOr(now, CONFIG), FieldOf(d)) == Some(VersionOf(b, d))
  {
    hide RepairRequest, Wanted, Get, ConfigLines, Interrupted, Mentions, IsValue, Join;
    OldOrWanted(before, b, at, temps, now, CONFIG);
    WantedIs(before, b, at);
    GetMeansLine(Split(TextOr(before, CONFIG)), FieldOf(d));
    if At(now, CONFIG) == At(before, CONFIG) {
      TextFollows(now, before, CONFIG);
    } else {
      ConfigValues(before[CONFIG].text, b);
    }
  }

  /** One deployment the decision allowed, finished, rolled back or cut off: no document goes back. */
  lemma DeployKeepsUp(before: Files, b: Bundle, s: Setting, at: string, temps: set<Rel>, now: Files, d: Canon)
    requires CanRepair(before) && Parseable(b, s.readers) && ValuesOk(b, at) && !s.force
    requires Decide(before, b, s).Deploy? && temps !! {FRAMEWORK, AAREF, STAMP, CONFIG}
    requires Interrupted(before, Wanted(RepairRequest(before, b, at)), temps, now)
    ensures NoLower(before, now, s.readers, d)
  {
    hide RepairRequest, Wanted, Interrupted, VersionKey, Scalar, ValuesOk, GenerationCurrent, TextOr;
    StampThen(before, b, at, temps, now, d);
    BodyThen(before, b, at, temps, now, d);
    var r := s.readers;
    forall k | States(before, r, d, k) ensures exists k' :: States(now, r, d, k') && AtMost(k, k') {
      var c :| c in Candidates(before, r, d) && VersionKey(c) == Some(k);
      var i: nat :| i < 3 && Candidates(before, r, d)[i] == c;
      if i == 2 {
        NoKeyOfNone(c);
        ConfigThen(before, b, at, temps, now, d);
      }
      NotNewer(before, b, r, d, i);
      TupleOrder(k, k, k);
      assert Candidates(now, r, d)[i] == c || Candidates(now, r, d)[i] == Some(VersionOf(b, d));
      CandidateAt(now, r, d, i);
    }
  }

  lemma NoKeyOfNone(c: Option<string>)
    requires VersionKey(c).Some?
    ensures c.Some?
  {
  }

  // ---- Runs of decisions -------------------------------------------------------------

  datatype Visit = Visit(b: Bundle, at: string, temps: set<Rel>)

  /** A package visits the project, decides, and deploys only when told to and able to read what it rewrites. */
  ghost predicate Obeys(before: Files, v: Visit, s: Setting, now: Files) {
    if Decide(before, v.b, s).Deploy? && CanRepair(before) then
      Interrupted(before, Wanted(RepairRequest(before, v.b, v.at)), v.temps, now)
    else now == before
  }

  ghost predicate WellFormed(v: Visit, s: Setting) {
    Parseable(v.b, s.readers) && ValuesOk(v.b, v.at) && v.temps !! {FRAMEWORK, AAREF, STAMP, CONFIG}
  }

  ghost predicate Visits(states: seq<Files>, visits: seq<Visit>, s: Setting) {
    && |states| == |visits| + 1
    && (forall n :: 0 <= n < |visits| ==>
          WellFormed(visits[n], s) && Obeys(states[n], visits[n], s, states[n + 1]))
  }

  lemma NoLowerTransitive(a: Files, b: Files, c: Files, r: Readers, d: Canon)
    requires NoLower(a, b, r, d) && NoLower(b, c, r, d)
    ensures NoLower(a, c, r, d)
  {
    hide States, AtMost;
    forall k | States(a, r, d, k) ensures exists k' :: States(c, r, d, k') && AtMost(k, k') {
      var k1 :| States(b, r, d, k1) && AtMost(k, k1);
      var k2 :| States(c, r, d, k2) && AtMost(k1, k2);
      AtMostTransitive(k, k1, k2);
    }
  }

  lemma NoLowerSame(fs: Files, r: Readers, d: Canon)
    ensures NoLower(fs, fs, r, d)
  {
    hide States;
    forall k | States(fs, r, d, k) ensures exists k' :: States(fs, r, d, k') && AtMost(k, k') {
      TupleOrder(k, k, k);
    }
  }

  lemma VisitKeepsUp(before: Files, v: Visit, s: Setting, now: Files, d: Canon)
    requires WellFormed(v, s) && Obeys(before, v, s, now) && !s.force
    ensures NoLower(before, now, s.readers, d)
  {
    hide Decide, Parseable, ValuesOk, Interrupted, NoLower, CanRepair;
    if Decide(before, v.b, s).Deploy? && CanRepair(before) {
      DeployKeepsUp(before, v.b, s, v.at, v.temps, now, d);
    } else {
      NoLowerSame(now, s.readers, d);
    }
  }

  /** Across any visits by packages of any versions, interrupted or not, a document's highest stated version
      never decreases. */
  lemma {:induction false} NeverDowngrades(states: seq<Files>, visits: seq<Visit>, s: Setting, m: nat, n: nat, d: Canon)
    requires Visits(states, visits, s) && !s.force && m <= n < |states|
    ensures NoLower(states[m], states[n], s.readers, d)
    decreases n - m
  {
    hide Obeys, WellFormed, NoLower;
    if m == n {
      NoLowerSame(states[m], s.readers, d);
    } else {
      NeverDowngrades(states, visits, s, m, n - 1, d);
      VisitKeepsUp(states[n - 1], visits[n - 1], s, states[n], d);
      NoLowerTransitive(states[m], states[n - 1], states[n], s.readers, d);
    }
  }

  /** Nor does an older package take over the record of which package deployed last. */
  lemma PackageNotReplacedByOlder(before: Files, v: Visit, s: Setting, now: Files)
    requires Obeys(before, v, s, now) && !s.force && RECEIPT !in v.temps
    requires DeployedPackage(before).Some? && DeployedPackage(now).Some?
    ensures DeployedPackage(now) == DeployedPackage(before)
         || !s.packageNewer(DeployedPackage(before).value, DeployedPackage(now).value)
  {
    hide StampLines, ConfigLines, Scalar, Own, Under, GenerationCurrent, DocumentNewer;
    Paths();
    if Decide(before, v.b, s).Deploy? && CanRepair(before) {
      WantedIs(before, v.b, v.at);
      assert At(now, RECEIPT) == At(before, RECEIPT)
          || At(now, RECEIPT) == Some(ReceiptFor(RepairRequest(before, v.b, v.at)));
    }
  }
}
