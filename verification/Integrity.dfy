/** Inspecting the deployed framework files, and the request a repair deploys. */
module Integrity {
  import opened Basics
  import opened TextLines
  import opened ScalarEditor
  import opened DeploymentModel

  const FRAMEWORK: Rel := [".trw", "frameworks", "FRAMEWORK.md"]
  const AAREF: Rel := [".trw", "frameworks", "AARE-F-FRAMEWORK.md"]
  const STAMP: Rel := [".trw", "frameworks", "VERSION.yaml"]
  const CONFIG: Rel := [".trw", "config.yaml"]

  const FRAMEWORK_VERSION := "framework_version"
  const AAREF_VERSION := "aaref_version"
  const REGISTRY_DIGEST := "registry_digest"

  /** What a package brings: the two bodies, the versions it expects, and their digests as text. */
  datatype Bundle = Bundle(framework: string, aaref: string, frameworkVersion: string, aarefVersion: string,
                           registryDigest: Option<string>, package: Option<string>, frameworkDigest: string,
                           aarefDigest: string)

  /** How a body states its version. */
  datatype Readers = Readers(framework: string -> Option<string>, aaref: string -> Option<string>)

  function TextAt(fs: Files, p: Rel): Option<string> {
    if p in fs && fs[p].Text? then Some(fs[p].text) else None
  }

  function Scalar(text: string, field: string): Option<string> { Get(Split(text), field) }

  function Expected(b: Bundle): map<Rel, Content> {
    map[FRAMEWORK := Text(b.framework), AAREF := Text(b.aaref)]
  }

  // ---- What inspection means ---------------------------------------------------------

  /** The bundle's bodies declare the versions it expects. */
  predicate SelfConsistent(b: Bundle, r: Readers) {
    r.framework(b.framework) == Some(b.frameworkVersion) && r.aaref(b.aaref) == Some(b.aarefVersion)
  }

  predicate PinAllows(text: string, field: string, version: string) {
    Scalar(text, field) == None || Scalar(text, field) == Some(version)
  }

  predicate ConfigAgrees(fs: Files, b: Bundle) {
    CONFIG in fs ==>
      && TextAt(fs, CONFIG).Some?
      && PinAllows(TextAt(fs, CONFIG).value, FRAMEWORK_VERSION, b.frameworkVersion)
      && PinAllows(TextAt(fs, CONFIG).value, AAREF_VERSION, b.aarefVersion)
  }

  predicate StampAgrees(fs: Files, b: Bundle) {
    && TextAt(fs, STAMP).Some?
    && Scalar(TextAt(fs, STAMP).value, FRAMEWORK_VERSION) == Some(b.frameworkVersion)
    && Scalar(TextAt(fs, STAMP).value, AAREF_VERSION) == Some(b.aarefVersion)
    && (b.registryDigest.Some? ==> PinAllows(TextAt(fs, STAMP).value, REGISTRY_DIGEST, b.registryDigest.value))
  }

  predicate ListedFileIntact(fs: Files, p: Rel, digest: Digest) {
    !(p != [] && p[0] == "/") && ".." !in p && p in fs && Digest(fs[p]) == digest
  }

  predicate ReceiptAgrees(fs: Files, registryDigest: string) {
    RECEIPT in fs ==>
      && fs[RECEIPT].Json? && fs[RECEIPT].doc.Receipt? && fs[RECEIPT].doc.schema == 1
      && fs[RECEIPT].doc.registryDigest == registryDigest && fs[RECEIPT].doc.digests != map[]
      && (forall p :: p in fs[RECEIPT].doc.digests ==> ListedFileIntact(fs, p, fs[RECEIPT].doc.digests[p]))
  }

  /** The project carries exactly this bundle: what an inspection without errors reports. */
  predicate Intact(fs: Files, b: Bundle, r: Readers) {
    && SelfConsistent(b, r) && ConfigAgrees(fs, b)
    && TextAt(fs, FRAMEWORK) == Some(b.framework) && TextAt(fs, AAREF) == Some(b.aaref)
    && StampAgrees(fs, b)
    && (b.registryDigest.Some? ==> ReceiptAgrees(fs, b.registryDigest.value))
  }

  /** The deployment predates receipts or registry digests. */
  predicate Outdated(fs: Files, b: Bundle) {
    b.registryDigest.Some? &&
    ((TextAt(fs, STAMP).Some? && Scalar(TextAt(fs, STAMP).value, REGISTRY_DIGEST) == None) || RECEIPT !in fs)
  }

  // ---- The inspection ----------------------------------------------------------------

  datatype Finding =
    | BundleDeclares(field: string)
    | ConfigUnreadable | ConfigPin(field: string) | ConfigAbsent
    | BodyUnreadable(path: Rel) | BodyVersion(path: Rel) | BodyDiffers(path: Rel)
    | StampUnreadable | StampField(field: string) | StampNeedsUpgrade
    | ReceiptNeedsUpgrade | ReceiptUnreadable | ReceiptSchema | ReceiptRegistry | ReceiptLists | ReceiptPath(path: Rel)
    | ListedMissing(path: Rel) | ListedDiffers(path: Rel)

  predicate NeedsUpgrade(w: Finding) { w.StampNeedsUpgrade? || w.ReceiptNeedsUpgrade? }

  method InspectConfig(fs: Files, b: Bundle) returns (errors: seq<Finding>, warnings: seq<Finding>)
    ensures errors == [] <==> ConfigAgrees(fs, b)
    ensures forall w :: w in warnings ==> !NeedsUpgrade(w)
  {
    errors, warnings := [], [];
    if CONFIG !in fs {
      warnings := [ConfigAbsent];
      return;
    }
    var text := TextAt(fs, CONFIG);
    if text == None {
      errors := [ConfigUnreadable];
      return;
    }
    var configured := Scalar(text.value, FRAMEWORK_VERSION);
    if configured.Some? && configured.value != b.frameworkVersion {
      errors := errors + [ConfigPin(FRAMEWORK_VERSION)];
    }
    configured := Scalar(text.value, AAREF_VERSION);
    if configured.Some? && configured.value != b.aarefVersion {
      errors := errors + [ConfigPin(AAREF_VERSION)];
    }
  }

  method InspectBody(fs: Files, path: Rel, source: string, reader: string -> Option<string>, version: string)
      returns (errors: seq<Finding>)
    ensures errors == [] <==> TextAt(fs, path) == Some(source) && reader(source) == Some(version)
  {
    errors := [];
    var deployed := TextAt(fs, path);
    if deployed == None {
      return [BodyUnreadable(path)];
    }
    if reader(deployed.value) != Some(version) {
      errors := errors + [BodyVersion(path)];
    }
    if deployed.value != source {
      errors := errors + [BodyDiffers(path)];
    }
  }

  method InspectStamp(fs: Files, b: Bundle) returns (errors: seq<Finding>, warnings: seq<Finding>)
    ensures errors == [] <==> StampAgrees(fs, b)
    ensures (exists w :: w in warnings && NeedsUpgrade(w))
            <==> b.registryDigest.Some? && TextAt(fs, STAMP).Some? && Scalar(TextAt(fs, STAMP).value, REGISTRY_DIGEST) == None
  {
    errors, warnings := [], [];
    var text := TextAt(fs, STAMP);
    if text == None {
      errors := [StampUnreadable];
      return;
    }
    if Scalar(text.value, FRAMEWORK_VERSION) != Some(b.frameworkVersion) {
      errors := errors + [StampField(FRAMEWORK_VERSION)];
    }
    if Scalar(text.value, AAREF_VERSION) != Some(b.aarefVersion) {
      errors := errors + [StampField(AAREF_VERSION)];
    }
    if b.registryDigest.Some? {
      var stamped := Scalar(text.value, REGISTRY_DIGEST);
      if stamped == None {
        warnings := [StampNeedsUpgrade];
        assert NeedsUpgrade(warnings[0]);
      } else if stamped != b.registryDigest {
        errors := errors + [StampField(REGISTRY_DIGEST)];
      }
    }
  }

  method InspectListed(fs: Files, digests: map<Rel, Digest>) returns (errors: seq<Finding>)
    ensures errors == [] <==> forall p :: p in digests ==> ListedFileIntact(fs, p, digests[p])
  {
    errors := [];
    var todo := digests.Keys;
    while todo != {}
      invariant todo <= digests.Keys
      invariant errors == [] <==> forall p :: p in digests && p !in todo ==> ListedFileIntact(fs, p, digests[p])
      decreases |todo|
    {
      var p :| p in todo;
      todo := todo - {p};
      if (p != [] && p[0] == "/") || ".." in p {
        errors := errors + [ReceiptPath(p)];
      } else if p !in fs {
        errors := errors + [ListedMissing(p)];
      } else if Digest(fs[p]) != digests[p] {
        errors := errors + [ListedDiffers(p)];
      }
    }
  }

  method InspectReceipt(fs: Files, registryDigest: string) returns (errors: seq<Finding>, warnings: seq<Finding>)
    ensures errors == [] <==> ReceiptAgrees(fs, registryDigest)
    ensures (exists w :: w in warnings && NeedsUpgrade(w)) <==> RECEIPT !in fs
  {
    errors, warnings := [], [];
    if RECEIPT !in fs {
      warnings := [ReceiptNeedsUpgrade];
      assert NeedsUpgrade(warnings[0]);
    } else if !fs[RECEIPT].Json? {
      errors := [ReceiptUnreadable];
    } else if !fs[RECEIPT].doc.Receipt? || fs[RECEIPT].doc.schema != 1 {
      errors := [ReceiptSchema];
    } else if fs[RECEIPT].doc.registryDigest != registryDigest {
      errors := [ReceiptRegistry];
    } else if fs[RECEIPT].doc.digests == map[] {
      errors := [ReceiptLists];
    } else {
      errors := InspectListed(fs, fs[RECEIPT].doc.digests);
    }
  }

  /** Compares pins, bodies, stamp and receipt with the bundle; it reports nothing exactly when they are this bundle's. */
  method Inspect(fs: Files, b: Bundle, r: Readers) returns (errors: seq<Finding>, warnings: seq<Finding>)
    ensures errors == [] <==> Intact(fs, b, r)
    ensures (exists w :: w in warnings && NeedsUpgrade(w)) <==> Outdated(fs, b)
  {
    errors := [];
    if r.framework(b.framework) != Some(b.frameworkVersion) {
      errors := errors + [BundleDeclares(FRAMEWORK_VERSION)];
    }
    if r.aaref(b.aaref) != Some(b.aarefVersion) {
      errors := errors + [BundleDeclares(AAREF_VERSION)];
    }
    var e1, w1 := InspectConfig(fs, b);
    var e2 := InspectBody(fs, FRAMEWORK, b.framework, r.framework, b.frameworkVersion);
    var e3 := InspectBody(fs, AAREF, b.aaref, r.aaref, b.aarefVersion);
    var e4, w4 := InspectStamp(fs, b);
    errors, warnings := errors + e1 + e2 + e3 + e4, w1 + w4;
    if b.registryDigest.Some? {
      var e5, w5 := InspectReceipt(fs, b.registryDigest.value);
      errors := errors + e5;
      assert forall w :: w in warnings + w5 <==> w in w1 || w in w4 || w in w5;
      warnings := warnings + w5;
    }
  }

  /** A clean inspection against a registry digest is a set of files the receipt check accepts. */
  lemma IntactIsAccepted(fs: Files, b: Bundle, r: Readers)
    requires Intact(fs, b, r) && !Outdated(fs, b) && b.registryDigest.Some?
    ensures Accepted(fs)
  {
  }

  // ---- The repair --------------------------------------------------------------------

  /** The texts a repair rewrites can be read. */
  predicate CanRepair(fs: Files) {
    (CONFIG in fs ==> fs[CONFIG].Text?) && (STAMP in fs ==> fs[STAMP].Text?)
  }

  function PutIfThere(lines: seq<string>, field: string, value: string): (r: seq<string>)
    requires |lines| >= 1
    ensures |r| >= 1
  {
    if Mentions(lines, field) then Put(lines, field, value) else lines
  }

  /** Existing pins follow the bundle; nothing else in the config changes. */
  function ConfigLines(lines: seq<string>, b: Bundle): (r: seq<string>)
    requires |lines| >= 1
    ensures |r| >= 1
  {
    PutIfThere(PutIfThere(lines, FRAMEWORK_VERSION, b.frameworkVersion), AAREF_VERSION, b.aarefVersion)
  }

  /** The stamp's package versions go; versions, digests and time are set. */
  function StampLines(lines: seq<string>, b: Bundle, at: string): (r: seq<string>)
    requires |lines| >= 1
    ensures |r| >= 1
  {
    var l0 := Drop(Drop(lines, "trw_mcp_version"), "trw_memory_version");
    var l1 := Put(Put(l0, FRAMEWORK_VERSION, b.frameworkVersion), AAREF_VERSION, b.aarefVersion);
    var l2 := if b.registryDigest == None then l1
              else Put(Put(Put(l1, REGISTRY_DIGEST, b.registryDigest.value), "framework_digest", b.frameworkDigest),
                       "aaref_digest", b.aarefDigest);
    Put(l2, "deployed_at", "'" + at + "'")
  }

  function RepairRequest(fs: Files, b: Bundle, at: string): Request
    requires CanRepair(fs)
  {
    var stampText := if STAMP in fs then fs[STAMP].text else "";
    var stamp := map[STAMP := Text(Join(StampLines(Split(stampText), b, at)))];
    var loose := if CONFIG in fs then stamp[CONFIG := Text(Join(ConfigLines(Split(fs[CONFIG].text), b)))] else stamp;
    Request(Expected(b), loose, if b.registryDigest.Some? then b.registryDigest.value else "legacy-unbound",
            b.frameworkVersion, b.aarefVersion, b.package, at)
  }
}
