/** The files a deployment manages, the generation it writes, and what makes a set of files acceptable. */
module DeploymentModel {
  import opened Basics

  /** A path relative to the target directory, as its components; an absolute path starts with "/". */
  type Rel = seq<string>

  const RECEIPT: Rel := [".trw", "frameworks", "DEPLOYMENT.json"]
  const LOCK: Rel := [".trw", "frameworks", ".deployment.lock"]
  const BACKUPS: Rel := [".trw", "frameworks", ".rollback"]
  const STAGING: Rel := [".trw", "frameworks", ".staging"]

  /** The description a snapshot keeps of itself, inside its own directory. */
  const META: Rel := ["BACKUP.json"]

  /** SHA-256 taken as injective: equal digests mean equal contents. */
  datatype Digest = Digest(of: Content)

  /** JSON documents, taken as the values they encode. */
  datatype Document =
    | Generation(registryDigest: string, frameworkVersion: string, aarefVersion: string, digests: map<Rel, Digest>)
    | Receipt(schema: nat, generation: Digest, registryDigest: string, frameworkVersion: string, aarefVersion: string,
              digests: map<Rel, Digest>, deployedAt: string, package: Option<string>)
    | Backup(present: map<Rel, bool>)

  datatype Content = Text(text: string) | Json(doc: Document)

  /** The regular files under the target; directories are implied by the paths. */
  type Files = map<Rel, Content>

  function At(fs: Files, p: Rel): Option<Content> {
    if p in fs then Some(fs[p]) else None
  }

  predicate Under(p: Rel, dir: Rel) {
    |dir| <= |p| && p[..|dir|] == dir
  }

  /** The deployer's own files: its lock, its snapshots, its staging area. */
  predicate Own(p: Rel) {
    Under(p, LOCK) || Under(p, BACKUPS) || Under(p, STAGING)
  }

  predicate Reserved(p: Rel) {
    Under(p, RECEIPT) || Own(p)
  }

  datatype Request = Request(
    bound: map<Rel, Content>,
    loose: map<Rel, Content>,        // the mutable artifacts
    registryDigest: string,
    frameworkVersion: string,
    aarefVersion: string,
    package: Option<string>,
    deployedAt: string)

  predicate PathAllowed(p: Rel) {
    !(p != [] && p[0] == "/") && ".." !in p && !Reserved(p)
  }

  /** The checks made before anything is written. */
  predicate Admissible(req: Request) {
    && req.bound.Keys !! req.loose.Keys
    && (forall p :: p in req.bound.Keys + req.loose.Keys ==> PathAllowed(p))
  }

  function DigestsOf(bound: map<Rel, Content>): map<Rel, Digest> {
    map p | p in bound :: Digest(bound[p])
  }

  function ReceiptFor(req: Request): Content {
    var digests := DigestsOf(req.bound);
    Json(Receipt(1, Digest(Json(Generation(req.registryDigest, req.frameworkVersion, req.aarefVersion, digests))),
                 req.registryDigest, req.frameworkVersion, req.aarefVersion, digests, req.deployedAt, req.package))
  }

  /** Every managed path with the bytes the deployment is to leave there. */
  function Wanted(req: Request): Files {
    req.bound + req.loose + map[RECEIPT := ReceiptFor(req)]
  }

  function Presence(fs: Files, paths: set<Rel>): map<Rel, bool> {
    map p | p in paths :: p in fs
  }

  /** What a restore puts back at `p`: the earlier bytes or absence, except that the snapshot's own
      description has taken the place of a managed file of the same name. */
  function PutBack(fs: Files, paths: set<Rel>, p: Rel): Option<Content> {
    if p == META && p in fs then Some(Json(Backup(Presence(fs, paths)))) else At(fs, p)
  }

  // ---- What readers accept -----------------------------------------------------------

  /** The receipt check: a receipt of schema 1 that lists at least one file, each with the digest it lists. */
  predicate Accepted(fs: Files) {
    && RECEIPT in fs && fs[RECEIPT].Json? && fs[RECEIPT].doc.Receipt? && fs[RECEIPT].doc.schema == 1
    && fs[RECEIPT].doc.digests != map[]
    && (forall p :: p in fs[RECEIPT].doc.digests ==> p in fs && Digest(fs[p]) == fs[RECEIPT].doc.digests[p])
  }

  /** Every bound file of the request is there with its bytes, under the request's receipt. */
  predicate WholeGeneration(req: Request, fs: Files) {
    && At(fs, RECEIPT) == Some(ReceiptFor(req))
    && (forall p :: p in req.bound ==> At(fs, p) == Some(req.bound[p]))
  }

  /** An accepted set under a request's receipt is that request's generation, whole, and conversely. */
  lemma AcceptedIsWhole(req: Request, fs: Files)
    requires At(fs, RECEIPT) == Some(ReceiptFor(req))
    ensures Accepted(fs) <==> req.bound != map[] && WholeGeneration(req, fs)
  {
    var digests := fs[RECEIPT].doc.digests;
    assert digests == DigestsOf(req.bound);
    assert digests == map[] <==> req.bound == map[] by {
      if req.bound != map[] {
        var some :| some in req.bound;
        assert some in digests;
      }
    }
    forall p | p in req.bound ensures p in digests && digests[p] == Digest(req.bound[p]) { }
  }

  // ---- Paths -------------------------------------------------------------------------

  lemma Deeper(p: Rel, dir: Rel, outer: Rel)
    requires Under(p, dir) && Under(dir, outer)
    ensures Under(p, outer)
  {
    assert p[..|outer|] == p[..|dir|][..|outer|];
  }

  lemma Inside(dir: Rel, p: Rel)
    ensures Under(dir + p, dir)
  {
    assert (dir + p)[..|dir|] == dir;
  }

  lemma SameTail(dir: Rel, p: Rel, q: Rel)
    ensures dir + p == dir + q <==> p == q
  {
    assert (dir + p)[|dir|..] == p && (dir + q)[|dir|..] == q;
  }

  lemma Apart(p: Rel)
    ensures Under(p, BACKUPS) ==> !Under(p, STAGING) && !Under(p, RECEIPT) && !Under(p, LOCK)
    ensures Under(p, STAGING) ==> !Under(p, BACKUPS) && !Under(p, RECEIPT) && !Under(p, LOCK)
    ensures Under(p, LOCK) ==> !Under(p, BACKUPS) && !Under(p, STAGING)
  {
    if Under(p, BACKUPS) {
      assert p[..3][2] == ".rollback";
    }
    if Under(p, STAGING) {
      assert p[..3][2] == ".staging";
    }
  }

  lemma ReceiptNotOwn()
    ensures !Own(RECEIPT)
  {
    Apart(RECEIPT);
  }

  // ---- What a step may change --------------------------------------------------------

  ghost predicate SameOutside(a: Files, b: Files, dir: Rel) {
    forall p :: !Under(p, dir) ==> At(b, p) == At(a, p)
  }

  ghost predicate SameExcept(a: Files, b: Files, spot: Rel) {
    forall p :: p != spot ==> At(b, p) == At(a, p)
  }

  /** Only the deployer's own files differ. */
  ghost predicate Untouched(before: Files, now: Files) {
    forall p :: !Own(p) ==> At(now, p) == At(before, p)
  }

  /** A state a deployment of the `wanted` files over `before` may be interrupted in: each managed path has
      its earlier content, the wanted one, or what a restore put back; nothing else has changed but the
      deployer's own directories and the restore's temporary files. */
  ghost predicate Interrupted(before: Files, wanted: Files, temps: set<Rel>, now: Files) {
    && (forall p :: p in wanted ==>
          At(now, p) == At(before, p) || At(now, p) == Some(wanted[p]) || At(now, p) == PutBack(before, wanted.Keys, p))
    && (forall p :: p !in wanted && p !in temps && !Own(p) ==> At(now, p) == At(before, p))
  }

  ghost predicate AllThere(wanted: Files, now: Files) {
    forall p :: p in wanted ==> At(now, p) == Some(wanted[p])
  }

  /** The receipt is the earlier one until every managed path has its wanted bytes. */
  ghost predicate ReceiptLast(before: Files, wanted: Files, now: Files) {
    At(now, RECEIPT) == At(before, RECEIPT) || AllThere(wanted, now)
  }

  /** The files of an acceptable interrupted state are one whole generation: the new one, or the one
      the earlier receipt lists, file by file. */
  ghost predicate OneGeneration(before: Files, req: Request, now: Files) {
    || WholeGeneration(req, now)
    || (At(now, RECEIPT) == At(before, RECEIPT)
        && (Accepted(before) ==> forall p :: p in before[RECEIPT].doc.digests ==> At(now, p) == At(before, p)))
  }

  lemma InterruptedIsWhole(before: Files, req: Request, temps: set<Rel>, now: Files)
    requires Interrupted(before, Wanted(req), temps, now) && Accepted(now)
    ensures OneGeneration(before, req, now)
  {
    assert RECEIPT in Wanted(req) && Wanted(req)[RECEIPT] == ReceiptFor(req);
    if At(now, RECEIPT) == Some(ReceiptFor(req)) {
      AcceptedIsWhole(req, now);
    }
  }
}
