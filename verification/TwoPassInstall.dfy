/** The proprietary phase: fetch every wheel first, then install each whose private requirements are met. */
module TwoPassInstall {
  import opened Basics
  import opened Pep440
  import opened VersionText

  /** One clause of a requirement; `Other` is a wildcard, `~=` or `===` clause, with the versions it accepts. */
  datatype Clause = Ordered(op: Op, bound: string) | Other(accepts: string -> bool) | Unreadable

  /** The version part of a requirement. */
  datatype Spec = AnyVersion | DirectReference | Clauses(clauses: seq<Clause>)

  /** An active requirement of a wheel, by normalised name. */
  datatype Requirement = Requirement(name: string, spec: Spec)

  datatype Wheel = Wheel(requirements: seq<Requirement>)

  /** What asking for a package came to; `Raised` is a `RuntimeError` anywhere in the first pass. */
  datatype Fetch = Raised | Present(version: string) | Fetched(wheel: Wheel, version: string)

  datatype Install = Installed | PipFailed | InstallRaised

  predicate ClauseMet(clause: Clause, version: string) {
    match clause
    case Ordered(op, bound) => !EndsWith(bound, ".*") && Holds(op, bound, version) == Some(true)
    case Other(accepts) => accepts(version)
    case Unreadable => false
  }

  /** A version satisfies a requirement only if every clause can be judged and holds. */
  predicate Satisfied(spec: Spec, version: string) {
    match spec
    case AnyVersion => true
    case DirectReference => false
    case Clauses(clauses) => forall i :: 0 <= i < |clauses| ==> ClauseMet(clauses[i], version)
  }

  predicate Met(r: Requirement, private: seq<string>, available: map<string, string>) {
    r.name in private ==> r.name in available && Satisfied(r.spec, available[r.name])
  }

  /** `_missing_proprietary_requirements` finds nothing. */
  predicate AllMet(wheel: Wheel, private: seq<string>, available: map<string, string>) {
    forall i :: 0 <= i < |wheel.requirements| ==> Met(wheel.requirements[i], private, available)
  }

  /** Names and versions reported as installed, those of them newly installed with their wheels, and failures. */
  datatype Report = Report(installed: seq<(string, string)>, added: seq<(string, Wheel)>, failed: seq<string>)

  function Names(pairs: seq<(string, string)>): seq<string> {
    seq(|pairs|, i requires 0 <= i < |pairs| => pairs[i].0)
  }

  function Versions(pairs: seq<(string, string)>): map<string, string> {
    if pairs == [] then map[]
    else Versions(pairs[..|pairs| - 1])[pairs[|pairs| - 1].0 := pairs[|pairs| - 1].1]
  }

  // ---- The first pass ----------------------------------------------------------------

  datatype Fetches = Fetches(present: seq<(string, string)>, got: seq<(string, Wheel, string)>, failed: seq<string>)

  function FetchAll(packages: seq<string>, fetch: string -> Fetch): Fetches {
    if packages == [] then Fetches([], [], [])
    else
      var k := |packages| - 1;
      var before, p := FetchAll(packages[..k], fetch), packages[k];
      match fetch(p)
      case Raised => before.(failed := before.failed + [p])
      case Present(v) => before.(present := before.present + [(p, v)])
      case Fetched(w, v) => before.(got := before.got + [(p, w, v)])
  }

  // ---- The second pass ---------------------------------------------------------------

  function InstallAll(private: seq<string>, got: seq<(string, Wheel, string)>, install: string -> Install, first: Report): Report
    decreases |got|
  {
    if got == [] then first
    else
      var k := |got| - 1;
      InstallOne(private, got[k], install, InstallAll(private, got[..k], install, first))
  }

  function InstallOne(private: seq<string>, x: (string, Wheel, string), install: string -> Install, before: Report): Report {
    var (p, wheel, version) := x;
    if AllMet(wheel, private, Versions(before.installed)) && install(p) == Installed then
      before.(installed := before.installed + [(p, version)], added := before.added + [(p, wheel)])
    else before.(failed := before.failed + [p])
  }

  function Phase(packages: seq<string>, fetch: string -> Fetch, install: string -> Install): Report {
    var f := FetchAll(packages, fetch);
    InstallAll(packages, f.got, install, Report(f.present, [], f.failed))
  }

  /** Both loops, with what is available kept in a dictionary. */
  method InstallProprietary(packages: seq<string>, fetch: string -> Fetch, install: string -> Install) returns (r: Report)
    ensures r == Phase(packages, fetch, install)
  {
    var present: seq<(string, string)>, got: seq<(string, Wheel, string)>, failed: seq<string> := [], [], [];
    for i := 0 to |packages|
      invariant Fetches(present, got, failed) == FetchAll(packages[..i], fetch)
    {
      assert packages[..i + 1][..i] == packages[..i];
      match fetch(packages[i])
      case Raised => failed := failed + [packages[i]];
      case Present(v) => present := present + [(packages[i], v)];
      case Fetched(w, v) => got := got + [(packages[i], w, v)];
    }
    assert packages[..|packages|] == packages;
    ghost var first := Report(present, [], failed);
    var available := map[];
    for i := 0 to |present|
      invariant available == Versions(present[..i])
    {
      assert present[..i + 1][..i] == present[..i];
      available := available[present[i].0 := present[i].1];
    }
    assert present[..|present|] == present;
    var installed, added := present, [];
    for i := 0 to |got|
      invariant Report(installed, added, failed) == InstallAll(packages, got[..i], install, first)
      invariant available == Versions(installed)
    {
      assert got[..i + 1][..i] == got[..i];
      var (p, wheel, version) := got[i];
      if !AllMet(wheel, packages, available) {
        failed := failed + [p];
      } else {
        var outcome := install(p);
        if outcome == Installed {
          ghost var before := installed;
          available := available[p := version];
          installed := installed + [(p, version)];
          assert installed[..|installed| - 1] == before;
          added := added + [(p, wheel)];
        } else {
          failed := failed + [p];
        }
      }
    }
    assert got[..|got|] == got;
    r := Report(installed, added, failed);
  }

  // ---- Every package ends in one place -----------------------------------------------

  function GotNames(got: seq<(string, Wheel, string)>): seq<string> {
    seq(|got|, i requires 0 <= i < |got| => got[i].0)
  }

  lemma OneMoreName(pairs: seq<(string, string)>, p: string, version: string)
    ensures multiset(Names(pairs + [(p, version)])) == multiset(Names(pairs)) + multiset{p}
  {
    assert Names(pairs + [(p, version)]) == Names(pairs) + [p];
  }

  lemma OneMoreGot(got: seq<(string, Wheel, string)>, x: (string, Wheel, string))
    ensures multiset(GotNames(got + [x])) == multiset(GotNames(got)) + multiset{x.0}
  {
    assert GotNames(got + [x]) == GotNames(got) + [x.0];
  }

  lemma {:induction false} FetchSorts(packages: seq<string>, fetch: string -> Fetch)
    ensures var f := FetchAll(packages, fetch);
            multiset(Names(f.present)) + multiset(GotNames(f.got)) + multiset(f.failed) == multiset(packages)
  {
    if packages != [] {
      var k := |packages| - 1;
      var f, p := FetchAll(packages[..k], fetch), packages[k];
      FetchSorts(packages[..k], fetch);
      assert packages == packages[..k] + [p];
      hide Names, GotNames;
      match fetch(p)
      case Raised =>
      case Present(v) => OneMoreName(f.present, p, v);
      case Fetched(w, v) => OneMoreGot(f.got, (p, w, v));
    }
  }

  /** The packages a report names, with how often. */
  function Reported(r: Report): multiset<string> {
    multiset(Names(r.installed)) + multiset(r.failed)
  }

  lemma OneReports(private: seq<string>, x: (string, Wheel, string), install: string -> Install, before: Report)
    ensures Reported(InstallOne(private, x, install, before)) == Reported(before) + multiset{x.0}
  {
    hide AllMet, Reported, Versions;
    ReportStep(before, x.0, x.1, x.2);
  }

  lemma ReportStep(r: Report, p: string, wheel: Wheel, version: string)
    ensures Reported(r.(installed := r.installed + [(p, version)], added := r.added + [(p, wheel)])) == Reported(r) + multiset{p}
    ensures Reported(r.(failed := r.failed + [p])) == Reported(r) + multiset{p}
  {
    OneMoreName(r.installed, p, version);
  }

  lemma {:induction false} InstallSorts(private: seq<string>, got: seq<(string, Wheel, string)>, install: string -> Install,
                                        first: Report)
    ensures Reported(InstallAll(private, got, install, first)) == Reported(first) + multiset(GotNames(got))
    decreases |got|
  {
    if got != [] {
      var k := |got| - 1;
      var before := InstallAll(private, got[..k], install, first);
      InstallSorts(private, got[..k], install, first);
      assert got == got[..k] + [got[k]];
      assert InstallAll(private, got, install, first) == InstallOne(private, got[k], install, before);
      hide *;
      OneMoreGot(got[..k], got[k]);
      OneReports(private, got[k], install, before);
    } else {
      assert GotNames(got) == [];
    }
  }

  /** Whatever raises or fails, each package is reported once: installed or failed. */
  lemma EveryPackageReportedOnce(packages: seq<string>, fetch: string -> Fetch, install: string -> Install)
    requires NoDuplicates(packages)
    ensures var r := Phase(packages, fetch, install);
            && NoDuplicates(Names(r.installed) + r.failed)
            && forall p :: p in packages <==> p in Names(r.installed) + r.failed
  {
    var f, r := FetchAll(packages, fetch), Phase(packages, fetch, install);
    FetchSorts(packages, fetch);
    InstallSorts(packages, f.got, install, Report(f.present, [], f.failed));
    var all := Names(r.installed) + r.failed;
    assert multiset(all) == multiset(packages);
    DistinctCounts(packages);
    forall i, j | 0 <= i < j < |all| ensures all[i] != all[j] {
      if all[i] == all[j] {
        TwiceCounted(all, i, j);
      }
    }
    forall p ensures p in packages <==> p in all {
      assert p in packages <==> p in multiset(packages);
      assert p in all <==> p in multiset(all);
    }
  }

  lemma {:induction false} DistinctCounts(s: seq<string>)
    requires NoDuplicates(s)
    ensures forall x :: multiset(s)[x] <= 1
  {
    if s != [] {
      DistinctCounts(s[1..]);
      assert s == [s[0]] + s[1..];
      assert s[0] !in s[1..];
    }
  }

  lemma TwiceCounted(s: seq<string>, i: nat, j: nat)
    requires i < j < |s| && s[i] == s[j]
    ensures multiset(s)[s[i]] >= 2
  {
    assert s == s[..j] + ([s[j]] + s[j + 1..]);
    assert s[i] == s[..j][i];
    assert s[i] in multiset(s[..j]);
  }

  // ---- Every new package has what it needs -------------------------------------------

  /** What is installed already stays available at the same version. */
  lemma {:induction false} VersionAt(pairs: seq<(string, string)>, name: string)
    requires NoDuplicates(Names(pairs))
    ensures name in Versions(pairs) <==> exists i :: 0 <= i < |pairs| && pairs[i].0 == name
    ensures forall i :: 0 <= i < |pairs| && pairs[i].0 == name ==> name in Versions(pairs) && Versions(pairs)[name] == pairs[i].1
  {
    if pairs != [] {
      var k := |pairs| - 1;
      var front := pairs[..k];
      PrefixDistinct(front, pairs);
      VersionAt(front, name);
      forall i | 0 <= i < k ensures pairs[i].0 != pairs[k].0 { assert Names(pairs)[i] != Names(pairs)[k]; }
      if exists i :: 0 <= i < |pairs| && pairs[i].0 == name {
        var i :| 0 <= i < |pairs| && pairs[i].0 == name;
        if i < k { assert front[i].0 == name; }
      }
    }
  }

  lemma {:induction false} InstalledGrows(private: seq<string>, got: seq<(string, Wheel, string)>, install: string -> Install,
                                          first: Report, k: nat)
    requires k <= |got|
    ensures InstallAll(private, got[..k], install, first).installed <= InstallAll(private, got, install, first).installed
    decreases |got|
  {
    hide AllMet;
    if k < |got| {
      InstalledGrows(private, got[..|got| - 1], install, first, k);
      assert got[..|got| - 1][..k] == got[..k];
    } else {
      assert got[..k] == got;
    }
  }

  /** Everything a wheel needs among the private packages is in `pairs` at a version it accepts. */
  ghost predicate Supplied(wheel: Wheel, private: seq<string>, pairs: seq<(string, string)>) {
    forall i :: 0 <= i < |wheel.requirements| && wheel.requirements[i].name in private ==>
      exists j :: 0 <= j < |pairs| && pairs[j].0 == wheel.requirements[i].name
                  && Satisfied(wheel.requirements[i].spec, pairs[j].1)
  }

  lemma MetIsSupplied(wheel: Wheel, private: seq<string>, pairs: seq<(string, string)>, all: seq<(string, string)>)
    requires NoDuplicates(Names(pairs)) && pairs <= all && AllMet(wheel, private, Versions(pairs))
    ensures Supplied(wheel, private, all)
  {
    hide Satisfied;
    forall i | 0 <= i < |wheel.requirements| && wheel.requirements[i].name in private
      ensures exists j :: 0 <= j < |all| && all[j].0 == wheel.requirements[i].name && Satisfied(wheel.requirements[i].spec, all[j].1)
    {
      var r := wheel.requirements[i];
      assert Met(r, private, Versions(pairs));
      VersionAt(pairs, r.name);
      var j :| 0 <= j < |pairs| && pairs[j].0 == r.name;
      assert all[j] == pairs[j];
    }
  }

  lemma {:induction false} FreshSupplied(private: seq<string>, got: seq<(string, Wheel, string)>, install: string -> Install,
                                         first: Report, i: nat)
    requires first.added == [] && NoDuplicates(Names(InstallAll(private, got, install, first).installed))
    requires i < |InstallAll(private, got, install, first).added|
    ensures var r := InstallAll(private, got, install, first); Supplied(r.added[i].1, private, r.installed)
    decreases |got|
  {
    hide AllMet, Supplied;
    var k := |got| - 1;
    var before, after := InstallAll(private, got[..k], install, first), InstallAll(private, got, install, first);
    PrefixDistinct(before.installed, after.installed);
    if i < |before.added| {
      FreshSupplied(private, got[..k], install, first, i);
      SuppliedMore(before.added[i].1, private, before.installed, after.installed);
    } else {
      MetIsSupplied(got[k].1, private, before.installed, after.installed);
    }
  }

  lemma PrefixDistinct(a: seq<(string, string)>, b: seq<(string, string)>)
    requires a <= b && NoDuplicates(Names(b))
    ensures NoDuplicates(Names(a))
  {
    assert forall i :: 0 <= i < |a| ==> Names(a)[i] == Names(b)[i];
  }

  lemma SuppliedMore(wheel: Wheel, private: seq<string>, a: seq<(string, string)>, b: seq<(string, string)>)
    requires a <= b && Supplied(wheel, private, a)
    ensures Supplied(wheel, private, b)
  {
    hide Satisfied;
    forall i | 0 <= i < |wheel.requirements| && wheel.requirements[i].name in private
      ensures exists j :: 0 <= j < |b| && b[j].0 == wheel.requirements[i].name && Satisfied(wheel.requirements[i].spec, b[j].1)
    {
      var j :| 0 <= j < |a| && a[j].0 == wheel.requirements[i].name && Satisfied(wheel.requirements[i].spec, a[j].1);
      assert b[j] == a[j];
    }
  }

  /** Every package newly installed has all its private requirements met, at satisfying versions, by what
      is installed in the end. */
  lemma NewPackagesAreSupplied(packages: seq<string>, fetch: string -> Fetch, install: string -> Install, i: nat)
    requires NoDuplicates(packages) && i < |Phase(packages, fetch, install).added|
    ensures var r := Phase(packages, fetch, install); Supplied(r.added[i].1, packages, r.installed)
  {
    hide Supplied, InstallAll, FetchAll;
    EveryPackageReportedOnce(packages, fetch, install);
    var f, r := FetchAll(packages, fetch), Phase(packages, fetch, install);
    assert forall a :: 0 <= a < |r.installed| ==> (Names(r.installed) + r.failed)[a] == Names(r.installed)[a];
    FreshSupplied(packages, f.got, install, Report(f.present, [], f.failed), i);
  }

  // ---- No failure without a reason ---------------------------------------------------

  lemma {:induction false} FetchedAs(packages: seq<string>, fetch: string -> Fetch)
    ensures var f := FetchAll(packages, fetch);
            && (forall p :: p in f.failed ==> fetch(p) == Raised)
            && (forall i :: 0 <= i < |f.got| ==> fetch(f.got[i].0) == Fetched(f.got[i].1, f.got[i].2))
  {
    if packages != [] {
      FetchedAs(packages[..|packages| - 1], fetch);
    }
  }

  /** The install of `p` failed, or it was not tried because `wheel` lacked something among the first `n` installed. */
  predicate NotInstalled(p: string, wheel: Wheel, private: seq<string>, install: string -> Install,
                         installed: seq<(string, string)>, n: nat)
    requires n <= |installed|
  {
    install(p) != Installed || !AllMet(wheel, private, Versions(installed[..n]))
  }

  ghost predicate Refused(p: string, private: seq<string>, got: seq<(string, Wheel, string)>, install: string -> Install,
                          first: nat, installed: seq<(string, string)>) {
    exists k, n :: 0 <= k < |got| && got[k].0 == p && first <= n <= |installed|
                   && NotInstalled(p, got[k].1, private, install, installed, n)
  }

  lemma {:induction false} InstallRefuses(private: seq<string>, got: seq<(string, Wheel, string)>, install: string -> Install,
                                          first: Report, p: string)
    requires p in InstallAll(private, got, install, first).failed && p !in first.failed
    ensures Refused(p, private, got, install, |first.installed|, InstallAll(private, got, install, first).installed)
    decreases |got|
  {
    hide AllMet;
    var k := |got| - 1;
    var before, after := InstallAll(private, got[..k], install, first), InstallAll(private, got, install, first);
    InstalledGrows(private, got, install, first, k);
    if p in before.failed {
      InstallRefuses(private, got[..k], install, first, p);
      var j, n :| 0 <= j < |got[..k]| && got[..k][j].0 == p && |first.installed| <= n <= |before.installed|
                  && NotInstalled(p, got[..k][j].1, private, install, before.installed, n);
      assert after.installed[..n] == before.installed[..n];
      assert got[j].0 == p && NotInstalled(p, got[j].1, private, install, after.installed, n);
    } else {
      InstalledGrows(private, got[..k], install, first, 0);
      assert got[..k][..0] == [];
      assert after.installed[..|before.installed|] == before.installed;
      assert got[k].0 == p && NotInstalled(p, got[k].1, private, install, after.installed, |before.installed|);
    }
  }

  /** A package fails only if asking for it raised, its install failed, or when its turn came, after all packages
      already present, what was installed did not meet its requirements. */
  lemma FailuresHaveReasons(packages: seq<string>, fetch: string -> Fetch, install: string -> Install, p: string)
    requires p in Phase(packages, fetch, install).failed && fetch(p) != Raised
    ensures var f, r := FetchAll(packages, fetch), Phase(packages, fetch, install);
            && fetch(p).Fetched?
            && exists n :: |f.present| <= n <= |r.installed|
                           && NotInstalled(p, fetch(p).wheel, packages, install, r.installed, n)
  {
    hide FetchAll, InstallAll, NotInstalled;
    var f, r := FetchAll(packages, fetch), Phase(packages, fetch, install);
    FetchedAs(packages, fetch);
    InstallRefuses(packages, f.got, install, Report(f.present, [], f.failed), p);
    var k, n :| 0 <= k < |f.got| && f.got[k].0 == p && |f.present| <= n <= |r.installed|
                && NotInstalled(p, f.got[k].1, packages, install, r.installed, n);
  }
}
