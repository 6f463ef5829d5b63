/** Expected artifacts, and what an execution result says of them (src/voxera/core/queue_contracts.py). */
module ExecutionResult {
  import opened Sorting
  import opened Text
  import opened Wrappers

  // ----- sorted sets of strings

  /** Strictly ascending in code point order. */
  predicate Ascending(xs: seq<string>)
  {
    xs == [] || ((forall y :: y in xs[1..] ==> LexLeq(xs[0], y) && xs[0] != y) && Ascending(xs[1..]))
  }

  function InsertOnce(x: string, ys: seq<string>): seq<string>
  {
    if ys == [] then [x]
    else if x == ys[0] then ys
    else if LexLeq(x, ys[0]) then [x] + ys
    else [ys[0]] + InsertOnce(x, ys[1..])
  }

  lemma {:induction false} InsertOnceLaws(x: string, ys: seq<string>)
    requires Ascending(ys)
    ensures Ascending(InsertOnce(x, ys))
    ensures forall y :: y in InsertOnce(x, ys) <==> y == x || y in ys
  {
    if ys == [] {
    } else if x == ys[0] {
    } else if LexLeq(x, ys[0]) {
      assert ([x] + ys)[1..] == ys;
      forall y | y in ys ensures LexLeq(x, y) && x != y {
        if y != ys[0] {
          assert y in ys[1..];
          LexTransitive(x, ys[0], y);
          if x == y { LexAntisymmetric(x, ys[0]); }
        }
      }
    } else {
      var rest := InsertOnce(x, ys[1..]);
      InsertOnceLaws(x, ys[1..]);
      LexTotal(x, ys[0]);
      assert ([ys[0]] + rest)[1..] == rest;
    }
  }

  /** A strictly ascending list is determined by its members. */
  lemma {:induction false} AscendingIsUnique(xs: seq<string>, ys: seq<string>)
    requires Ascending(xs) && Ascending(ys)
    requires forall z :: z in xs <==> z in ys
    ensures xs == ys
  {
    assert |ys| == 0 || ys[0] in ys;
    if xs != [] {
      assert xs[0] in ys;
      var a, b := xs[0], ys[0];
      assert b in xs;
      if a != b {
        assert b in xs[1..] && a in ys[1..];
        LexAntisymmetric(a, b);
      }
      forall z ensures z in xs[1..] <==> z in ys[1..] {
        if z in xs[1..] { assert z in xs; }
        if z in ys[1..] { assert z in ys; }
      }
      AscendingIsUnique(xs[1..], ys[1..]);
      assert xs == [a] + xs[1..] && ys == [b] + ys[1..];
    }
  }

  // ----- expected artifacts

  function NormalizeItems(items: seq<string>): seq<string>
  {
    if items == [] then []
    else if Strip(items[0]) == [] then NormalizeItems(items[1..])
    else InsertOnce(Strip(items[0]), NormalizeItems(items[1..]))
  }

  /** None stands for a value that is not a list. */
  function NormalizeExpectedArtifacts(value: Option<seq<string>>): seq<string>
  {
    if value.None? then [] else NormalizeItems(value.value)
  }

  ghost predicate Names(items: seq<string>, e: string)
  {
    e != [] && exists k :: 0 <= k < |items| && Strip(items[k]) == e
  }

  /** Exactly the stripped, non-empty items, each once, in order. */
  lemma {:induction false} NormalizeLaws(items: seq<string>)
    ensures Ascending(NormalizeItems(items))
    ensures forall e :: e in NormalizeItems(items) <==> Names(items, e)
  {
    hide Strip;
    if items != [] {
      var rest := NormalizeItems(items[1..]);
      NormalizeLaws(items[1..]);
      InsertOnceLaws(Strip(items[0]), rest);
      forall e ensures e in NormalizeItems(items) <==> Names(items, e) {
        if Names(items[1..], e) {
          var k :| 0 <= k < |items[1..]| && Strip(items[1..][k]) == e;
          assert Strip(items[k + 1]) == e;
        }
        if Names(items, e) {
          var k :| 0 <= k < |items| && Strip(items[k]) == e;
          if k > 0 { assert Strip(items[1..][k - 1]) == e; }
        }
      }
    }
  }

  lemma NormalizedIsStripped(items: seq<string>, e: string)
    requires e in NormalizeItems(items)
    ensures Strip(e) == e && e != []
  {
    NormalizeLaws(items);
    var k :| 0 <= k < |items| && Strip(items[k]) == e;
    StripTrims(items[k]);
  }

  lemma NormalizeIsIdempotent(items: seq<string>)
    ensures NormalizeItems(NormalizeItems(items)) == NormalizeItems(items)
  {
    var once := NormalizeItems(items);
    NormalizeLaws(items);
    NormalizeLaws(once);
    forall e ensures e in NormalizeItems(once) <==> e in once {
      if e in once {
        NormalizedIsStripped(items, e);
        var k :| 0 <= k < |once| && once[k] == e;
        assert Strip(once[k]) == e;
      }
      if e in NormalizeItems(once) {
        var k :| 0 <= k < |once| && Strip(once[k]) == e;
        NormalizedIsStripped(items, once[k]);
      }
    }
    AscendingIsUnique(NormalizeItems(once), once);
  }

  // ----- comparison with what is there

  datatype ArtifactRef = ArtifactRef(family: string, path: string)

  datatype Status = NoneDeclared | Absent | Partial | Observed

  datatype Observation = Observation(status: Status, expected: seq<string>, observed: seq<string>, missing: seq<string>)

  function Families(families: seq<string>): set<string>
  {
    set f | f in families && Strip(f) != [] :: Strip(f)
  }

  function Paths(refs: seq<ArtifactRef>): set<string>
  {
    set r | r in refs && Strip(r.path) != [] :: Strip(r.path)
  }

  function Stems(paths: set<string>, stem: string -> string): set<string>
  {
    set p | p in paths :: stem(p)
  }

  /** `stem` is the name of the last path component without its last suffix. */
  predicate Seen(e: string, families: set<string>, paths: set<string>, stem: string -> string)
  {
    e in families || e in paths || stem(e) in families || stem(e) in Stems(paths, stem)
  }

  function Filter(expected: seq<string>, families: set<string>, paths: set<string>, stem: string -> string,
                  seen: bool): seq<string>
  {
    if expected == [] then []
    else
      var n := |expected| - 1;
      var front := Filter(expected[..n], families, paths, stem, seen);
      if Seen(Strip(expected[n]), families, paths, stem) == seen then front + [Strip(expected[n])] else front
  }

  function Compare(expected: seq<string>, families: seq<string>, refs: seq<ArtifactRef>, stem: string -> string): Observation
  {
    if expected == [] then Observation(NoneDeclared, [], [], [])
    else
      var observed := Filter(expected, Families(families), Paths(refs), stem, true);
      var missing := Filter(expected, Families(families), Paths(refs), stem, false);
      Observation(if missing == [] then Observed else if observed != [] then Partial else Absent, expected, observed, missing)
  }

  method CompareExpectedArtifacts(expected: seq<string>, families: seq<string>, refs: seq<ArtifactRef>,
                                  stem: string -> string)
    returns (r: Observation)
    ensures r == Compare(expected, families, refs, stem)
  {
    if expected == [] {
      return Observation(NoneDeclared, [], [], []);
    }
    var observedFamilies, observedPaths := Families(families), Paths(refs);
    var observedStems := Stems(observedPaths, stem);
    var observed: seq<string>, missing: seq<string> := [], [];
    for i := 0 to |expected|
      invariant observed == Filter(expected[..i], observedFamilies, observedPaths, stem, true)
      invariant missing == Filter(expected[..i], observedFamilies, observedPaths, stem, false)
    {
      assert expected[..i + 1][..i] == expected[..i];
      var token := Strip(expected[i]);
      if token in observedFamilies || token in observedPaths || stem(token) in observedFamilies || stem(token) in observedStems {
        observed := observed + [token];
      } else {
        missing := missing + [token];
      }
    }
    assert expected[..|expected|] == expected;
    var status := if missing == [] then Observed else if observed != [] then Partial else Absent;
    r := Observation(status, expected, observed, missing);
  }

  lemma {:induction false} FilterSplits(expected: seq<string>, families: set<string>, paths: set<string>, stem: string -> string)
    requires forall e :: e in expected ==> Strip(e) == e
    ensures multiset(Filter(expected, families, paths, stem, true)) + multiset(Filter(expected, families, paths, stem, false))
         == multiset(expected)
  {
    hide Strip, Seen;
    if expected != [] {
      var n := |expected| - 1;
      FilterSplits(expected[..n], families, paths, stem);
      assert expected == expected[..n] + [expected[n]];
    }
  }

  lemma {:induction false} FilterMembers(expected: seq<string>, families: set<string>, paths: set<string>,
                                         stem: string -> string, seen: bool, e: string)
    requires forall x :: x in expected ==> Strip(x) == x
    ensures e in Filter(expected, families, paths, stem, seen) <==> e in expected && Seen(e, families, paths, stem) == seen
  {
    hide Strip, Seen;
    if expected != [] {
      var n := |expected| - 1;
      FilterMembers(expected[..n], families, paths, stem, seen, e);
      assert expected == expected[..n] + [expected[n]];
    }
  }

  /** What is there, as the comparison sees it. */
  predicate SeenIn(e: string, families: seq<string>, refs: seq<ArtifactRef>, stem: string -> string)
  {
    Seen(e, Families(families), Paths(refs), stem)
  }

  lemma NormalizedAreStripped(items: seq<string>)
    ensures forall e :: e in NormalizeItems(items) ==> Strip(e) == e
  {
    forall e | e in NormalizeItems(items) ensures Strip(e) == e {
      NormalizedIsStripped(items, e);
    }
  }

  /** Observed and missing artifacts partition the expected list, and the status says which part is empty. */
  lemma ObservationPartitions(items: seq<string>, families: seq<string>, refs: seq<ArtifactRef>, stem: string -> string)
    ensures var expected := NormalizeItems(items);
            var o := Compare(expected, families, refs, stem);
            && o.expected == expected && multiset(o.observed) + multiset(o.missing) == multiset(expected)
            && (forall e :: e in o.observed <==> e in expected && SeenIn(e, families, refs, stem))
            && (forall e :: e in o.missing <==> e in expected && !SeenIn(e, families, refs, stem))
            && (o.status == NoneDeclared <==> expected == [])
            && (o.status == Observed <==> expected != [] && o.missing == [])
            && (o.status == Absent <==> expected != [] && o.observed == [])
  {
    hide Strip, Seen, Families, Paths, Filter, NormalizeItems;
    var expected := NormalizeItems(items);
    NormalizedAreStripped(items);
    var o := Compare(expected, families, refs, stem);
    FilterSplits(expected, Families(families), Paths(refs), stem);
    forall e
      ensures e in o.observed <==> e in expected && SeenIn(e, families, refs, stem)
      ensures e in o.missing <==> e in expected && !SeenIn(e, families, refs, stem)
    {
      FilterMembers(expected, Families(families), Paths(refs), stem, true, e);
      FilterMembers(expected, Families(families), Paths(refs), stem, false, e);
    }
    hide SeenIn;
    if expected != [] {
      assert expected[0] in o.observed || expected[0] in o.missing;
    }
  }

  // ----- the artifacts of a directory

  /** File name and family, in the order they are looked for. */
  const FILE_FAMILIES: seq<(string, string)> := [
    ("plan.json", "plan"), ("actions.jsonl", "actions"), ("stdout.txt", "stdout"), ("stderr.txt", "stderr"),
    ("execution_envelope.json", "execution_envelope"), ("execution_result.json", "execution_result"),
    ("step_results.json", "step_results"), ("job_intent.json", "job_intent"),
    ("assistant_response.json", "assistant_advisory"), ("review_summary.json", "review_summary"),
    ("evidence_bundle.json", "evidence_bundle")]

  const BASE_FAMILIES: seq<string> := ["execution_result", "step_results"]

  /** A family is named after its file, but for the assistant's answer; two are shown without one. */
  lemma FamiliesAreNamedAfterFiles(k: nat)
    requires k < |FILE_FAMILIES|
    ensures var (path, family) := FILE_FAMILIES[k];
            family <= path || (path == "assistant_response.json" && family == "assistant_advisory")
    ensures BASE_FAMILIES == [FILE_FAMILIES[5].1, FILE_FAMILIES[6].1]
    ensures FILE_FAMILIES[5].0 == "execution_result.json" && FILE_FAMILIES[6].0 == "step_results.json"
  {
  }

  datatype Contract = Contract(families: seq<string>, refs: seq<ArtifactRef>)

  function PresentFamilies(dir: set<string>, table: seq<(string, string)>): seq<string>
  {
    if table == [] then BASE_FAMILIES
    else
      var n := |table| - 1;
      var front := PresentFamilies(dir, table[..n]);
      if table[n].0 in dir then InsertOnce(table[n].1, front) else front
  }

  function PresentRefs(dir: set<string>, table: seq<(string, string)>): seq<ArtifactRef>
  {
    if table == [] then []
    else
      var n := |table| - 1;
      var front := PresentRefs(dir, table[..n]);
      if table[n].0 in dir then front + [ArtifactRef(table[n].1, table[n].0)] else front
  }

  predicate ByPath(a: ArtifactRef, b: ArtifactRef)
  {
    LexLeq(a.path, b.path)
  }

  /** None stands for a job without an artifact directory. */
  function ArtifactContract(dir: Option<set<string>>): Contract
  {
    if dir.None? then Contract(BASE_FAMILIES, [])
    else
      Contract(PresentFamilies(dir.value, FILE_FAMILIES), SortBy(PresentRefs(dir.value, FILE_FAMILIES), ByPath))
  }

  /** The set of families is kept as its sorted list. */
  method BuildArtifactContract(dir: Option<set<string>>) returns (contract: Contract)
    ensures contract == ArtifactContract(dir)
  {
    hide InsertOnce, SortBy;
    if dir.None? {
      return Contract(BASE_FAMILIES, []);
    }
    var families, refs := BASE_FAMILIES, [];
    for i := 0 to |FILE_FAMILIES|
      invariant families == PresentFamilies(dir.value, FILE_FAMILIES[..i])
      invariant refs == PresentRefs(dir.value, FILE_FAMILIES[..i])
    {
      assert FILE_FAMILIES[..i + 1][..i] == FILE_FAMILIES[..i];
      var (filename, family) := FILE_FAMILIES[i];
      if filename in dir.value {
        families := InsertOnce(family, families);
        refs := refs + [ArtifactRef(family, filename)];
      }
    }
    assert FILE_FAMILIES[..|FILE_FAMILIES|] == FILE_FAMILIES;
    contract := Contract(families, SortBy(refs, ByPath));
  }

  ghost predicate Present(dir: set<string>, table: seq<(string, string)>, path: string, family: string)
  {
    path in dir && (path, family) in table
  }

  lemma {:induction false} PresentLaws(dir: set<string>, table: seq<(string, string)>)
    ensures Ascending(PresentFamilies(dir, table))
    ensures forall f :: f in PresentFamilies(dir, table) <==> f in BASE_FAMILIES || exists p :: Present(dir, table, p, f)
    ensures forall r :: r in PresentRefs(dir, table) <==> Present(dir, table, r.path, r.family)
  {
    hide InsertOnce, LexLeq;
    if table == [] {
      BaseFamiliesAscend();
    } else {
      var n := |table| - 1;
      PresentLaws(dir, table[..n]);
      InsertOnceLaws(table[n].1, PresentFamilies(dir, table[..n]));
      assert table == table[..n] + [table[n]];
      forall p, f ensures Present(dir, table, p, f) <==> Present(dir, table[..n], p, f) || (p in dir && (p, f) == table[n]) {
      }
    }
  }

  lemma BaseFamiliesAscend()
    ensures Ascending(BASE_FAMILIES)
  {
  }

  /** Families: the two base ones and those of the files there, in order. References: the files there, by path. */
  lemma ContractLaws(dir: set<string>)
    ensures var c := ArtifactContract(Some(dir));
            && Ascending(c.families) && SortedBy(c.refs, ByPath)
            && (forall f :: f in c.families <==> f in BASE_FAMILIES || exists p :: Present(dir, FILE_FAMILIES, p, f))
            && (forall r :: r in c.refs <==> Present(dir, FILE_FAMILIES, r.path, r.family))
  {
    hide Present, LexLeq;
    var refs := PresentRefs(dir, FILE_FAMILIES);
    PresentLaws(dir, FILE_FAMILIES);
    KeysOrder((r: ArtifactRef) => r.path, ByPath);
    SortIsOrderedPermutation(refs, ByPath);
    forall r ensures r in SortBy(refs, ByPath) <==> r in refs {
      assert r in SortBy(refs, ByPath) <==> r in multiset(SortBy(refs, ByPath));
      assert r in refs <==> r in multiset(refs);
    }
  }

  lemma SeenGrows(e: string, c: Contract, d: Contract, stem: string -> string)
    requires forall f :: f in c.families ==> f in d.families
    requires forall r :: r in c.refs ==> r in d.refs
    ensures SeenIn(e, c.families, c.refs, stem) ==> SeenIn(e, d.families, d.refs, stem)
  {
  }

  function Observe(items: seq<string>, dir: Option<set<string>>, stem: string -> string): Observation
  {
    var c := ArtifactContract(dir);
    Compare(NormalizeItems(items), c.families, c.refs, stem)
  }

  function Rank(s: Status): nat
  {
    match s
    case NoneDeclared => 0
    case Absent => 1
    case Partial => 2
    case Observed => 3
  }

  /** Adding files never takes away an observed artifact, adds a missing one, or worsens the status. */
  lemma AddingFilesNeverShrinksObserved(items: seq<string>, dir: set<string>, more: set<string>, stem: string -> string)
    requires dir <= more
    ensures var o, p := Observe(items, Some(dir), stem), Observe(items, Some(more), stem);
            && (forall e :: e in o.observed ==> e in p.observed)
            && (forall e :: e in p.missing ==> e in o.missing)
            && Rank(o.status) <= Rank(p.status)
  {
    hide ArtifactContract, Compare, SeenIn, Strip, NormalizeItems, BASE_FAMILIES, FILE_FAMILIES;
    ContractLaws(dir);
    ContractLaws(more);
    var c, d := ArtifactContract(Some(dir)), ArtifactContract(Some(more));
    ObservationPartitions(items, c.families, c.refs, stem);
    ObservationPartitions(items, d.families, d.refs, stem);
    forall f | f in c.families ensures f in d.families {
      if p :| Present(dir, FILE_FAMILIES, p, f) {
        assert Present(more, FILE_FAMILIES, p, f);
      }
    }
    forall e {
      SeenGrows(e, c, d, stem);
    }
    var o, p := Observe(items, Some(dir), stem), Observe(items, Some(more), stem);
    if p.missing != [] { assert p.missing[0] in o.missing; }
    if o.observed != [] { assert o.observed[0] in p.observed; }
  }

  // ----- the minimum artifacts

  const QUEUE_MINIMUM_ARTIFACTS: seq<string> := [
    "execution_envelope.json", "execution_result.json", "step_results.json", "job_intent.json", "plan.json", "actions.jsonl"]

  datatype Minimum = Minimum(complete: bool, required: seq<string>, observed: seq<string>, missing: seq<string>)

  function Those(names: seq<string>, paths: set<string>, there: bool): seq<string>
  {
    if names == [] then []
    else if (names[0] in paths) == there then [names[0]] + Those(names[1..], paths, there)
    else Those(names[1..], paths, there)
  }

  function MinimumArtifactPresence(refs: seq<ArtifactRef>): Minimum
  {
    var missing := Those(QUEUE_MINIMUM_ARTIFACTS, Paths(refs), false);
    Minimum(missing == [], QUEUE_MINIMUM_ARTIFACTS, Those(QUEUE_MINIMUM_ARTIFACTS, Paths(refs), true), missing)
  }

  lemma {:induction false} ThoseDependOnMembers(names: seq<string>, a: set<string>, b: set<string>, there: bool)
    requires forall x :: x in names ==> (x in a <==> x in b)
    ensures Those(names, a, there) == Those(names, b, there)
    ensures forall x :: x in Those(names, a, there) <==> x in names && (x in a) == there
  {
    if names != [] {
      ThoseDependOnMembers(names[1..], a, b, there);
    }
  }

  /** A name without white space, as all names in the tables are. */
  predicate Tabled(name: string)
  {
    exists k :: 0 <= k < |FILE_FAMILIES| && FILE_FAMILIES[k].0 == name
  }

  lemma TableNamesAreTrimmed(k: nat)
    requires k < |FILE_FAMILIES|
    ensures Strip(FILE_FAMILIES[k].0) == FILE_FAMILIES[k].0 != []
  {
  }

  lemma RequiredAreTabled(name: string)
    requires name in QUEUE_MINIMUM_ARTIFACTS
    ensures Tabled(name)
  {
    var order := [4, 5, 6, 7, 0, 1];
    var i :| 0 <= i < |QUEUE_MINIMUM_ARTIFACTS| && QUEUE_MINIMUM_ARTIFACTS[i] == name;
    assert FILE_FAMILIES[order[i]].0 == name;
  }

  lemma PathsOfContract(dir: set<string>, name: string)
    requires Tabled(name)
    ensures name in Paths(ArtifactContract(Some(dir)).refs) <==> name in dir
  {
    hide ArtifactContract, Strip, FILE_FAMILIES, BASE_FAMILIES;
    var refs := ArtifactContract(Some(dir)).refs;
    ContractLaws(dir);
    var k: nat :| k < |FILE_FAMILIES| && FILE_FAMILIES[k].0 == name;
    TableNamesAreTrimmed(k);
    if name in dir {
      var r := ArtifactRef(FILE_FAMILIES[k].1, name);
      assert Present(dir, FILE_FAMILIES, r.path, r.family) && r in refs;
    }
    if name in Paths(refs) {
      var r :| r in refs && Strip(r.path) == name;
      assert Present(dir, FILE_FAMILIES, r.path, r.family);
      var j: nat :| j < |FILE_FAMILIES| && FILE_FAMILIES[j] == (r.path, r.family);
      TableNamesAreTrimmed(j);
    }
  }

  /** The minimum is complete exactly when all required files are in the directory; each is listed once, on its side. */
  lemma MinimumMatchesDirectory(dir: set<string>)
    ensures var m := MinimumArtifactPresence(ArtifactContract(Some(dir)).refs);
            && m.observed == Those(QUEUE_MINIMUM_ARTIFACTS, dir, true)
            && m.missing == Those(QUEUE_MINIMUM_ARTIFACTS, dir, false)
            && (m.complete <==> forall x :: x in QUEUE_MINIMUM_ARTIFACTS ==> x in dir)
  {
    hide ArtifactContract, Paths, QUEUE_MINIMUM_ARTIFACTS, FILE_FAMILIES, BASE_FAMILIES;
    var refs := ArtifactContract(Some(dir)).refs;
    forall x | x in QUEUE_MINIMUM_ARTIFACTS ensures x in Paths(refs) <==> x in dir {
      RequiredAreTabled(x);
      PathsOfContract(dir, x);
    }
    ThoseDependOnMembers(QUEUE_MINIMUM_ARTIFACTS, Paths(refs), dir, true);
    ThoseDependOnMembers(QUEUE_MINIMUM_ARTIFACTS, Paths(refs), dir, false);
    var missing := Those(QUEUE_MINIMUM_ARTIFACTS, dir, false);
    if missing != [] { assert missing[0] in missing; }
  }

  /**
   In an empty directory an expected artifact is observed exactly when its name or its stem is one of
   the two base families; the minimum artifacts are all missing.
   */
  lemma EmptyDirectoryShowsBaseFamilies(items: seq<string>, stem: string -> string)
    ensures var o := Observe(items, Some({}), stem);
            && (forall e :: e in o.observed <==> e in o.expected && (e in BASE_FAMILIES || stem(e) in BASE_FAMILIES))
            && o == Observe(items, None, stem)
            && MinimumArtifactPresence(ArtifactContract(Some({})).refs).missing == QUEUE_MINIMUM_ARTIFACTS
  {
    hide Strip, NormalizeItems, Compare, ArtifactContract, FILE_FAMILIES, BASE_FAMILIES, QUEUE_MINIMUM_ARTIFACTS;
    EmptyContract();
    ObservationPartitions(items, BASE_FAMILIES, [], stem);
    BaseFamiliesAreTrimmed();
    assert Paths([]) == {} && Stems({}, stem) == {};
    AllMissing(QUEUE_MINIMUM_ARTIFACTS);
  }

  lemma EmptyContract()
    ensures ArtifactContract(Some({})) == ArtifactContract(None) == Contract(BASE_FAMILIES, [])
  {
    NothingPresent(FILE_FAMILIES);
    assert SortBy([], ByPath) == [];
  }

  lemma BaseFamiliesAreTrimmed()
    ensures forall x :: x in Families(BASE_FAMILIES) <==> x in BASE_FAMILIES
  {
  }

  lemma {:induction false} NothingPresent(table: seq<(string, string)>)
    ensures PresentFamilies({}, table) == BASE_FAMILIES && PresentRefs({}, table) == []
  {
    if table != [] { NothingPresent(table[..|table| - 1]); }
  }

  lemma {:induction false} AllMissing(names: seq<string>)
    ensures Those(names, {}, false) == names
  {
    if names != [] {
      AllMissing(names[1..]);
      assert names == [names[0]] + names[1..];
    }
  }

  // ----- building and refreshing an execution result

  /** `rest` stands for the entries of a dictionary that neither operation looks into. */
  datatype Review = Review(rest: map<string, string>, expectedArtifacts: Option<seq<string>>, status: Option<Status>,
                           observed: Option<seq<string>>, missing: Option<seq<string>>, minimum: Option<Minimum>)

  datatype Bundle = Bundle(rest: map<string, string>, contract: Option<Contract>, review: Option<Review>,
                           expected: Option<Observation>, minimum: Option<Minimum>)

  /** A review summary or an evidence bundle that is not a dictionary is None. */
  datatype Result = Result(rest: map<string, string>, contract: Option<Contract>, review: Option<Review>,
                           bundle: Option<Bundle>, updatedAtMs: int)

  /** What the job's run says, apart from the artifact directory. */
  datatype Facts = Facts(result: map<string, string>, review: map<string, string>, bundle: map<string, string>,
                         ofCapabilities: Option<seq<string>>, ofRun: Option<seq<string>>, ofIntent: Option<seq<string>>)

  /** Capabilities first, then the run's own declaration, then its intent's. */
  function ExpectedArtifacts(facts: Facts): seq<string>
  {
    var own := NormalizeExpectedArtifacts(facts.ofRun);
    var declared := if own == [] then NormalizeExpectedArtifacts(facts.ofIntent) else own;
    var expected := NormalizeExpectedArtifacts(facts.ofCapabilities);
    if expected == [] then declared else expected
  }

  /** The first of the three that names an artifact counts. */
  lemma FirstDeclarationCounts(facts: Facts)
    ensures var capabilities, run, intent := NormalizeExpectedArtifacts(facts.ofCapabilities),
                                             NormalizeExpectedArtifacts(facts.ofRun), NormalizeExpectedArtifacts(facts.ofIntent);
            && (capabilities != [] ==> ExpectedArtifacts(facts) == capabilities)
            && (capabilities == [] && run != [] ==> ExpectedArtifacts(facts) == run)
            && (capabilities == run == [] ==> ExpectedArtifacts(facts) == intent)
  {
  }

  function BuildExecutionResult(facts: Facts, dir: Option<set<string>>, stem: string -> string, clock: int): Result
  {
    var c := ArtifactContract(dir);
    var o := Compare(ExpectedArtifacts(facts), c.families, c.refs, stem);
    var m := MinimumArtifactPresence(c.refs);
    var review := Review(facts.review, Some(o.expected), Some(o.status), Some(o.observed), Some(o.missing), Some(m));
    Result(facts.result, Some(c), Some(review), Some(Bundle(facts.bundle, Some(c), Some(review), Some(o), Some(m))), clock)
  }

  const NO_REVIEW := Review(map[], None, None, None, None, None)
  const NO_BUNDLE := Bundle(map[], None, None, None, None)

  function RefreshExecutionResult(result: Result, dir: set<string>, stem: string -> string): Result
  {
    var c := ArtifactContract(Some(dir));
    var m := MinimumArtifactPresence(c.refs);
    var review0 := if result.review.Some? then result.review.value else NO_REVIEW;
    var o := Compare(NormalizeExpectedArtifacts(review0.expectedArtifacts), c.families, c.refs, stem);
    var review := review0.(status := Some(o.status), observed := Some(o.observed), missing := Some(o.missing), minimum := Some(m));
    var bundle0 := if result.bundle.Some? then result.bundle.value else NO_BUNDLE;
    var bundle := bundle0.(contract := Some(c), review := Some(review), expected := Some(o), minimum := Some(m));
    result.(contract := Some(c), review := Some(review), bundle := Some(bundle))
  }

  lemma ExpectedAreNormalized(facts: Facts)
    ensures NormalizeItems(ExpectedArtifacts(facts)) == ExpectedArtifacts(facts)
  {
    hide NormalizeItems;
    forall v | v in {facts.ofCapabilities, facts.ofRun, facts.ofIntent} && v.Some?
      ensures NormalizeItems(NormalizeItems(v.value)) == NormalizeItems(v.value)
    {
      NormalizeIsIdempotent(v.value);
    }
    assert NormalizeItems([]) == [] by { NormalizeNothing(); }
  }

  lemma NormalizeNothing()
    ensures NormalizeItems([]) == []
  {
  }

  /** Refreshing against a later directory is rebuilding from scratch on it, up to the time stamp. */
  lemma RefreshIsRebuild(facts: Facts, before: Option<set<string>>, now: set<string>, stem: string -> string,
                         clock: int, later: int)
    ensures RefreshExecutionResult(BuildExecutionResult(facts, before, stem, clock), now, stem).(updatedAtMs := later)
         == BuildExecutionResult(facts, Some(now), stem, later)
  {
    hide NormalizeItems, ArtifactContract, Filter, MinimumArtifactPresence, ExpectedArtifacts;
    ExpectedAreNormalized(facts);
    assert NormalizeItems([]) == [] by { NormalizeNothing(); }
  }

  /** For any result, built or not: only the last refresh counts, and repeating it changes nothing. */
  lemma LastRefreshCounts(result: Result, first: set<string>, second: set<string>, stem: string -> string)
    ensures RefreshExecutionResult(RefreshExecutionResult(result, first, stem), second, stem)
         == RefreshExecutionResult(result, second, stem)
    ensures var once := RefreshExecutionResult(result, second, stem);
            RefreshExecutionResult(once, second, stem) == once && once.updatedAtMs == result.updatedAtMs
  {
  }
}
