/**
 The two retention policies: failed jobs (src/voxera/core/queue_daemon.py) and artifacts
 (src/voxera/core/artifacts.py).
 */
module Retention {
  import opened Collections
  import opened Text
  import opened Wrappers

  /** The newest modification time of each unit or entry, by key. */
  type Stamps = map<string, real>

  /** How entries of equal age are ordered: failed units by descending key, artifacts by ascending path. */
  datatype Tie = KeyDescending | KeyAscending

  /** `cutoff` is the moment before which entries are too old; None is a rule that does not apply. */
  datatype Policy = Policy(cutoff: Option<real>, count: Option<nat>)

  function PolicyOf(now: real, maxAge: Option<real>, maxCount: Option<int>): Policy
  {
    Policy(
      if maxAge.Some? && maxAge.value > 0.0 then Some(now - maxAge.value) else None,
      if maxCount.Some? && maxCount.value >= 0 then Some(maxCount.value) else None)
  }

  predicate Newer(stamps: Stamps, tie: Tie, a: string, b: string)
    requires a in stamps && b in stamps
  {
    a != b && (stamps[a] > stamps[b] ||
               (stamps[a] == stamps[b] && if tie.KeyDescending? then LexLeq(b, a) else LexLeq(a, b)))
  }

  predicate TooOld(stamps: Stamps, p: Policy, k: string)
    requires k in stamps
  {
    p.cutoff.Some? && stamps[k] < p.cutoff.value
  }

  ghost function NewerThan(stamps: Stamps, tie: Tie, k: string): set<string>
    requires k in stamps
  {
    set j | j in stamps && Newer(stamps, tie, j, k)
  }

  /** What both policies mean: not too old, and fewer than the allowed number are newer. */
  ghost predicate Keeps(stamps: Stamps, tie: Tie, p: Policy, k: string)
  {
    k in stamps && !TooOld(stamps, p, k) && (p.count.Some? ==> |NewerThan(stamps, tie, k)| < p.count.value)
  }

  ghost function Kept(stamps: Stamps, tie: Tie, p: Policy): set<string>
  {
    set k | k in stamps && Keeps(stamps, tie, p, k)
  }

  lemma NewerTotal(stamps: Stamps, tie: Tie, a: string, b: string)
    requires a in stamps && b in stamps && a != b
    ensures Newer(stamps, tie, a, b) <==> !Newer(stamps, tie, b, a)
  {
    LexTotal(a, b);
    if LexLeq(a, b) && LexLeq(b, a) {
      LexAntisymmetric(a, b);
    }
  }

  lemma NewerTransitive(stamps: Stamps, tie: Tie, a: string, b: string, c: string)
    requires a in stamps && b in stamps && c in stamps
    requires Newer(stamps, tie, a, b) && Newer(stamps, tie, b, c)
    ensures Newer(stamps, tie, a, c)
  {
    if a == c {
      NewerTotal(stamps, tie, a, b);
    } else if stamps[a] == stamps[b] == stamps[c] {
      if tie.KeyDescending? { LexTransitive(c, b, a); } else { LexTransitive(a, b, c); }
    }
  }

  // ----- sorting newest first

  ghost predicate Sorted(stamps: Stamps, tie: Tie, s: seq<string>)
  {
    && (forall i :: 0 <= i < |s| ==> s[i] in stamps)
    && (forall i, j :: 0 <= i < j < |s| ==> Newer(stamps, tie, s[i], s[j]))
  }

  function Elements(s: seq<string>): set<string>
  {
    set i | 0 <= i < |s| :: s[i]
  }

  method SortNewestFirst(stamps: Stamps, tie: Tie) returns (s: seq<string>)
    ensures Sorted(stamps, tie, s) && Elements(s) == stamps.Keys
  {
    s := [];
    var rest := stamps.Keys;
    while rest != {}
      invariant Sorted(stamps, tie, s)
      invariant rest <= stamps.Keys && Elements(s) == stamps.Keys - rest
      decreases |rest|
    {
      var k :| k in rest;
      s := Insert(stamps, tie, s, k);
      rest := rest - {k};
    }
  }

  method Insert(stamps: Stamps, tie: Tie, s: seq<string>, k: string) returns (r: seq<string>)
    requires Sorted(stamps, tie, s) && k in stamps && k !in Elements(s)
    ensures Sorted(stamps, tie, r) && Elements(r) == Elements(s) + {k}
  {
    var i := 0;
    while i < |s| && Newer(stamps, tie, s[i], k)
      invariant i <= |s|
      invariant forall j :: 0 <= j < i ==> Newer(stamps, tie, s[j], k)
    {
      i := i + 1;
    }
    r := s[..i] + [k] + s[i..];
    forall j | i <= j < |s| ensures Newer(stamps, tie, k, s[j]) {
      assert s[j] in Elements(s) && s[i] in Elements(s);
      NewerTotal(stamps, tie, s[i], k);
      if j > i { NewerTransitive(stamps, tie, k, s[i], s[j]); }
    }
    SpliceElements(s, i, k);
  }

  lemma SpliceElements(s: seq<string>, i: nat, k: string)
    requires i <= |s|
    ensures Elements(s[..i] + [k] + s[i..]) == Elements(s) + {k}
  {
    var r := s[..i] + [k] + s[i..];
    forall x | x in Elements(s) + {k} ensures x in Elements(r) {
      if x == k {
        assert r[i] == k;
      } else {
        var j :| 0 <= j < |s| && s[j] == x;
        assert r[if j < i then j else j + 1] == x;
      }
    }
  }

  lemma {:induction false} ElementsCount(stamps: Stamps, tie: Tie, s: seq<string>)
    requires Sorted(stamps, tie, s)
    ensures |Elements(s)| == |s|
  {
    if s != [] {
      var front, last := s[..|s| - 1], s[|s| - 1];
      ElementsCount(stamps, tie, front);
      assert s == front + [last] + [];
      SpliceElements(front, |front|, last);
      assert front[..|front|] + [last] + front[|front|..] == s;
      assert last !in Elements(front);
    }
  }

  /** In a sorted listing an entry's position is the number of newer entries. */
  lemma PositionIsRank(stamps: Stamps, tie: Tie, s: seq<string>, i: nat)
    requires Sorted(stamps, tie, s) && Elements(s) == stamps.Keys && i < |s|
    ensures |NewerThan(stamps, tie, s[i])| == i
  {
    forall j | j in stamps ensures Newer(stamps, tie, j, s[i]) <==> j in Elements(s[..i]) {
      assert j in Elements(s);
      var n :| 0 <= n < |s| && s[n] == j;
      if n < i {
        assert s[..i][n] == j;
      } else if n > i {
        NewerTotal(stamps, tie, s[i], s[n]);
      }
    }
    assert NewerThan(stamps, tie, s[i]) == Elements(s[..i]);
    ElementsCount(stamps, tie, s[..i]);
  }

  // ----- properties of what is kept

  /** Everything newer than a kept entry is kept: the kept entries are a newest-first prefix. */
  lemma KeptIsNewestPrefix(stamps: Stamps, tie: Tie, p: Policy, j: string, k: string)
    requires Keeps(stamps, tie, p, k) && j in stamps && Newer(stamps, tie, j, k)
    ensures Keeps(stamps, tie, p, j)
  {
    forall x | x in NewerThan(stamps, tie, j) ensures x in NewerThan(stamps, tie, k) {
      NewerTransitive(stamps, tie, x, j, k);
    }
    SubsetCount(NewerThan(stamps, tie, j), NewerThan(stamps, tie, k));
  }

  /** No removed entry is newer than a kept one. */
  lemma NothingKeptIsOlder(stamps: Stamps, tie: Tie, p: Policy, kept: string, removed: string)
    requires Keeps(stamps, tie, p, kept)
    requires removed in stamps && !Keeps(stamps, tie, p, removed)
    ensures stamps[kept] >= stamps[removed]
  {
    if stamps[kept] < stamps[removed] {
      KeptIsNewestPrefix(stamps, tie, p, removed, kept);
    }
  }

  lemma OldestOf(stamps: Stamps, tie: Tie, ks: set<string>) returns (k: string)
    requires ks != {} && ks <= stamps.Keys
    ensures k in ks && ks - {k} <= NewerThan(stamps, tie, k)
  {
    k :| k in ks;
    var rest := ks - {k};
    if rest != {} {
      var o := OldestOf(stamps, tie, rest);
      NewerTotal(stamps, tie, k, o);
      forall x | x in rest && x != o ensures Newer(stamps, tie, x, o) {
        assert x in NewerThan(stamps, tie, o);
      }
      if Newer(stamps, tie, k, o) {
        k := o;
      } else {
        forall x | x in rest ensures Newer(stamps, tie, x, k) {
          if x != o { NewerTransitive(stamps, tie, x, o, k); }
        }
      }
    }
  }

  ghost function Young(stamps: Stamps, p: Policy): set<string>
  {
    set k | k in stamps && !TooOld(stamps, p, k)
  }

  ghost function Newest(stamps: Stamps, tie: Tie, ks: set<string>, n: nat): set<string>
    requires ks <= stamps.Keys
  {
    set k | k in ks && |NewerThan(stamps, tie, k)| < n
  }

  lemma WithOldest(stamps: Stamps, tie: Tie, ks: set<string>, o: string, n: nat)
    requires o in ks && ks <= stamps.Keys && NewerThan(stamps, tie, o) == ks - {o}
    ensures Newest(stamps, tie, ks, n) == Newest(stamps, tie, ks - {o}, n) + if |ks - {o}| < n then {o} else {}
  {
    hide NewerThan;
  }

  /** The newest `n` of a set of entries that contains whatever is newer than one of them. */
  lemma {:induction false} NewestCount(stamps: Stamps, tie: Tie, ks: set<string>, n: nat)
    requires ks <= stamps.Keys && forall k, j :: k in ks && j in NewerThan(stamps, tie, k) ==> j in ks
    ensures |Newest(stamps, tie, ks, n)| == Min(n, |ks|)
    decreases |ks|
  {
    hide Newest;
    if ks == {} {
      NewestAmong(stamps, tie, ks, n);
    } else {
      var o := OldestOf(stamps, tie, ks);
      forall k | k in ks - {o} ensures o !in NewerThan(stamps, tie, k) {
        NewerTotal(stamps, tie, o, k);
      }
      assert o !in NewerThan(stamps, tie, o);
      hide NewerThan;
      assert NewerThan(stamps, tie, o) == ks - {o};
      NewestCount(stamps, tie, ks - {o}, n);
      WithOldest(stamps, tie, ks, o, n);
      NewestAmong(stamps, tie, ks - {o}, n);
    }
  }

  lemma NewestAmong(stamps: Stamps, tie: Tie, ks: set<string>, n: nat)
    requires ks <= stamps.Keys
    ensures Newest(stamps, tie, ks, n) <= ks
  {
  }

  /** What is kept: of the entries that are not too old as many as the count rule allows, or all if it does not apply. */
  lemma KeptCountIsExact(stamps: Stamps, tie: Tie, p: Policy)
    ensures |Kept(stamps, tie, p)| == if p.count.Some? then Min(p.count.value, |Young(stamps, p)|) else |Young(stamps, p)|
  {
    if p.count.Some? {
      NewestCount(stamps, tie, Young(stamps, p), p.count.value);
      assert Kept(stamps, tie, p) == Newest(stamps, tie, Young(stamps, p), p.count.value);
    } else {
      assert Kept(stamps, tie, p) == Young(stamps, p);
    }
  }

  function Restrict(stamps: Stamps, ks: set<string>): Stamps
  {
    map k | k in stamps && k in ks :: stamps[k]
  }

  /** Pruning what a pruning left, with the same cutoff, removes nothing. */
  lemma PruneAgainKeepsAll(stamps: Stamps, tie: Tie, p: Policy)
    ensures var left := Restrict(stamps, Kept(stamps, tie, p));
            Kept(left, tie, p) == left.Keys == Kept(stamps, tie, p)
  {
    var left := Restrict(stamps, Kept(stamps, tie, p));
    forall k | k in left ensures Keeps(left, tie, p, k) {
      assert NewerThan(left, tie, k) <= NewerThan(stamps, tie, k);
      SubsetCount(NewerThan(left, tie, k), NewerThan(stamps, tie, k));
    }
  }

  // ----- age, then count

  /** The entries that are not too old. */
  method SelectYoung(stamps: Stamps, ordered: seq<string>, tie: Tie, p: Policy) returns (keep: set<string>)
    requires Sorted(stamps, tie, ordered) && Elements(ordered) == stamps.Keys
    ensures keep == set k | k in stamps && !TooOld(stamps, p, k)
  {
    keep := stamps.Keys;
    if p.cutoff.Some? {
      keep := {};
      for i := 0 to |ordered|
        invariant keep == set k | k in Elements(ordered[..i]) && !TooOld(stamps, p, k)
      {
        ElementsSnoc(ordered, i);
        if stamps[ordered[i]] >= p.cutoff.value {
          keep := keep + {ordered[i]};
        }
      }
      assert ordered[..|ordered|] == ordered;
    }
  }

  lemma EarlierIsYoung(stamps: Stamps, tie: Tie, ordered: seq<string>, p: Policy, j: nat, i: nat)
    requires Sorted(stamps, tie, ordered) && j <= i < |ordered| && !TooOld(stamps, p, ordered[i])
    ensures !TooOld(stamps, p, ordered[j])
  {
    assert j < i ==> Newer(stamps, tie, ordered[j], ordered[i]);
  }

  /** The young ones in order: a prefix, as the order is by age. */
  method Filter(stamps: Stamps, ordered: seq<string>, tie: Tie, p: Policy, young: set<string>) returns (aged: seq<string>)
    requires Sorted(stamps, tie, ordered) && Elements(ordered) == stamps.Keys
    requires young == set k | k in stamps && !TooOld(stamps, p, k)
    ensures aged <= ordered
    ensures forall i :: 0 <= i < |ordered| ==> (ordered[i] in young <==> i < |aged|)
  {
    aged := [];
    for i := 0 to |ordered|
      invariant |aged| <= i && aged == ordered[..|aged|]
      invariant forall j :: 0 <= j < i ==> (ordered[j] in young <==> j < |aged|)
    {
      if ordered[i] in young {
        EarlierIsYoung(stamps, tie, ordered, p, |aged|, i);
        aged := aged + [ordered[i]];
      }
    }
  }

  method SelectAgeThenCount(stamps: Stamps, ordered: seq<string>, tie: Tie, p: Policy) returns (keep: set<string>)
    requires Sorted(stamps, tie, ordered) && Elements(ordered) == stamps.Keys
    ensures keep == Kept(stamps, tie, p)
  {
    keep := SelectYoung(stamps, ordered, tie, p);
    if p.count.Some? {
      var aged := Filter(stamps, ordered, tie, p, keep);
      var n := if |aged| <= p.count.value then |aged| else p.count.value;
      keep := Elements(aged[..n]);
      assert aged[..n] == ordered[..n];
      forall k | k in stamps ensures k in keep <==> Keeps(stamps, tie, p, k) {
        assert k in Elements(ordered);
        var i :| 0 <= i < |ordered| && ordered[i] == k;
        PositionIsRank(stamps, tie, ordered, i);
      }
    }
  }

  lemma ElementsSnoc(s: seq<string>, i: nat)
    requires i < |s|
    ensures Elements(s[..i + 1]) == Elements(s[..i]) + {s[i]}
  {
  }

  // ----- union of age and count

  method SelectUnion(stamps: Stamps, ordered: seq<string>, tie: Tie, p: Policy) returns (prune: set<string>)
    requires Sorted(stamps, tie, ordered) && Elements(ordered) == stamps.Keys
    ensures prune == stamps.Keys - Kept(stamps, tie, p)
  {
    prune := {};
    if p.cutoff.Some? {
      for i := 0 to |ordered|
        invariant prune == set k | k in Elements(ordered[..i]) && TooOld(stamps, p, k)
      {
        ElementsSnoc(ordered, i);
        if stamps[ordered[i]] < p.cutoff.value {
          prune := prune + {ordered[i]};
        }
      }
      assert ordered[..|ordered|] == ordered;
    }
    ghost var aged := prune;
    if p.count.Some? && |ordered| > p.count.value {
      for i := p.count.value to |ordered|
        invariant forall k :: k in prune <==> k in aged || exists j :: p.count.value <= j < i && ordered[j] == k
      {
        prune := prune + {ordered[i]};
      }
    }
    forall k | k in stamps ensures k in prune <==> !Keeps(stamps, tie, p, k) {
      assert k in Elements(ordered);
      var i :| 0 <= i < |ordered| && ordered[i] == k;
      PositionIsRank(stamps, tie, ordered, i);
    }
  }

  // ----- the two policies side by side

  /** Under one order and one policy the two selections are complementary, so they keep the same entries. */
  method SelectBoth(stamps: Stamps, tie: Tie, p: Policy) returns (keep: set<string>, prune: set<string>)
    ensures keep == stamps.Keys - prune && prune == stamps.Keys - keep
    ensures keep == Kept(stamps, tie, p)
  {
    var ordered := SortNewestFirst(stamps, tie);
    keep := SelectAgeThenCount(stamps, ordered, tie, p);
    prune := SelectUnion(stamps, ordered, tie, p);
  }

  ghost function StrictlyNewer(stamps: Stamps, k: string): set<string>
    requires k in stamps
  {
    set j | j in stamps && stamps[j] > stamps[k]
  }

  ghost function AtLeastAsNew(stamps: Stamps, k: string): set<string>
    requires k in stamps
  {
    set j | j in stamps && stamps[j] >= stamps[k]
  }

  /** The count limit falls between entries of the same age as `k`. */
  ghost predicate SplitsTies(stamps: Stamps, p: Policy, k: string)
    requires k in stamps
  {
    && !TooOld(stamps, p, k) && p.count.Some?
    && |StrictlyNewer(stamps, k)| < p.count.value < |AtLeastAsNew(stamps, k)|
  }

  lemma UnsplitTiesAgree(stamps: Stamps, p: Policy, tie: Tie, k: string)
    requires k in stamps && p.count.Some? && !TooOld(stamps, p, k) && !SplitsTies(stamps, p, k)
    ensures Keeps(stamps, tie, p, k) <==> |AtLeastAsNew(stamps, k)| <= p.count.value
  {
    var newer := NewerThan(stamps, tie, k);
    SubsetCount(StrictlyNewer(stamps, k), newer);
    SubsetCount(newer, AtLeastAsNew(stamps, k) - {k});
    assert k in AtLeastAsNew(stamps, k);
  }

  lemma SplitTiesDiffer(stamps: Stamps, p: Policy, k: string) returns (x: string)
    requires k in stamps && SplitsTies(stamps, p, k)
    ensures Keeps(stamps, KeyDescending, p, x) && !Keeps(stamps, KeyAscending, p, x)
  {
    var group := set j | j in stamps && stamps[j] == stamps[k];
    assert k in group;
    x := OldestOf(stamps, KeyAscending, group);
    assert StrictlyNewer(stamps, x) == StrictlyNewer(stamps, k) && AtLeastAsNew(stamps, x) == AtLeastAsNew(stamps, k);
    forall j | j in NewerThan(stamps, KeyDescending, x) ensures j in StrictlyNewer(stamps, x) {
      if j in group {
        assert j in NewerThan(stamps, KeyAscending, x);
        LexAntisymmetric(j, x);
      }
    }
    SubsetCount(NewerThan(stamps, KeyDescending, x), StrictlyNewer(stamps, x));
    forall j | j in AtLeastAsNew(stamps, x) - {x} ensures j in NewerThan(stamps, KeyAscending, x) {
      assert j in group ==> j in group - {x};
    }
    SubsetCount(AtLeastAsNew(stamps, x) - {x}, NewerThan(stamps, KeyAscending, x));
  }

  /**
   The two callers break ties of age in opposite directions; they still keep the same entries
   exactly when the count limit does not fall inside a group of entries of one age.
   */
  lemma TieBreakingMattersOnlyAtTheCount(stamps: Stamps, p: Policy)
    ensures Kept(stamps, KeyDescending, p) == Kept(stamps, KeyAscending, p) <==>
            forall k :: k in stamps ==> !SplitsTies(stamps, p, k)
  {
    if k :| k in stamps && SplitsTies(stamps, p, k) {
      var x := SplitTiesDiffer(stamps, p, k);
      assert x in Kept(stamps, KeyDescending, p) && x !in Kept(stamps, KeyAscending, p);
    } else {
      forall k | k in stamps
        ensures Keeps(stamps, KeyDescending, p, k) <==> Keeps(stamps, KeyAscending, p, k)
      {
        if p.count.Some? && !TooOld(stamps, p, k) {
          UnsplitTiesAgree(stamps, p, KeyDescending, k);
          UnsplitTiesAgree(stamps, p, KeyAscending, k);
        }
      }
    }
  }

  // ----- the directories

  function Latest(a: Option<real>, b: Option<real>): real
  {
    match (a, b)
    case (Some(x), Some(y)) => if x >= y then x else y
    case (Some(x), None) => x
    case (None, Some(y)) => y
    case (None, None) => 0.0
  }

  function Lookup(m: Stamps, k: string): Option<real>
  {
    if k in m then Some(m[k]) else None
  }

  /** A job and its sidecar form one unit, as old as the newer of the two. */
  ghost function UnitsOf(jobs: Stamps, sidecars: Stamps): Stamps
  {
    map k | k in jobs.Keys + sidecars.Keys :: Latest(Lookup(jobs, k), Lookup(sidecars, k))
  }

  /** A positive maximal age is given, and every file there is of the unit is older than that. */
  ghost predicate Expired(jobs: Stamps, sidecars: Stamps, now: real, maxAge: Option<real>, k: string)
  {
    && maxAge.Some? && maxAge.value > 0.0
    && (k in jobs ==> now - jobs[k] > maxAge.value) && (k in sidecars ==> now - sidecars[k] > maxAge.value)
  }

  ghost function Unexpired(jobs: Stamps, sidecars: Stamps, now: real, maxAge: Option<real>): set<string>
  {
    set k | k in jobs.Keys + sidecars.Keys && !Expired(jobs, sidecars, now, maxAge, k)
  }

  predicate Counts(maxCount: Option<int>)
  {
    maxCount.Some? && maxCount.value >= 0
  }

  /**
   The rules in terms of the clock, the two limits and the files' own times: without a count, or with a negative one,
   exactly the expired units go; with a count, of the others as many stay as it allows.
   */
  lemma RulesMean(jobs: Stamps, sidecars: Stamps, tie: Tie, now: real, maxAge: Option<real>, maxCount: Option<int>)
    ensures var kept := Kept(UnitsOf(jobs, sidecars), tie, PolicyOf(now, maxAge, maxCount));
            var unexpired := Unexpired(jobs, sidecars, now, maxAge);
            && kept <= unexpired <= jobs.Keys + sidecars.Keys
            && (!Counts(maxCount) ==> kept == unexpired)
            && (Counts(maxCount) ==> |kept| == Min(maxCount.value, |unexpired|))
  {
    var units, p := UnitsOf(jobs, sidecars), PolicyOf(now, maxAge, maxCount);
    KeptCountIsExact(units, tie, p);
    assert Young(units, p) == Unexpired(jobs, sidecars, now, maxAge);
  }

  /** The rules for single files; what is left out of the pruned ones, counted. */
  lemma EntriesMean(entries: Stamps, now: real, maxAge: Option<real>, maxCount: Option<int>)
    ensures var kept := Kept(entries, KeyAscending, PolicyOf(now, maxAge, maxCount));
            var unexpired := Unexpired(entries, map[], now, maxAge);
            && (!Counts(maxCount) ==> kept == unexpired)
            && |entries| - |entries.Keys - kept| == |Restrict(entries, kept + {})|
            && |Restrict(entries, kept + {})| == if Counts(maxCount) then Min(maxCount.value, |unexpired|) else |unexpired|
  {
    hide Kept, Unexpired, PolicyOf, Counts, Restrict;
    assert UnitsOf(entries, map[]) == entries;
    hide UnitsOf;
    RulesMean(entries, map[], KeyAscending, now, maxAge, maxCount);
    KeptOfWhole(entries, Kept(entries, KeyAscending, PolicyOf(now, maxAge, maxCount)));
  }

  lemma KeptOfWhole(entries: Stamps, ks: set<string>)
    requires ks <= entries.Keys
    ensures |entries| - |entries.Keys - ks| == |Restrict(entries, ks + {})| == |ks|
  {
    assert Restrict(entries, ks + {}).Keys == ks;
  }

  lemma OthersGo(entries: Stamps, prune: set<string>, kept: set<string>, stuck: set<string>)
    requires prune == entries.Keys - kept
    ensures entries - (prune - stuck) == Restrict(entries, kept + stuck)
  {
  }

  lemma RestrictedUnits(jobs: Stamps, sidecars: Stamps, ks: set<string>)
    requires ks <= jobs.Keys + sidecars.Keys
    ensures Restrict(jobs, ks).Keys + Restrict(sidecars, ks).Keys == ks
  {
  }

  /** The failed bucket: job files and their error sidecars with modification times, by job stem. */
  class FailedBucket {
    var jobs: Stamps
    var sidecars: Stamps

    constructor (jobs: Stamps, sidecars: Stamps)
      ensures this.jobs == jobs && this.sidecars == sidecars
    {
      this.jobs, this.sidecars := jobs, sidecars;
    }

    method GroupUnits() returns (units: Stamps)
      ensures units == UnitsOf(jobs, sidecars) && units.Keys == jobs.Keys + sidecars.Keys
    {
      units := map[];
      var rest := jobs.Keys + sidecars.Keys;
      while rest != {}
        invariant rest <= jobs.Keys + sidecars.Keys
        invariant units == map k | k in jobs.Keys + sidecars.Keys - rest :: Latest(Lookup(jobs, k), Lookup(sidecars, k))
        decreases |rest|
      {
        var k :| k in rest;
        units := units[k := Latest(Lookup(jobs, k), Lookup(sidecars, k))];
        rest := rest - {k};
      }
    }

    method PruneFailedArtifacts(now: real, maxAge: Option<real>, maxCount: Option<int>)
      returns (removedJobs: nat, removedSidecars: nat)
      modifies this
      ensures var kept := Kept(old(UnitsOf(jobs, sidecars)), KeyDescending, PolicyOf(now, maxAge, maxCount));
              jobs == Restrict(old(jobs), kept) && sidecars == Restrict(old(sidecars), kept)
      ensures removedJobs == |old(jobs)| - |jobs| && removedSidecars == |old(sidecars)| - |sidecars|
      ensures var unexpired := Unexpired(old(jobs), old(sidecars), now, maxAge);
              && jobs.Keys + sidecars.Keys <= unexpired
              && (!Counts(maxCount) ==>
                    jobs == Restrict(old(jobs), unexpired) && sidecars == Restrict(old(sidecars), unexpired))
              && (Counts(maxCount) ==> |jobs.Keys + sidecars.Keys| == Min(maxCount.value, |unexpired|))
    {
      RulesMean(jobs, sidecars, KeyDescending, now, maxAge, maxCount);
      hide Kept, UnitsOf, Unexpired, PolicyOf, Sorted, Counts, Restrict, Elements;
      RestrictedUnits(jobs, sidecars, Kept(UnitsOf(jobs, sidecars), KeyDescending, PolicyOf(now, maxAge, maxCount)));
      var units := GroupUnits();
      var ordered := SortNewestFirst(units, KeyDescending);
      var keep := SelectAgeThenCount(units, ordered, KeyDescending, PolicyOf(now, maxAge, maxCount));
      removedJobs, removedSidecars := RemoveOthers(ordered, keep);
    }

    method RemoveOthers(ordered: seq<string>, keep: set<string>) returns (removedJobs: nat, removedSidecars: nat)
      requires jobs.Keys + sidecars.Keys <= Elements(ordered)
      modifies this
      ensures jobs == Restrict(old(jobs), keep) && sidecars == Restrict(old(sidecars), keep)
      ensures removedJobs == |old(jobs)| - |jobs| && removedSidecars == |old(sidecars)| - |sidecars|
    {
      ghost var jobs0, sidecars0, gone := jobs, sidecars, {};
      removedJobs, removedSidecars := 0, 0;
      for i := 0 to |ordered|
        invariant forall j :: 0 <= j < i ==> ordered[j] in keep || ordered[j] in gone
        invariant forall k :: k in gone ==> k !in keep
        invariant Lacks(jobs, jobs0, gone) && Lacks(sidecars, sidecars0, gone)
        invariant removedJobs == |jobs0| - |jobs| && removedSidecars == |sidecars0| - |sidecars|
      {
        var key := ordered[i];
        if key in keep {
          continue;
        }
        var n, m;
        gone := gone + {key};
        jobs, n := Unlink(jobs, key);
        sidecars, m := Unlink(sidecars, key);
        removedJobs, removedSidecars := removedJobs + n, removedSidecars + m;
      }
      LacksAllOthers(jobs, jobs0, gone, keep, ordered);
      LacksAllOthers(sidecars, sidecars0, gone, keep, ordered);
    }
  }

  ghost predicate Lacks(left: Stamps, whole: Stamps, gone: set<string>)
  {
    && (forall k :: k in left <==> k in whole && k !in gone)
    && (forall k :: k in left ==> left[k] == whole[k])
  }

  lemma LacksAllOthers(left: Stamps, whole: Stamps, gone: set<string>, keep: set<string>, ordered: seq<string>)
    requires Lacks(left, whole, gone) && whole.Keys <= Elements(ordered)
    requires forall j :: 0 <= j < |ordered| ==> ordered[j] in keep || ordered[j] in gone
    requires forall k :: k in gone ==> k !in keep
    ensures left == Restrict(whole, keep)
  {
  }

  /** Delete a file that may be absent. */
  method Unlink(m: Stamps, k: string) returns (left: Stamps, removed: nat)
    ensures left == m - {k} && removed == |m| - |left|
  {
    left, removed := m, 0;
    if k in m {
      left, removed := m - {k}, 1;
    } else {
      assert m - {k} == m;
    }
  }

  /** Pruning the failed bucket again with the same cutoff finds nothing to remove. */
  lemma FailedUnitsStable(jobs: Stamps, sidecars: Stamps, p: Policy)
    ensures var kept := Kept(UnitsOf(jobs, sidecars), KeyDescending, p);
            var left := UnitsOf(Restrict(jobs, kept), Restrict(sidecars, kept));
            Kept(left, KeyDescending, p) == left.Keys == kept
  {
    var units := UnitsOf(jobs, sidecars);
    var kept := Kept(units, KeyDescending, p);
    PruneAgainKeepsAll(units, KeyDescending, p);
    assert UnitsOf(Restrict(jobs, kept), Restrict(sidecars, kept)) == Restrict(units, kept);
  }

  datatype PruneStatus = Pruned | NoArtifactsDir | NoRules

  /** The artifacts directory: top-level entries with modification times. */
  class ArtifactsRoot {
    var present: bool
    var entries: Stamps

    constructor (present: bool, entries: Stamps)
      ensures this.present == present && this.entries == entries
    {
      this.present, this.entries := present, entries;
    }

    /** `stuck` are the entries that lie outside the root or cannot be deleted. */
    method PruneArtifacts(now: real, maxAge: Option<real>, maxCount: Option<int>, dryRun: bool, stuck: set<string>)
      returns (status: PruneStatus, candidates: nat, pruned: nat)
      modifies this
      ensures status == if !old(present) then NoArtifactsDir
                        else if maxAge.None? && maxCount.None? then NoRules
                        else Pruned
      ensures present == old(present)
      ensures status != Pruned || dryRun ==> entries == old(entries)
      ensures status != Pruned ==> candidates == 0 && pruned == 0
      ensures status == Pruned ==>
        var kept := Kept(old(entries), KeyAscending, PolicyOf(now, maxAge, maxCount));
        && candidates == |old(entries)|
        && (dryRun ==> pruned == |old(entries).Keys - kept|)
        && (!dryRun ==> entries == Restrict(old(entries), kept + stuck) && pruned == |old(entries)| - |entries|)
      ensures status == Pruned ==>
        var unexpired := Unexpired(old(entries), map[], now, maxAge);
        && (!dryRun && !Counts(maxCount) ==> entries == Restrict(old(entries), unexpired + stuck))
        && (dryRun || stuck == {} ==>
              candidates - pruned == if Counts(maxCount) then Min(maxCount.value, |unexpired|) else |unexpired|)
    {
      if !present {
        return NoArtifactsDir, 0, 0;
      }
      if maxAge.None? && maxCount.None? {
        return NoRules, 0, 0;
      }
      hide Kept, UnitsOf, Unexpired, PolicyOf, Counts, Restrict, Min;
      EntriesMean(entries, now, maxAge, maxCount);
      status := Pruned;
      candidates, pruned := PruneBy(PolicyOf(now, maxAge, maxCount), dryRun, stuck);
    }

    method PruneBy(p: Policy, dryRun: bool, stuck: set<string>) returns (candidates: nat, pruned: nat)
      modifies this`entries
      ensures dryRun ==> entries == old(entries)
      ensures var kept := Kept(old(entries), KeyAscending, p);
        && candidates == |old(entries)|
        && (dryRun ==> pruned == |old(entries).Keys - kept|)
        && (!dryRun ==> entries == Restrict(old(entries), kept + stuck) && pruned == |old(entries)| - |entries|)
    {
      var ordered := SortNewestFirst(entries, KeyAscending);
      var prune := SelectUnion(entries, ordered, KeyAscending, p);
      candidates, pruned := |entries|, |prune|;
      if !dryRun {
        OthersGo(entries, prune, Kept(entries, KeyAscending, p), stuck);
        pruned := DeleteAll(prune, stuck);
      }
    }

    method DeleteAll(prune: set<string>, stuck: set<string>) returns (pruned: nat)
      requires prune <= entries.Keys
      modifies this`entries
      ensures entries == old(entries) - (prune - stuck) && pruned == |old(entries)| - |entries|
    {
      ghost var entries0 := entries;
      pruned := 0;
      var rest := prune - stuck;
      while rest != {}
        invariant rest <= prune - stuck
        invariant forall k :: k in entries <==> k in entries0 && (k in rest || k !in prune - stuck)
        invariant forall k :: k in entries ==> entries[k] == entries0[k]
        invariant pruned == |entries0| - |entries|
        decreases |rest|
      {
        var k :| k in rest;
        rest := rest - {k};
        var n;
        entries, n := Unlink(entries, k);
        pruned := pruned + n;
      }
    }
  }
}
