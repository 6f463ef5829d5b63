/** Parent, root, depth and sequence of child jobs (src/voxera/core/queue_contracts.py, src/voxera/core/queue_daemon.py). */
module Lineage {
  import opened Text
  import opened Values
  import opened Wrappers

  datatype Fields = Fields(parentJobId: Value, rootJobId: Value, depth: Value, sequence: Value, role: Value)

  /** The lineage fields at the top of a job's payload, and those of its `lineage` object if it has one. */
  datatype Payload = Payload(top: Fields, nested: Option<Fields>)

  datatype Metadata = Metadata(parentJobId: Option<string>, rootJobId: Option<string>, depth: nat,
                               sequence: Option<nat>, role: Option<string>)

  function SanitizeString(v: Value): Option<string>
  {
    if v.Words? && Strip(v.s) != [] then Some(Strip(v.s)) else None
  }

  function SanitizeInt(v: Value): Option<nat>
  {
    match ToInt(v)
    case Some(n) => if n >= 0 then Some(n) else None
    case None => None
  }

  // ----- extraction

  predicate HasLineage(f: Fields)
  {
    !(f.parentJobId.Missing? && f.rootJobId.Missing? && f.depth.Missing? && f.sequence.Missing? && f.role.Missing?)
  }

  function SanitizeRole(v: Value): Option<string>
  {
    var role := SanitizeString(v);
    if role.Some? && Lower(role.value) in ["root", "child"] then Some(Lower(role.value)) else None
  }

  function Sanitized(source: Fields): Metadata
  {
    var depth := SanitizeInt(source.depth);
    Metadata(SanitizeString(source.parentJobId), SanitizeString(source.rootJobId),
             if depth.Some? then depth.value else 0, SanitizeInt(source.sequence), SanitizeRole(source.role))
  }

  function Extract(p: Payload): Option<Metadata>
  {
    var source := if p.nested.Some? then p.nested.value else p.top;
    if HasLineage(source) then Some(Sanitized(source)) else None
  }

  function Written(v: Option<string>): Value
  {
    if v.Some? then Words(v.value) else Null
  }

  /** The metadata written back as a payload's fields. */
  function AsFields(m: Metadata): Fields
  {
    Fields(Written(m.parentJobId), Written(m.rootJobId), Int(m.depth),
           if m.sequence.Some? then Int(m.sequence.value) else Null, Written(m.role))
  }

  /** Metadata that is clean reads back from the fields as it was written, at the top or nested. */
  lemma MetadataSurvives(m: Metadata, top: Fields)
    requires forall s | s in [m.parentJobId, m.rootJobId] :: s.Some? ==> s.value != [] && Trimmed(s.value)
    requires m.role in [None, Some("root"), Some("child")]
    ensures Extract(Payload(AsFields(m), None)) == Extract(Payload(top, Some(AsFields(m)))) == Some(m)
  {
    hide Strip, Lower;
    if m.parentJobId.Some? { StripTrims(m.parentJobId.value); }
    if m.rootJobId.Some? { StripTrims(m.rootJobId.value); }
    RolesAreKept();
  }

  lemma RolesAreKept()
    ensures forall r | r in ["root", "child"] :: SanitizeRole(Words(r)) == Some(r)
  {
    hide Strip;
    StripTrims("root");
    StripTrims("child");
    assert Lower("root") == "root" && Lower("child") == "child";
  }

  /** Extracting what was extracted changes nothing. */
  lemma ExtractIsIdempotent(p: Payload, top: Fields)
    requires Extract(p).Some?
    ensures Extract(Payload(AsFields(Extract(p).value), None)) == Extract(p)
    ensures Extract(Payload(top, Some(AsFields(Extract(p).value)))) == Extract(p)
  {
    hide Strip, Lower, Trimmed;
    var source := if p.nested.Some? then p.nested.value else p.top;
    forall v | v in [source.parentJobId, source.rootJobId] && v.Words? ensures Trimmed(Strip(v.s)) {
      StripTrims(v.s);
    }
    MetadataSurvives(Extract(p).value, top);
  }

  // ----- a child's lineage

  datatype Child = Child(parentJobId: string, rootJobId: string, depth: nat, sequence: nat)

  function ComputeChildLineage(parentJobId: string, parent: Payload): Child
  {
    match Extract(parent)
    case None => Child(parentJobId, parentJobId, 1, 1)
    case Some(m) =>
      Child(parentJobId, if m.rootJobId.Some? then m.rootJobId.value else parentJobId, m.depth + 1,
            if m.sequence.Some? then m.sequence.value + 1 else 1)
  }

  /** A child of a job whose lineage says `depth` and `sequence`; what is negative or not a number counts as unsaid. */
  lemma ChildOfLineage(id: string, root: string, depth: int, sequence: int, rest: Value)
    requires Trimmed(root) && root != []
    ensures ComputeChildLineage(id, Payload(Fields(rest, Words(root), Int(depth), Int(sequence), rest), None)) ==
            Child(id, root, if depth >= 0 then depth + 1 else 1, if sequence >= 0 then sequence + 1 else 1)
    ensures ComputeChildLineage(id, Payload(Fields(rest, Null, Null, Null, rest), None)) == Child(id, id, 1, 1)
    ensures ComputeChildLineage(id, Payload(Fields(Missing, Missing, Missing, Missing, Missing), None)) == Child(id, id, 1, 1)
  {
    hide Strip;
    StripTrims(root);
  }

  function ChildPayload(c: Child): Payload
  {
    Payload(Fields(Words(c.parentJobId), Words(c.rootJobId), Int(c.depth), Int(c.sequence), Words("child")), None)
  }

  // ----- the parent's list of children

  datatype Item = Junk | Ref(child: string, lineage: Child)

  /** `child_job_refs.json`: not there, not readable or not an object, or an object whose list may be absent. */
  datatype RefsFile = NoFile | Broken | Listed(refs: Option<seq<Item>>)

  function Items(file: RefsFile): seq<Item>
  {
    if file.Listed? && file.refs.Some? then file.refs.value else []
  }

  function CountRefs(items: seq<Item>): nat
  {
    if items == [] then 0 else CountRefs(items[..|items| - 1]) + if items[|items| - 1].Ref? then 1 else 0
  }

  function NextIndex(file: RefsFile): nat
  {
    CountRefs(Items(file)) + 1
  }

  function Append(file: RefsFile, item: Item): RefsFile
  {
    Listed(Some(Items(file) + [item]))
  }

  /** The next index starts at one; each reference added raises it by one, and no other entry does. */
  lemma NextIndexCounts(file: RefsFile, child: string, c: Child)
    ensures NextIndex(Append(file, Ref(child, c))) == NextIndex(file) + 1
    ensures NextIndex(Append(file, Junk)) == NextIndex(file)
    ensures file == NoFile || file == Broken || file == Listed(None) || file == Listed(Some([])) ==> NextIndex(file) == 1
  {
  }

  // ----- a forest of jobs

  /** Jobs by stem, and each parent's list of children. */
  datatype Forest = Forest(jobs: map<string, Payload>, refs: map<string, RefsFile>)

  function JobId(stem: string): string
  {
    stem + ".json"
  }

  function FileOf(f: Forest, stem: string): RefsFile
  {
    if stem in f.refs then f.refs[stem] else NoFile
  }

  datatype Op = Submit(stem: string, payload: Payload) | Enqueue(parent: string, goal: string, child: string)

  function LineageFor(f: Forest, parent: string): Child
    requires parent in f.jobs
  {
    ComputeChildLineage(JobId(parent), f.jobs[parent]).(sequence := NextIndex(FileOf(f, parent)))
  }

  function Enqueued(f: Forest, parent: string, child: string): Forest
    requires parent in f.jobs
  {
    var c := LineageFor(f, parent);
    Forest(f.jobs[child := ChildPayload(c)], f.refs[parent := Append(FileOf(f, parent), Ref(child, c))])
  }

  /** A name that is taken is not used again: the inbox refuses it, and a child's name is a new one. */
  function Step(f: Forest, op: Op): Forest
  {
    match op
    case Submit(stem, payload) => if stem in f.jobs then f else f.(jobs := f.jobs[stem := payload])
    case Enqueue(parent, goal, child) =>
      if parent !in f.jobs || child in f.jobs || Strip(goal) == [] then f
      else Enqueued(f, parent, child)
  }

  function Grow(f: Forest, ops: seq<Op>): Forest
    decreases |ops|
  {
    if ops == [] then f else Grow(Step(f, ops[0]), ops[1..])
  }

  predicate IsRoot(p: Payload)
  {
    Extract(p).None?
  }

  /** Operators submit jobs without lineage; all others are enqueued by a parent. */
  predicate FromRoots(ops: seq<Op>)
  {
    forall k :: 0 <= k < |ops| && ops[k].Submit? ==> IsRoot(ops[k].payload)
  }

  /** The k-th child of `p` in its list. */
  ghost predicate KthChild(f: Forest, p: string, k: nat, c: string)
  {
    k < |Items(FileOf(f, p))| && Items(FileOf(f, p))[k].Ref? && Items(FileOf(f, p))[k].child == c
  }

  ghost predicate ItemOk(f: Forest, p: string, k: nat)
    requires p in f.jobs && k < |Items(FileOf(f, p))|
  {
    var item := Items(FileOf(f, p))[k];
    && item.Ref? && item.child in f.jobs && f.jobs[item.child] == ChildPayload(item.lineage)
    && item.lineage == ComputeChildLineage(JobId(p), f.jobs[p]).(sequence := k + 1)
  }

  ghost predicate Listing(f: Forest)
  {
    && (forall p :: p in f.refs ==> p in f.jobs)
    && (forall p, k: nat :: p in f.jobs && k < |Items(FileOf(f, p))| ==> ItemOk(f, p, k))
  }

  ghost predicate EveryoneListedOnce(f: Forest)
  {
    && (forall p, k: nat, q, l: nat, c :: KthChild(f, p, k, c) && KthChild(f, q, l, c) ==> p == q && k == l)
    && (forall c :: c in f.jobs && !IsRoot(f.jobs[c]) ==> exists p, k: nat :: KthChild(f, p, k, c))
  }

  ghost predicate Inv(f: Forest)
  {
    Listing(f) && EveryoneListedOnce(f)
  }

  lemma {:induction false} CountAllRefs(items: seq<Item>)
    requires forall k :: 0 <= k < |items| ==> items[k].Ref?
    ensures CountRefs(items) == |items|
  {
    if items != [] { CountAllRefs(items[..|items| - 1]); }
  }

  lemma StepKeeps(f: Forest, op: Op)
    requires Inv(f) && (op.Submit? ==> IsRoot(op.payload))
    ensures Inv(Step(f, op))
  {
    hide ComputeChildLineage, Extract, NextIndex, Strip;
    var g := Step(f, op);
    if g != f {
      forall p ensures FileOf(g, p) == FileOf(f, p) || (op.Enqueue? && p == op.parent) {
      }
      if op.Enqueue? {
        EnqueueKeepsListing(f, op.parent, op.child);
        EnqueueKeepsOnce(f, op.parent, op.child);
      } else {
        SubmitKeeps(f, op.stem, op.payload);
      }
    }
  }

  lemma SubmitKeeps(f: Forest, stem: string, payload: Payload)
    requires Inv(f) && IsRoot(payload) && stem !in f.jobs
    ensures Inv(f.(jobs := f.jobs[stem := payload]))
  {
    hide ComputeChildLineage, IsRoot;
    var g := f.(jobs := f.jobs[stem := payload]);
    assert stem !in f.refs;
    assert forall p :: FileOf(g, p) == FileOf(f, p);
    forall p, k: nat | p in g.jobs && k < |Items(FileOf(g, p))| ensures ItemOk(g, p, k) {
      assert ItemOk(f, p, k);
    }
    forall c | c in g.jobs && !IsRoot(g.jobs[c]) ensures exists p, k: nat :: KthChild(g, p, k, c) {
      var p, k: nat :| KthChild(f, p, k, c);
      assert KthChild(g, p, k, c);
    }
    forall p, k: nat, q, l: nat, c | KthChild(g, p, k, c) && KthChild(g, q, l, c) ensures p == q && k == l {
      assert KthChild(f, p, k, c) && KthChild(f, q, l, c);
    }
  }

  lemma EnqueueKeepsListing(f: Forest, parent: string, child: string)
    requires Inv(f) && parent in f.jobs && child !in f.jobs
    ensures Listing(Enqueued(f, parent, child))
  {
    hide ComputeChildLineage;
    var g := Enqueued(f, parent, child);
    var items := Items(FileOf(f, parent));
    forall k | 0 <= k < |items| ensures items[k].Ref? {
      assert ItemOk(f, parent, k);
    }
    CountAllRefs(items);
    forall p, k: nat | p in g.jobs && k < |Items(FileOf(g, p))| ensures ItemOk(g, p, k) {
      if p == parent && k == |items| {
      } else {
        assert p in f.jobs && k < |Items(FileOf(f, p))|;
        assert ItemOk(f, p, k);
      }
    }
  }

  lemma EnqueueKeepsOnce(f: Forest, parent: string, child: string)
    requires Inv(f) && parent in f.jobs && child !in f.jobs
    ensures EveryoneListedOnce(Enqueued(f, parent, child))
  {
    hide LineageFor, ComputeChildLineage, Extract, IsRoot;
    var g := Enqueued(f, parent, child);
    var n := |Items(FileOf(f, parent))|;
    forall p, k: nat, c | KthChild(g, p, k, c) ensures if p == parent && k == n then c == child else KthChild(f, p, k, c) && c != child {
      if !(p == parent && k == n) {
        assert KthChild(f, p, k, c);
        assert p in f.refs && ItemOk(f, p, k);
      }
    }
    forall c | c in g.jobs && !IsRoot(g.jobs[c]) ensures exists p, k: nat :: KthChild(g, p, k, c) {
      if c == child {
        assert KthChild(g, parent, n, c);
      } else {
        var p, k: nat :| KthChild(f, p, k, c);
        assert KthChild(g, p, k, c);
      }
    }
  }

  lemma {:induction false} GrowKeeps(f: Forest, ops: seq<Op>)
    requires Inv(f) && FromRoots(ops)
    ensures Inv(Grow(f, ops))
    decreases |ops|
  {
    if ops != [] {
      StepKeeps(f, ops[0]);
      GrowKeeps(Step(f, ops[0]), ops[1..]);
    }
  }

  // ----- what the lineage of a grown forest means

  ghost predicate ChildOf(f: Forest, p: string, c: string)
  {
    exists k: nat :: KthChild(f, p, k, c)
  }

  /** A line of descent: a root, a child of it, a child of that, and so on. */
  ghost predicate Descent(f: Forest, line: seq<string>)
  {
    && line != [] && line[0] in f.jobs && IsRoot(f.jobs[line[0]])
    && forall k :: 0 < k < |line| ==> ChildOf(f, line[k - 1], line[k])
  }

  function Depth(p: Payload): nat
  {
    match Extract(p)
    case None => 0
    case Some(m) => m.depth
  }

  /** The root id that the `n`-th generation (n > 0) has in its payload. */
  function RootIdOf(root: string, n: nat): string
  {
    if n == 1 then JobId(root) else Strip(JobId(root))
  }

  lemma JobIdIsNotBlank(stem: string)
    ensures Strip(JobId(stem)) != [] && Strip(Strip(JobId(stem))) == Strip(JobId(stem))
  {
    var id := JobId(stem);
    StripTrims(id);
    StripLeftFacts(id);
    StripRightFacts(StripLeft(id));
    assert id[|id| - 1] == 'n' && !IsSpace(id[|id| - 1]);
    assert StripLeft(id)[|StripLeft(id)| - 1] == 'n';
  }

  lemma ChildIsRecorded(f: Forest, p: string, c: string)
    requires Inv(f) && ChildOf(f, p, c)
    ensures p in f.jobs && c in f.jobs && !IsRoot(f.jobs[c])
    ensures exists n :: f.jobs[c] == ChildPayload(ComputeChildLineage(JobId(p), f.jobs[p]).(sequence := n))
  {
    var k: nat :| KthChild(f, p, k, c);
    assert p in f.refs && ItemOk(f, p, k);
  }

  /** The depth of a job is its distance to the root, and from the second generation on the root's id has been stripped. */
  lemma {:induction false} LineageFollowsDescent(f: Forest, line: seq<string>)
    requires Inv(f) && Descent(f, line)
    ensures line[|line| - 1] in f.jobs
    ensures var n, p := |line| - 1, f.jobs[line[|line| - 1]];
            && Depth(p) == n
            && (n > 0 ==> p.top.parentJobId == Words(JobId(line[n - 1])) && p.top.role == Words("child") && p.top.depth == Int(n))
            && (n > 0 ==> Extract(p).Some? && p.nested.None? && p.top.rootJobId == Words(RootIdOf(line[0], n)))
  {
    hide Strip;
    var n := |line| - 1;
    if n > 0 {
      var front := line[..n];
      LineageFollowsDescent(f, front);
      ChildIsRecorded(f, line[n - 1], line[n]);
      JobIdIsNotBlank(line[0]);
      var m :| f.jobs[line[n]] == ChildPayload(ComputeChildLineage(JobId(line[n - 1]), f.jobs[line[n - 1]]).(sequence := m));
    }
  }

  /** Every job of a grown forest descends from a root. */
  lemma {:induction false} EveryJobDescends(f: Forest, c: string) returns (line: seq<string>)
    requires Inv(f) && c in f.jobs
    ensures Descent(f, line) && line[|line| - 1] == c
    decreases Depth(f.jobs[c])
  {
    hide Strip;
    if IsRoot(f.jobs[c]) {
      line := [c];
    } else {
      var p, k: nat :| KthChild(f, p, k, c);
      assert ChildOf(f, p, c);
      ChildIsRecorded(f, p, c);
      var front := EveryJobDescends(f, p);
      line := front + [c];
    }
  }

  /**
   For forests grown from jobs without lineage: depth is the distance to the root; and a job two or
   more generations down names its root's id exactly when that id has no leading white space.
   */
  lemma GrownLineage(ops: seq<Op>, c: string) returns (line: seq<string>)
    requires FromRoots(ops) && c in Grow(Forest(map[], map[]), ops).jobs
    ensures var f := Grow(Forest(map[], map[]), ops);
            && Descent(f, line) && line[|line| - 1] == c && Depth(f.jobs[c]) == |line| - 1
            && (|line| == 2 ==> f.jobs[c].top.rootJobId == Words(JobId(line[0])))
            && (|line| > 2 ==> (f.jobs[c].top.rootJobId == Words(JobId(line[0])) <==> !IsSpace(JobId(line[0])[0])))
  {
    hide Strip;
    var f := Grow(Forest(map[], map[]), ops);
    GrowKeeps(Forest(map[], map[]), ops);
    line := EveryJobDescends(f, c);
    LineageFollowsDescent(f, line);
    StripTrims(JobId(line[0]));
    var id := JobId(line[0]);
    assert id[|id| - 1] == 'n';
  }

  function ThreeGenerations(a: string, b: string, c: string, payload: Payload): seq<Op>
  {
    [Submit(a, payload), Enqueue(a, "goal", b), Enqueue(b, "goal", c)]
  }

  /** Any job file whose name starts with white space: its grandchild names another root. */
  lemma LeadingSpaceLosesTheRoot(a: string, b: string, c: string, payload: Payload)
    requires IsRoot(payload) && a != b && b != c && c != a && IsSpace(JobId(a)[0])
    ensures var f := Grow(Forest(map[], map[]), ThreeGenerations(a, b, c, payload));
            c in f.jobs && f.jobs[c].top.rootJobId != Words(JobId(a))
  {
    hide IsRoot, LineageFor, Strip;
    StripTrims("goal");
    var ops := ThreeGenerations(a, b, c, payload);
    var f1 := Step(Forest(map[], map[]), ops[0]);
    var f2 := Step(f1, ops[1]);
    var f3 := Step(f2, ops[2]);
    assert ops[1..] == [ops[1], ops[2]] && ops[1..][1..] == [ops[2]] && ops[1..][1..][1..] == [];
    assert Grow(f2, [ops[2]]) == Grow(f3, []);
    assert KthChild(f3, a, 0, b) && KthChild(f3, b, 0, c);
    var line := [a, b, c];
    forall k | 0 < k < |line| ensures ChildOf(f3, line[k - 1], line[k]) {
      assert k == 1 || k == 2;
    }
    GrowKeeps(Forest(map[], map[]), ops);
    assert Grow(Forest(map[], map[]), ops) == f3 && Descent(f3, line);
    hide Inv, Grow, Descent;
    LineageFollowsDescent(f3, line);
    StripTrims(JobId(a));
  }

  /** The children of a parent are numbered 1 to n, without gap or repetition, and none is missing from its list. */
  lemma ChildrenAreNumbered(ops: seq<Op>, p: string)
    requires FromRoots(ops) && p in Grow(Forest(map[], map[]), ops).jobs
    ensures var f := Grow(Forest(map[], map[]), ops);
            var items := Items(FileOf(f, p));
            && (forall k :: 0 <= k < |items| ==>
                  items[k].Ref? && items[k].child in f.jobs && f.jobs[items[k].child].top.sequence == Int(k + 1))
            && (forall c :: c in f.jobs && !IsRoot(f.jobs[c]) && f.jobs[c].top.parentJobId == Words(JobId(p)) ==>
                  exists k: nat :: KthChild(f, p, k, c) && f.jobs[c].top.sequence == Int(k + 1))
  {
    hide Extract, ComputeChildLineage;
    var f := Grow(Forest(map[], map[]), ops);
    var items := Items(FileOf(f, p));
    GrowKeeps(Forest(map[], map[]), ops);
    forall k: nat | k < |items|
      ensures items[k].Ref? && items[k].child in f.jobs && f.jobs[items[k].child].top.sequence == Int(k + 1)
    {
      assert ItemOk(f, p, k);
    }
    forall c | c in f.jobs && !IsRoot(f.jobs[c]) && f.jobs[c].top.parentJobId == Words(JobId(p))
      ensures exists k: nat :: KthChild(f, p, k, c) && f.jobs[c].top.sequence == Int(k + 1)
    {
      var q, k: nat :| KthChild(f, q, k, c);
      assert q in f.refs && ItemOk(f, q, k);
      ParentIdIsKept(JobId(q), f.jobs[q]);
      assert JobId(p)[..|JobId(p)| - 5] == p && JobId(q)[..|JobId(q)| - 5] == q;
    }
  }

  lemma ParentIdIsKept(id: string, parent: Payload)
    ensures ComputeChildLineage(id, parent).parentJobId == id
  {
  }

  class ParentQueue {
    var jobs: map<string, Payload>
    var refs: map<string, RefsFile>

    ghost function Now(): Forest
      reads this
    {
      Forest(jobs, refs)
    }

    method NextChildSequenceIndex(parent: string) returns (index: nat)
      ensures index == NextIndex(FileOf(Now(), parent))
    {
      if parent !in refs || !refs[parent].Listed? || refs[parent].refs.None? {
        return 1;
      }
      var items := refs[parent].refs.value;
      var n := 0;
      for i := 0 to |items|
        invariant n == CountRefs(items[..i])
      {
        assert items[..i + 1][..i] == items[..i];
        if items[i].Ref? { n := n + 1; }
      }
      assert items[..|items|] == items;
      index := n + 1;
    }

    /** None is the error of a blank goal; `child` is the new name of the child's file. */
    method EnqueueChildJobFromParent(parent: string, goal: string, child: string) returns (r: Option<Child>)
      requires parent in jobs && child !in jobs
      modifies this
      ensures Now() == Step(old(Now()), Enqueue(parent, goal, child))
      ensures r.None? <==> Strip(goal) == []
      ensures r.Some? ==> jobs[child] == ChildPayload(r.value) && r.value.parentJobId == JobId(parent)
    {
      if Strip(goal) == [] {
        return None;
      }
      var index := NextChildSequenceIndex(parent);
      var lineage := ComputeChildLineage(JobId(parent), jobs[parent]).(sequence := index);
      jobs := jobs[child := ChildPayload(lineage)];
      var items := if parent in refs && refs[parent].Listed? && refs[parent].refs.Some? then refs[parent].refs.value else [];
      refs := refs[parent := Listed(Some(items + [Ref(child, lineage)]))];
      r := Some(lineage);
    }
  }
}
