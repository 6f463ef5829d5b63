/** The `files.find` skill (src/voxera_builtin_skills/files_find.py). */
module FilesFind {
  import opened BoundedWalk
  import opened FileTree
  import FilesListTree
  import opened Sorting
  import opened Text
  import opened Wrappers

  const MAX_RESULTS_CAP := 1000

  datatype Found = Found(path: seq<string>, isDir: bool, depth: nat)

  datatype Result =
    | NotADirectory
    | IoError
    | Matches(results: seq<Found>, scanned: nat, truncated: bool)

  function Name(e: Entry): string
  {
    if e.path == [] then "" else e.path[|e.path| - 1]
  }

  /** `glob` stands for the library's path matching. */
  datatype Filter = Filter(glob: seq<string> -> bool, nameContains: string)
  {
    predicate Keeps(e: Entry)
    {
      glob(e.path) && (nameContains == "" || Contains(Lower(Name(e)), nameContains))
    }
  }

  function FilterOf(glob: seq<string> -> bool, nameContains: Option<string>): Filter
  {
    Filter(glob, if nameContains.None? then "" else Lower(Strip(nameContains.value)))
  }

  function Show(w: Walk, e: Entry): Found
  {
    Found(e.path, w.tree.IsDir(e.id), e.depth)
  }

  /** The root itself is never a candidate. */
  function FindHits(w: Walk, f: Filter): Entry -> seq<Found>
  {
    (e: Entry) => if e.path != [] && f.Keeps(e) then [Show(w, e)] else []
  }

  function Candidates(es: seq<Entry>): nat
  {
    if es == [] then 0
    else Candidates(es[..|es| - 1]) + if es[|es| - 1].path != [] then 1 else 0
  }

  ghost function Answer(w: Walk, f: Filter, root: nat, cap: nat): Result
  {
    var p := w.Preorder(RootEntry(root));
    match Consume(p, FindHits(w, f), FailsOn(w), cap, [], 0)
    case Failed => IoError
    case Completed(results, truncated, n) => Matches(results, if n <= |p| then Candidates(p[..n]) else 0, truncated)
  }

  /** The loop's state `n` entries into the preorder, on its way to `goal`. */
  ghost predicate Midway(w: Walk, f: Filter, cap: nat, whole: seq<Entry>, n: nat, stack: seq<Entry>,
                         results: seq<Found>, scanned: nat, goal: Outcome<Found>)
  {
    && n <= |whole| && w.Remaining(stack) == whole[n..]
    && goal == Consume(whole[n..], FindHits(w, f), FailsOn(w), cap, results, n)
    && scanned == Candidates(whole[..n])
  }

  lemma MidwayStarts(w: Walk, f: Filter, cap: nat, root: nat)
    ensures var whole := w.Preorder(RootEntry(root));
            Midway(w, f, cap, whole, 0, [RootEntry(root)], [], 0,
                   Consume(whole, FindHits(w, f), FailsOn(w), cap, [], 0))
  {
  }

  lemma MidwayEnds(w: Walk, f: Filter, cap: nat, whole: seq<Entry>, n: nat, results: seq<Found>, scanned: nat,
                   goal: Outcome<Found>)
    requires Midway(w, f, cap, whole, n, [], results, scanned, goal)
    ensures n == |whole| && goal == Completed(results, false, n)
    ensures scanned == Candidates(whole[..n])
  {
  }

  /** One round of the loop. */
  lemma MidwayStep(w: Walk, f: Filter, cap: nat, whole: seq<Entry>, n: nat, rest: seq<Entry>, current: Entry,
                   results: seq<Found>, scanned: nat, goal: Outcome<Found>)
    requires Midway(w, f, cap, whole, n, rest + [current], results, scanned, goal)
    ensures n < |whole|
    ensures |w.Remaining(rest + w.Pushed(current))| < |w.Remaining(rest + [current])|
    ensures var scanned' := scanned + if current.path != [] then 1 else 0;
            var results' := results + FindHits(w, f)(current);
            && scanned' == Candidates(whole[..n + 1])
            && if |results'| >= cap then goal == Completed(results'[..cap], true, n + 1)
               else if w.Fails(current) then goal == Failed
               else Midway(w, f, cap, whole, n + 1, rest + w.Pushed(current), results', scanned', goal)
  {
    PopUnfolds(w, rest, current);
    assert whole[n] == whole[n..][0] == current;
    assert whole[n..][1..] == whole[n + 1..];
    assert whole[..n + 1][..n] == whole[..n];
  }

  method Find(tree: Tree, root: nat, glob: seq<string> -> bool, nameContains: Option<string>,
              maxDepth: int, includeHidden: bool, maxResults: int) returns (r: Result)
    ensures var w := Walk(tree, Clamp(maxDepth, 0, 32), includeHidden);
            var f := Filter(glob, if nameContains.None? then "" else Lower(Strip(nameContains.value)));
            r == if tree.IsDir(root) then Answer(w, f, root, Clamp(maxResults, 1, 1000)) else NotADirectory
  {
    if !tree.IsDir(root) {
      return NotADirectory;
    }
    r := Search(WalkOf(tree, maxDepth, includeHidden), FilterOf(glob, nameContains), root,
                Clamp(maxResults, 1, MAX_RESULTS_CAP));
  }

  method Search(w: Walk, f: Filter, root: nat, cap: nat) returns (r: Result)
    requires cap > 0
    ensures r == Answer(w, f, root, cap)
  {
    hide Midway, Walk.Remaining, Walk.Preorder, Walk.Pushed;
    var results: seq<Found> := [];
    var scanned, truncated := 0, false;
    var stack := [RootEntry(root)];
    ghost var whole := w.Preorder(RootEntry(root));
    ghost var goal := Consume(whole, FindHits(w, f), FailsOn(w), cap, [], 0);
    ghost var n := 0;
    MidwayStarts(w, f, cap, root);
    while stack != []
      invariant Midway(w, f, cap, whole, n, stack, results, scanned, goal)
      invariant |results| < cap && !truncated
      decreases |w.Remaining(stack)|
    {
      var current, rest := stack[|stack| - 1], stack[..|stack| - 1];
      assert stack == rest + [current];
      MidwayStep(w, f, cap, whole, n, rest, current, results, scanned, goal);
      n := n + 1;
      var hit := current.path != [] && f.Keeps(current);
      if current.path != [] {
        scanned := scanned + 1;
      }
      results := results + if hit then [Show(w, current)] else [];
      if |results| >= cap {
        truncated := true;
        assert results[..cap] == results;
        return Matches(results, scanned, truncated);
      }
      var next := Expand(w, current, rest);
      if next.None? {
        return IoError;
      }
      stack := next.value;
    }
    MidwayEnds(w, f, cap, whole, n, results, scanned, goal);
    return Matches(results, scanned, truncated);
  }

  /** Only the first entry of the preorder is the root. */
  lemma RootComesFirst(w: Walk, root: nat)
    ensures var p := w.Preorder(RootEntry(root));
            p != [] && p[0] == RootEntry(root) && forall i :: 0 < i < |p| ==> p[i].path != []
  {
    var e := RootEntry(root);
    var p := w.Preorder(e);
    if w.Opens(e) {
      var children := Reverse(w.Pushed(e));
      ReverseKeepsDepth(w.Pushed(e), 1);
      forall i | 0 < i < |p| ensures p[i].path != [] {
        ForestIsReachable(w, children, 1, p[i]);
        assert p[i] == w.Forest(children, 1)[i - 1];
        var c :| c in children && Leads(w, c, p[i]);
        PushedMembers(w, e, c);
        LeadsDeeper(w, c, p[i]);
      }
    }
  }

  /** What a listed entry looks like among find's results. */
  function AsFound(l: FilesListTree.Listed): Found
  {
    Found(l.path, l.isDir, l.depth)
  }

  function AllAsFound(ls: seq<FilesListTree.Listed>): (r: seq<Found>)
    ensures |r| == |ls|
  {
    if ls == [] then [] else AllAsFound(ls[..|ls| - 1]) + [AsFound(ls[|ls| - 1])]
  }

  /** The two outcomes say the same, a listing carrying the root in addition. */
  ghost predicate Agree(found: Outcome<Found>, listed: Outcome<FilesListTree.Listed>)
  {
    match (found, listed)
    case (Failed, Failed) => true
    case (Completed(fs, ft, fn), Completed(ls, lt, ln)) =>
      ft == lt && fn == ln && ls != [] && fs == AllAsFound(ls)[1..]
    case _ => false
  }

  lemma {:induction false} TailsAgree(w: Walk, f: Filter, es: seq<Entry>, cap: nat, fs: seq<Found>,
                                      ls: seq<FilesListTree.Listed>, n: nat)
    requires forall e :: f.Keeps(e)
    requires forall i :: 0 <= i < |es| ==> es[i].path != []
    requires ls != [] && fs == AllAsFound(ls)[1..] && |fs| < cap
    ensures Agree(Consume(es, FindHits(w, f), FailsOn(w), cap, fs, n),
                  Consume(es, FilesListTree.ListHits(w), FailsOn(w), cap + 1, ls, n))
  {
    if es != [] {
      assert f.Keeps(es[0]);
      var fs', ls' := fs + FindHits(w, f)(es[0]), ls + FilesListTree.ListHits(w)(es[0]);
      assert ls'[..|ls'| - 1] == ls;
      assert AllAsFound(ls') == AllAsFound(ls) + [Show(w, es[0])];
      assert fs' == AllAsFound(ls')[1..];
      if |fs'| >= cap {
        assert fs'[..cap] == fs' && ls'[..cap + 1] == ls';
      } else if !w.Fails(es[0]) {
        TailsAgree(w, f, es[1..], cap, fs', ls', n + 1);
      }
    }
  }

  /** A find that keeps everything is a listing with room for one entry more, without the root. */
  lemma FindAllIsListing(w: Walk, root: nat, f: Filter, cap: nat)
    requires cap > 0
    requires forall e :: f.Keeps(e)
    ensures var p := w.Preorder(RootEntry(root));
            Agree(Consume(p, FindHits(w, f), FailsOn(w), cap, [], 0),
                  Consume(p, FilesListTree.ListHits(w), FailsOn(w), cap + 1, [], 0))
  {
    var p := w.Preorder(RootEntry(root));
    RootComesFirst(w, root);
    var first := [FilesListTree.Show(w, p[0])];
    assert [] + FilesListTree.ListHits(w)(p[0]) == first;
    assert AllAsFound(first) == [AsFound(first[0])];
    if !w.Fails(p[0]) {
      TailsAgree(w, f, p[1..], cap, [], first, 1);
    }
  }

  predicate Kept(f: Filter, e: Entry)
  {
    && e.path != [] && f.glob(e.path)
    && (f.nameContains == "" || Contains(Lower(e.path[|e.path| - 1]), f.nameContains))
  }

  function KeptEntries(f: Filter, es: seq<Entry>): seq<Entry>
  {
    if es == [] then []
    else (if Kept(f, es[0]) then [es[0]] else []) + KeptEntries(f, es[1..])
  }

  lemma {:induction false} GatherKeeps(w: Walk, f: Filter, es: seq<Entry>)
    ensures var kept := KeptEntries(f, es);
            |Gather(es, FindHits(w, f))| == |kept| &&
            forall i :: 0 <= i < |kept| ==> Gather(es, FindHits(w, f))[i] == Show(w, kept[i])
  {
    if es != [] {
      GatherKeeps(w, f, es[1..]);
    }
  }

  lemma {:induction false} NonRootsAreCandidates(es: seq<Entry>)
    requires es != [] && es[0].path == []
    requires forall i :: 0 < i < |es| ==> es[i].path != []
    ensures Candidates(es) == |es| - 1
  {
    if |es| > 1 {
      NonRootsAreCandidates(es[..|es| - 1]);
    } else {
      assert es[..0] == [];
    }
  }

  ghost predicate CannotOpen(w: Walk, e: Entry)
  {
    w.tree.At(e.id).Unreadable? && e.depth < w.maxDepth
  }

  /** The first `cap` entries after the root that pass the filters; every entry read but the root was scanned. */
  lemma FindTakesFirstMatches(w: Walk, root: nat, f: Filter, cap: nat)
    requires cap > 0
    ensures var p := w.Preorder(RootEntry(root));
            var kept := KeptEntries(f, p);
            match Consume(p, FindHits(w, f), FailsOn(w), cap, [], 0)
            case Failed => exists i :: 0 <= i < |p| && CannotOpen(w, p[i]) && |KeptEntries(f, p[..i + 1])| < cap
            case Completed(results, truncated, consumed) =>
              && (forall i :: 0 <= i < |p| && CannotOpen(w, p[i]) ==> |KeptEntries(f, p[..i + 1])| >= cap)
              && |results| == (if |kept| < cap then |kept| else cap)
              && (forall i :: 0 <= i < |results| ==> results[i] == Show(w, kept[i]))
              && (truncated <==> |kept| >= cap)
              && 0 < consumed <= |p| && Candidates(p[..consumed]) == consumed - 1
  {
    hide Walk.Preorder, Walk.Pushed, Filter.Keeps;
    var p := w.Preorder(RootEntry(root));
    RootComesFirst(w, root);
    ConsumeTakesFirstHits(p, FindHits(w, f), FailsOn(w), cap);
    GatherKeeps(w, f, p);
    forall k | 0 <= k < |p|
      ensures RoomAfter(p, FindHits(w, f), cap, [], k) <==> |KeptEntries(f, p[..k + 1])| < cap
    {
      GatherKeeps(w, f, p[..k + 1]);
    }
    match Consume(p, FindHits(w, f), FailsOn(w), cap, [], 0)
    case Failed =>
    case Completed(_, _, consumed) => NonRootsAreCandidates(p[..consumed]);
  }
}
