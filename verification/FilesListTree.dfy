/** The `files.list_tree` skill (src/voxera_builtin_skills/files_list_tree.py). */
module FilesListTree {
  import opened BoundedWalk
  import opened FileTree
  import opened Wrappers

  const MAX_ENTRIES_CAP := 2000

  datatype Listed = Listed(path: seq<string>, depth: nat, isDir: bool)

  datatype Result =
    | NotADirectory
    | IoError
    | Listing(entries: seq<Listed>, directories: nat, files: nat, truncated: bool)

  function Show(w: Walk, e: Entry): Listed
  {
    Listed(e.path, e.depth, w.tree.IsDir(e.id))
  }

  function ListHits(w: Walk): Entry -> seq<Listed>
  {
    (e: Entry) => [Show(w, e)]
  }

  function Directories(es: seq<Listed>): (n: nat)
    ensures n <= |es|
  {
    if es == [] then 0
    else Directories(es[..|es| - 1]) + if es[|es| - 1].isDir then 1 else 0
  }

  ghost function Answer(w: Walk, root: nat, cap: nat): Result
  {
    match Consume(w.Preorder(RootEntry(root)), ListHits(w), FailsOn(w), cap, [], 0)
    case Failed => IoError
    case Completed(entries, truncated, _) =>
      Listing(entries, Directories(entries), |entries| - Directories(entries),
              truncated)
  }

  method ListTree(tree: Tree, root: nat, maxDepth: int, includeHidden: bool, maxEntries: int) returns (r: Result)
    ensures r == if tree.IsDir(root)
                 then Answer(Walk(tree, Clamp(maxDepth, 0, 32), includeHidden), root, Clamp(maxEntries, 1, 2000))
                 else NotADirectory
  {
    if !tree.IsDir(root) {
      return NotADirectory;
    }
    r := List(WalkOf(tree, maxDepth, includeHidden), root, Clamp(maxEntries, 1, MAX_ENTRIES_CAP));
  }

  /** The loop's state on its way to `goal`. */
  ghost predicate Midway(w: Walk, cap: nat, stack: seq<Entry>, entries: seq<Listed>, directories: nat, files: nat,
                         goal: Outcome<Listed>)
  {
    && goal == Consume(w.Remaining(stack), ListHits(w), FailsOn(w), cap, entries, |entries|)
    && directories == Directories(entries) && directories + files == |entries|
  }

  lemma MidwayStarts(w: Walk, cap: nat, root: nat)
    ensures Midway(w, cap, [RootEntry(root)], [], 0, 0,
                   Consume(w.Preorder(RootEntry(root)), ListHits(w), FailsOn(w), cap, [], 0))
  {
    assert [] + [RootEntry(root)] == [RootEntry(root)];
    RemainingTop(w, [], RootEntry(root));
    assert w.Remaining([RootEntry(root)]) == w.Preorder(RootEntry(root));
  }

  lemma MidwayStep(w: Walk, cap: nat, rest: seq<Entry>, current: Entry, entries: seq<Listed>, directories: nat,
                   files: nat, goal: Outcome<Listed>)
    requires Midway(w, cap, rest + [current], entries, directories, files, goal)
    ensures |w.Remaining(rest + w.Pushed(current))| < |w.Remaining(rest + [current])|
    ensures var more := entries + [Show(w, current)];
            var dir := if w.tree.IsDir(current.id) then 1 else 0;
            && directories + dir == Directories(more)
            && if |more| >= cap then goal == Completed(more[..cap], true, |more|)
               else if w.Fails(current) then goal == Failed
               else Midway(w, cap, rest + w.Pushed(current), more, directories + dir, files + 1 - dir, goal)
  {
    PopUnfolds(w, rest, current);
    var after := w.Remaining(rest + w.Pushed(current));
    assert ([current] + after)[1..] == after;
    var more := entries + [Show(w, current)];
    assert more[..|more| - 1] == entries;
  }

  method List(w: Walk, root: nat, cap: nat) returns (r: Result)
    requires cap > 0
    ensures r == Answer(w, root, cap)
  {
    var entries: seq<Listed> := [];
    var directories, files := 0, 0;
    var stack := [RootEntry(root)];
    ghost var goal := Consume(w.Preorder(RootEntry(root)), ListHits(w), FailsOn(w), cap, [], 0);
    MidwayStarts(w, cap, root);
    while stack != []
      invariant Midway(w, cap, stack, entries, directories, files, goal)
      invariant |entries| < cap
      decreases |w.Remaining(stack)|
    {
      var current, rest := stack[|stack| - 1], stack[..|stack| - 1];
      assert stack == rest + [current];
      MidwayStep(w, cap, rest, current, entries, directories, files, goal);
      if w.tree.IsDir(current.id) {
        directories := directories + 1;
      } else {
        files := files + 1;
      }
      entries := entries + [Show(w, current)];
      assert entries[..|entries|] == entries;
      if |entries| >= cap {
        return Listing(entries, directories, files, true);
      }
      var next := Expand(w, current, rest);
      if next.None? {
        return IoError;
      }
      stack := next.value;
    }
    return Listing(entries, directories, files, false);
  }

  lemma {:induction false} GatherShows(w: Walk, es: seq<Entry>)
    ensures |Gather(es, ListHits(w))| == |es|
    ensures forall i :: 0 <= i < |es| ==> Gather(es, ListHits(w))[i] == Show(w, es[i])
  {
    if es != [] {
      GatherShows(w, es[1..]);
    }
  }

  function DirectoryPositions(es: seq<Listed>): set<nat>
  {
    set i: nat | i < |es| && es[i].isDir
  }

  lemma {:induction false} DirectoriesAreCounted(es: seq<Listed>)
    ensures Directories(es) == |DirectoryPositions(es)|
  {
    if es != [] {
      var n := |es| - 1;
      DirectoriesAreCounted(es[..n]);
      var before := DirectoryPositions(es[..n]);
      assert DirectoryPositions(es) == if es[n].isDir then before + {n} else before;
    }
  }

  /** An unreadable directory comes before the cap is reached. */
  ghost predicate Stops(w: Walk, p: seq<Entry>, cap: nat)
  {
    exists i :: 0 <= i < |p| && i + 1 < cap && w.tree.At(p[i].id).Unreadable? && p[i].depth < w.maxDepth
  }

  /**
   The listing is the first `cap` entries of the depth-limited preorder, files and directories add up,
   `truncated` says that the preorder has at least that many, and listing fails exactly when an unreadable
   directory has to be opened before the cap is reached.
   */
  lemma ListingIsCappedPreorder(w: Walk, root: nat, cap: nat)
    requires cap > 0
    ensures var p := w.Preorder(RootEntry(root));
            match Answer(w, root, cap)
            case IoError => Stops(w, p, cap)
            case Listing(entries, directories, files, truncated) =>
              && !Stops(w, p, cap)
              && |entries| == (if |p| < cap then |p| else cap)
              && (forall i :: 0 <= i < |entries| ==> entries[i] == Show(w, p[i]))
              && directories == |DirectoryPositions(entries)| && directories + files == |entries|
              && (truncated <==> |p| >= cap)
            case NotADirectory => false
  {
    hide Directories, DirectoryPositions;
    var p := w.Preorder(RootEntry(root));
    ConsumeTakesFirstHits(p, ListHits(w), FailsOn(w), cap);
    forall k | 0 <= k < |p| ensures RoomAfter(p, ListHits(w), cap, [], k) <==> k + 1 < cap {
      GatherShows(w, p[..k + 1]);
    }
    GatherShows(w, p);
    var answer := Answer(w, root, cap);
    if answer.IoError? {
      var k :| 0 <= k < |p| && FailsOn(w)(p[k]) && RoomAfter(p, ListHits(w), cap, [], k);
      assert w.Fails(p[k]) && k + 1 < cap;
    }
    if answer.Listing? {
      DirectoriesAreCounted(answer.entries);
    }
  }
}
