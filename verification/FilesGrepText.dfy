/** The `files.grep_text` skill (src/voxera_builtin_skills/files_grep_text.py). */
module FilesGrepText {
  import opened BoundedWalk
  import opened Collections
  import opened FileTree
  import opened Text
  import opened Wrappers

  const MAX_MATCHES_CAP := 2000
  const MAX_FILE_BYTES_CAP := 5_000_000
  const EXCERPT := 240

  datatype Match = Match(path: seq<string>, lineNumber: nat, excerpt: string)

  datatype Tally = Tally(scanned: nat, skippedLarge: nat, skippedBinary: nat)

  datatype Result =
    | EmptyPattern
    | IoError
    | Found(matches: seq<Match>, tally: Tally, truncated: bool)

  datatype Query = Query(pattern: string, caseSensitive: bool, maxBytes: nat)
  {
    predicate Hits(line: string)
    {
      Contains(Fold(line), Fold(pattern))
    }

    function Fold(s: string): string
    {
      if caseSensitive then s else Lower(s)
    }

    function Show(path: seq<string>, number: nat, line: string): Match
    {
      Match(path, number, if |line| <= EXCERPT then line else line[..EXCERPT])
    }

    /** The matching ones among the first `n` lines. */
    function LineMatches(path: seq<string>, lines: seq<string>, n: nat): seq<Match>
      requires n <= |lines|
    {
      if n == 0 then []
      else LineMatches(path, lines, n - 1) + if Hits(lines[n - 1]) then [Show(path, n, lines[n - 1])] else []
    }

    /** What a file of the walk adds to the matches. */
    function FileMatches(w: Walk, e: Entry): seq<Match>
    {
      match w.tree.At(e.id)
      case File(Sized(bytes, Lines(lines))) => if bytes > maxBytes then [] else LineMatches(e.path, lines, |lines|)
      case _ => []
    }

    predicate FileFails(w: Walk, e: Entry)
    {
      match w.tree.At(e.id)
      case File(Sized(bytes, ReadError)) => bytes <= maxBytes
      case _ => false
    }

    /** What a file of the walk adds to the counters. */
    function Count(w: Walk, e: Entry, t: Tally): Tally
    {
      match w.tree.At(e.id)
      case File(NoStat) => t.(scanned := t.scanned + 1)
      case File(Sized(bytes, body)) =>
        if bytes > maxBytes then t.(scanned := t.scanned + 1, skippedLarge := t.skippedLarge + 1)
        else if body.NotUtf8? then t.(scanned := t.scanned + 1, skippedBinary := t.skippedBinary + 1)
        else t.(scanned := t.scanned + 1)
      case _ => t
    }

    function Counts(w: Walk, es: seq<Entry>): Tally
    {
      if es == [] then Tally(0, 0, 0)
      else Count(w, es[|es| - 1], Counts(w, es[..|es| - 1]))
    }
  }

  function GrepHits(w: Walk, q: Query): Entry -> seq<Match>
  {
    (e: Entry) => q.FileMatches(w, e)
  }

  function GrepFails(w: Walk, q: Query): Entry -> bool
  {
    (e: Entry) => Unreadable(w, q, e)
  }

  /** A directory that cannot be listed, or a text file that cannot be read. */
  predicate Unreadable(w: Walk, q: Query, e: Entry)
  {
    w.Fails(e) || q.FileFails(w, e)
  }

  ghost function Answer(w: Walk, q: Query, root: nat, cap: nat): Result
  {
    var p := w.Preorder(RootEntry(root));
    match Consume(p, GrepHits(w, q), GrepFails(w, q), cap, [], 0)
    case Failed => IoError
    case Completed(matches, truncated, n) =>
      Found(matches, if n <= |p| then q.Counts(w, p[..n]) else Tally(0, 0, 0), truncated)
  }

  method GrepText(tree: Tree, root: nat, pattern: string, caseSensitive: bool, maxDepth: int, includeHidden: bool,
                  maxMatches: int, maxFileBytes: int) returns (r: Result)
    ensures r == if Strip(pattern) == "" then EmptyPattern
                 else Answer(Walk(tree, Clamp(maxDepth, 0, 32), includeHidden),
                             Query(pattern, caseSensitive, Clamp(maxFileBytes, 1, 5_000_000)), root,
                             Clamp(maxMatches, 1, 2000))
  {
    if Strip(pattern) == "" {
      return EmptyPattern;
    }
    r := Search(WalkOf(tree, maxDepth, includeHidden),
                Query(pattern, caseSensitive, Clamp(maxFileBytes, 1, MAX_FILE_BYTES_CAP)), root,
                Clamp(maxMatches, 1, MAX_MATCHES_CAP));
  }

  /** The loop's state `n` entries into the preorder, on its way to `goal`. */
  ghost predicate Midway(w: Walk, q: Query, cap: nat, whole: seq<Entry>, n: nat, stack: seq<Entry>,
                         matches: seq<Match>, tally: Tally, goal: Outcome<Match>)
  {
    && n <= |whole| && w.Remaining(stack) == whole[n..]
    && goal == Consume(whole[n..], GrepHits(w, q), GrepFails(w, q), cap, matches, n)
    && tally == q.Counts(w, whole[..n])
  }

  lemma MidwayStarts(w: Walk, q: Query, cap: nat, root: nat)
    ensures var whole := w.Preorder(RootEntry(root));
            Midway(w, q, cap, whole, 0, [RootEntry(root)], [], Tally(0, 0, 0),
                   Consume(whole, GrepHits(w, q), GrepFails(w, q), cap, [], 0))
  {
  }

  lemma MidwayStep(w: Walk, q: Query, cap: nat, whole: seq<Entry>, n: nat, rest: seq<Entry>, current: Entry,
                   matches: seq<Match>, tally: Tally, goal: Outcome<Match>)
    requires Midway(w, q, cap, whole, n, rest + [current], matches, tally, goal)
    ensures n < |whole|
    ensures |w.Remaining(rest + w.Pushed(current))| < |w.Remaining(rest + [current])|
    ensures q.Count(w, current, tally) == q.Counts(w, whole[..n + 1])
    ensures var all := matches + q.FileMatches(w, current);
            if |all| >= cap then goal == Completed(all[..cap], true, n + 1)
            else if w.Fails(current) || q.FileFails(w, current) then goal == Failed
            else Midway(w, q, cap, whole, n + 1, rest + w.Pushed(current), all, q.Count(w, current, tally), goal)
  {
    PopUnfolds(w, rest, current);
    assert whole[n] == whole[n..][0] == current;
    assert whole[n..][1..] == whole[n + 1..];
    assert whole[..n + 1][..n] == whole[..n];
  }

  lemma {:induction false} LineMatchesGrow(q: Query, path: seq<string>, lines: seq<string>, k: nat, n: nat)
    requires k <= n <= |lines|
    ensures q.LineMatches(path, lines, k) <= q.LineMatches(path, lines, n)
  {
    hide Query.Hits, Query.Show;
    if k < n {
      LineMatchesGrow(q, path, lines, k, n - 1);
    }
  }

  /** The inner loop over one file's lines, stopping at the cap. */
  method SearchLines(q: Query, path: seq<string>, lines: seq<string>, cap: nat, found: seq<Match>)
    returns (matches: seq<Match>)
    requires |found| < cap
    ensures var all := found + q.LineMatches(path, lines, |lines|);
            matches == if |all| >= cap then all[..cap] else all
  {
    hide Query.Hits, Query.Show;
    matches := found;
    for k := 0 to |lines|
      invariant matches == found + q.LineMatches(path, lines, k)
      invariant |matches| < cap
    {
      if !q.Hits(lines[k]) {
        continue;
      }
      Associate(found, q.LineMatches(path, lines, k), [q.Show(path, k + 1, lines[k])]);
      matches := matches + [q.Show(path, k + 1, lines[k])];
      if |matches| >= cap {
        LineMatchesGrow(q, path, lines, k + 1, |lines|);
        return matches;
      }
    }
  }

  /** Read one entry of the walk: its matches, the counters, and whether reading failed. */
  method Examine(w: Walk, q: Query, e: Entry, cap: nat, found: seq<Match>, tally: Tally)
    returns (matches: seq<Match>, counted: Tally, failed: bool)
    requires |found| < cap
    ensures var all := found + q.FileMatches(w, e);
            matches == if |all| >= cap then all[..cap] else all
    ensures counted == q.Count(w, e, tally)
    ensures failed == q.FileFails(w, e)
  {
    matches, counted, failed := found, tally, false;
    match w.tree.At(e.id) {
      case File(content) =>
        counted := counted.(scanned := counted.scanned + 1);
        match content {
          case NoStat =>
          case Sized(bytes, body) =>
            if bytes > q.maxBytes {
              counted := counted.(skippedLarge := counted.skippedLarge + 1);
            } else {
              match body {
                case NotUtf8 => counted := counted.(skippedBinary := counted.skippedBinary + 1);
                case ReadError => failed := true;
                case Lines(lines) => matches := SearchLines(q, e.path, lines, cap, found);
              }
            }
        }
      case _ =>
    }
  }

  method Search(w: Walk, q: Query, root: nat, cap: nat) returns (r: Result)
    requires cap > 0
    ensures r == Answer(w, q, root, cap)
  {
    var matches: seq<Match> := [];
    var tally := Tally(0, 0, 0);
    var stack := [RootEntry(root)];
    ghost var whole := w.Preorder(RootEntry(root));
    ghost var goal := Consume(whole, GrepHits(w, q), GrepFails(w, q), cap, [], 0);
    ghost var n := 0;
    MidwayStarts(w, q, cap, root);
    while stack != []
      invariant Midway(w, q, cap, whole, n, stack, matches, tally, goal)
      invariant |matches| < cap
      decreases |w.Remaining(stack)|
    {
      var current, rest := stack[|stack| - 1], stack[..|stack| - 1];
      assert stack == rest + [current];
      MidwayStep(w, q, cap, whole, n, rest, current, matches, tally, goal);
      n := n + 1;
      var failed;
      matches, tally, failed := Examine(w, q, current, cap, matches, tally);
      if |matches| >= cap {
        return Found(matches, tally, true);
      }
      if failed {
        return IoError;
      }
      var next := Expand(w, current, rest);
      if next.None? {
        return IoError;
      }
      stack := next.value;
    }
    return Found(matches, tally, false);
  }

  /** The position of a match: its file in the preorder and its line. */
  ghost predicate IsLineOf(w: Walk, q: Query, e: Entry, m: Match)
  {
    match w.tree.At(e.id)
    case File(Sized(bytes, Lines(lines))) =>
      && bytes <= q.maxBytes && m.path == e.path && 1 <= m.lineNumber <= |lines|
      && var line := lines[m.lineNumber - 1];
         && (if q.caseSensitive then Contains(line, q.pattern) else Contains(Lower(line), Lower(q.pattern)))
         && m.excerpt == if |line| <= 240 then line else line[..240]
    case _ => false
  }

  lemma {:induction false} LineMatchesAreLines(q: Query, path: seq<string>, lines: seq<string>, n: nat, m: Match)
    requires n <= |lines|
    ensures m in q.LineMatches(path, lines, n) <==>
      1 <= m.lineNumber <= n && q.Hits(lines[m.lineNumber - 1]) &&
      m == q.Show(path, m.lineNumber, lines[m.lineNumber - 1])
  {
    hide Query.Hits;
    if n > 0 {
      LineMatchesAreLines(q, path, lines, n - 1, m);
    }
  }

  lemma {:induction false} LineMatchesAscend(q: Query, path: seq<string>, lines: seq<string>, n: nat, i: nat, j: nat)
    requires n <= |lines|
    requires i < j < |q.LineMatches(path, lines, n)|
    ensures q.LineMatches(path, lines, n)[i].lineNumber < q.LineMatches(path, lines, n)[j].lineNumber
  {
    hide Query.Hits;
    var before := q.LineMatches(path, lines, n - 1);
    if j < |before| {
      LineMatchesAscend(q, path, lines, n - 1, i, j);
    } else {
      assert before[i] in before;
      LineMatchesAreLines(q, path, lines, n - 1, before[i]);
    }
  }

  /** A file contributes each of its matching lines once, in line order, and nothing else. */
  lemma FileMatchesAreItsLines(w: Walk, q: Query, e: Entry)
    ensures forall m :: m in q.FileMatches(w, e) <==> IsLineOf(w, q, e, m)
    ensures var ms := q.FileMatches(w, e);
            forall i, j :: 0 <= i < j < |ms| ==> ms[i].lineNumber < ms[j].lineNumber
  {
    var ms := q.FileMatches(w, e);
    match w.tree.At(e.id)
    case File(Sized(bytes, Lines(lines))) =>
      if bytes <= q.maxBytes {
        forall m ensures m in ms <==> IsLineOf(w, q, e, m) {
          LineMatchesAreLines(q, e.path, lines, |lines|, m);
        }
        forall i, j | 0 <= i < j < |ms| ensures ms[i].lineNumber < ms[j].lineNumber {
          LineMatchesAscend(q, e.path, lines, |lines|, i, j);
        }
      }
    case _ =>
  }

  ghost function NumberOf(es: seq<Entry>, p: Entry -> bool): nat
  {
    if es == [] then 0 else NumberOf(es[..|es| - 1], p) + if p(es[|es| - 1]) then 1 else 0
  }

  predicate IsFile(w: Walk, e: Entry)
  {
    w.tree.At(e.id).File?
  }

  predicate IsLarge(w: Walk, q: Query, e: Entry)
  {
    IsFile(w, e) && w.tree.At(e.id).content.Sized? && w.tree.At(e.id).content.bytes > q.maxBytes
  }

  predicate IsBinary(w: Walk, q: Query, e: Entry)
  {
    IsFile(w, e) && !IsLarge(w, q, e) && w.tree.At(e.id).content.Sized? && w.tree.At(e.id).content.body.NotUtf8?
  }

  /** The counters are the numbers of files, of files over the size limit, and of others that are not text. */
  lemma {:induction false} CountersCountFiles(w: Walk, q: Query, es: seq<Entry>)
    ensures q.Counts(w, es) ==
            Tally(NumberOf(es, e => IsFile(w, e)), NumberOf(es, e => IsLarge(w, q, e)), NumberOf(es, e => IsBinary(w, q, e)))
  {
    if es != [] { CountersCountFiles(w, q, es[..|es| - 1]); }
  }

  /** The `k`-th entry is unreadable, and up to it the cap has not been reached. */
  predicate StopsAt(w: Walk, q: Query, p: seq<Entry>, cap: nat, k: nat)
  {
    && k < |p|
    && (match w.tree.At(p[k].id)
        case Unreadable => p[k].depth < w.maxDepth
        case File(Sized(bytes, ReadError)) => bytes <= q.maxBytes
        case _ => false)
    && RoomAfter(p, GrepHits(w, q), cap, [], k)
  }

  ghost predicate Stops(w: Walk, q: Query, p: seq<Entry>, cap: nat)
  {
    exists k: nat :: StopsAt(w, q, p, cap, k)
  }

  /**
   The result is the first `cap` matches of the file-by-file, line-by-line enumeration of the preorder,
   unless something unreadable comes before the cap is reached.
   */
  lemma GrepTakesFirstMatches(w: Walk, q: Query, root: nat, cap: nat)
    requires cap > 0
    ensures var p := w.Preorder(RootEntry(root));
            var all := Gather(p, GrepHits(w, q));
            match Answer(w, q, root, cap)
            case Found(matches, tally, truncated) =>
              && matches == (if |all| >= cap then all[..cap] else all)
              && (truncated <==> |all| >= cap)
              && (!truncated ==> tally == q.Counts(w, p))
              && !Stops(w, q, p, cap)
            case IoError => Stops(w, q, p, cap)
            case EmptyPattern => false
  {
    var p := w.Preorder(RootEntry(root));
    ConsumeTakesFirstHits(p, GrepHits(w, q), GrepFails(w, q), cap);
    if Answer(w, q, root, cap).IoError? {
      var k: nat :| k < |p| && GrepFails(w, q)(p[k]) && RoomAfter(p, GrepHits(w, q), cap, [], k);
      assert StopsAt(w, q, p, cap, k);
    }
    assert p[..|p|] == p;
  }
}
