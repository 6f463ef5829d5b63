/**
 The file tree the walking skills see, as a graph: a directory lists names with the nodes they
 resolve to, so a symbolic link to a directory may close a cycle. A walk is depth-first and pushes
 children in descending order.
 */
module FileTree {
  import opened Collections
  import opened Sorting
  import opened Text
  import opened Wrappers

  /** What reading a regular file can give. */
  datatype Content = NoStat | Sized(bytes: nat, body: Body)

  datatype Body = Lines(lines: seq<string>) | NotUtf8 | ReadError

  datatype Link = Link(name: string, target: nat)

  datatype Node = Directory(links: seq<Link>) | Unreadable | File(content: Content) | Special

  datatype Tree = Tree(nodes: map<nat, Node>)
  {
    /** A dangling link is neither a file nor a directory. */
    function At(id: nat): Node
    {
      if id in nodes then nodes[id] else Special
    }

    predicate IsDir(id: nat)
    {
      At(id).Directory? || At(id).Unreadable?
    }
  }

  /** A path below the walk's root, the node it resolves to, and its distance from the root. */
  datatype Entry = Entry(path: seq<string>, id: nat, depth: nat)

  predicate AllAt(es: seq<Entry>, depth: nat)
  {
    forall i :: 0 <= i < |es| ==> es[i].depth == depth
  }

  lemma ReverseKeepsDepth(es: seq<Entry>, depth: nat)
    requires AllAt(es, depth)
    ensures AllAt(Reverse(es), depth)
  {
  }

  datatype Walk = Walk(tree: Tree, maxDepth: nat, includeHidden: bool)
  {
    /** The directories the walk tries to list. */
    predicate Opens(e: Entry)
    {
      tree.IsDir(e.id) && e.depth < maxDepth
    }

    predicate Fails(e: Entry)
    {
      Opens(e) && tree.At(e.id).Unreadable?
    }

    /** The children in the order in which they are pushed: descending by lower-case name. */
    function Pushed(e: Entry): (r: seq<Entry>)
      ensures AllAt(r, e.depth + 1)
    {
      if Opens(e) && tree.At(e.id).Directory? then
        Visible(e, SortBy(tree.At(e.id).links, NameDescending))
      else
        []
    }

    function Visible(e: Entry, links: seq<Link>): (r: seq<Entry>)
      ensures AllAt(r, e.depth + 1)
    {
      if links == [] then []
      else (if Shown(links[0]) then [Child(e, links[0])] else []) + Visible(e, links[1..])
    }

    predicate Shown(link: Link)
    {
      includeHidden || !("." <= link.name)
    }

    function Child(e: Entry, link: Link): Entry
    {
      Entry(e.path + [link.name], link.target, e.depth + 1)
    }

    /** The depth-limited preorder below `e`, siblings in ascending order. */
    function Preorder(e: Entry): seq<Entry>
      decreases if e.depth < maxDepth then maxDepth - e.depth else 0, 0, 0
    {
      ReverseKeepsDepth(Pushed(e), e.depth + 1);
      if Opens(e) then [e] + Forest(Reverse(Pushed(e)), e.depth + 1) else [e]
    }

    function Forest(es: seq<Entry>, depth: nat): seq<Entry>
      requires depth <= maxDepth
      requires AllAt(es, depth)
      decreases maxDepth - depth, 1, |es|
    {
      if es == [] then [] else Preorder(es[0]) + Forest(es[1..], depth)
    }

    /** The preorders of a stack's entries, top of the stack first. */
    function Remaining(stack: seq<Entry>): seq<Entry>
    {
      if stack == [] then []
      else Preorder(stack[|stack| - 1]) + Remaining(stack[..|stack| - 1])
    }
  }

  predicate NameDescending(a: Link, b: Link)
  {
    LexLeq(Lower(b.name), Lower(a.name))
  }

  // ----- the order of siblings

  predicate EntryAscending(a: Entry, b: Entry)
  {
    a.path != [] && b.path != [] && LexLeq(Lower(a.path[|a.path| - 1]), Lower(b.path[|b.path| - 1]))
  }

  /** `c` shows one of `links`. */
  ghost predicate Among(w: Walk, e: Entry, links: seq<Link>, c: Entry)
  {
    exists l :: l in links && w.Shown(l) && c == w.Child(e, l)
  }

  lemma {:induction false} VisibleAmong(w: Walk, e: Entry, links: seq<Link>, c: Entry)
    ensures c in w.Visible(e, links) <==> Among(w, e, links, c)
  {
    if links != [] {
      VisibleAmong(w, e, links[1..], c);
      assert forall l :: l in links <==> l == links[0] || l in links[1..];
    }
  }

  lemma {:induction false} VisibleAscending(w: Walk, e: Entry, links: seq<Link>, i: nat, j: nat)
    requires SortedBy(links, NameDescending)
    requires i < j < |w.Visible(e, links)|
    ensures EntryAscending(w.Visible(e, links)[j], w.Visible(e, links)[i])
  {
    var rest := w.Visible(e, links[1..]);
    var r := w.Visible(e, links);
    if !w.Shown(links[0]) {
      assert r == rest;
      VisibleAscending(w, e, links[1..], i, j);
    } else if i > 0 {
      assert r[i] == rest[i - 1] && r[j] == rest[j - 1];
      VisibleAscending(w, e, links[1..], i - 1, j - 1);
    } else {
      assert r[j] == rest[j - 1];
      VisibleAmong(w, e, links[1..], r[j]);
      var l :| l in links[1..] && w.Shown(l) && r[j] == w.Child(e, l);
      assert NameDescending(links[0], l);
    }
  }

  lemma {:induction false} VisibleConcat(w: Walk, e: Entry, a: seq<Link>, b: seq<Link>)
    ensures w.Visible(e, a + b) == w.Visible(e, a) + w.Visible(e, b)
  {
    if a == [] {
      assert a + b == b;
    } else {
      assert (a + b)[1..] == a[1..] + b;
      VisibleConcat(w, e, a[1..], b);
    }
  }

  lemma {:induction false} VisibleInsert(w: Walk, e: Entry, x: Link, links: seq<Link>)
    ensures multiset(w.Visible(e, InsertBy(x, links, NameDescending)))
         == multiset(w.Visible(e, [x])) + multiset(w.Visible(e, links))
  {
    if links == [] || NameDescending(x, links[0]) {
      assert InsertBy(x, links, NameDescending) == [x] + links;
      VisibleHead(w, e, x, links);
    } else {
      var tail := links[1..];
      var inserted := InsertBy(x, tail, NameDescending);
      assert links == [links[0]] + tail;
      assert InsertBy(x, links, NameDescending) == [links[0]] + inserted;
      VisibleInsert(w, e, x, tail);
      VisibleHead(w, e, links[0], inserted);
      VisibleHead(w, e, links[0], tail);
    }
  }

  lemma VisibleHead(w: Walk, e: Entry, x: Link, links: seq<Link>)
    ensures multiset(w.Visible(e, [x] + links)) == multiset(w.Visible(e, [x])) + multiset(w.Visible(e, links))
  {
  }

  lemma {:induction false} VisibleSort(w: Walk, e: Entry, links: seq<Link>)
    ensures multiset(w.Visible(e, SortBy(links, NameDescending))) == multiset(w.Visible(e, links))
  {
    if links != [] {
      VisibleSort(w, e, links[1..]);
      VisibleInsert(w, e, links[0], SortBy(links[1..], NameDescending));
      VisibleConcat(w, e, [links[0]], links[1..]);
      assert links == [links[0]] + links[1..];
    }
  }

  lemma SiblingsOrdered(w: Walk, e: Entry, i: nat, j: nat)
    requires w.Opens(e) && w.tree.At(e.id).Directory?
    requires i < j < |Reverse(w.Pushed(e))|
    ensures EntryAscending(Reverse(w.Pushed(e))[i], Reverse(w.Pushed(e))[j])
  {
    hide EntryAscending, SortBy;
    var links, pushed := w.tree.At(e.id).links, w.Pushed(e);
    ReverseAt(pushed, i);
    ReverseAt(pushed, j);
    KeysOrder((l: Link) => Lower(l.name), NameDescending);
    SortIsOrderedPermutation(links, NameDescending);
    VisibleAscending(w, e, SortBy(links, NameDescending), |pushed| - 1 - j, |pushed| - 1 - i);
  }

  /** Siblings are visited in ascending lower-case order, each visible link of the directory once. */
  lemma SiblingsAscend(w: Walk, e: Entry)
    requires w.Opens(e) && w.tree.At(e.id).Directory?
    ensures var r := Reverse(w.Pushed(e));
            forall i, j :: 0 <= i < j < |r| ==> EntryAscending(r[i], r[j])
    ensures multiset(Reverse(w.Pushed(e))) == multiset(w.Visible(e, w.tree.At(e.id).links))
  {
    var pushed := w.Pushed(e);
    var r := Reverse(pushed);
    VisibleSort(w, e, w.tree.At(e.id).links);
    ReverseKeepsMembers(pushed);
    forall i, j | 0 <= i < j < |r| ensures EntryAscending(r[i], r[j]) {
      SiblingsOrdered(w, e, i, j);
    }
  }

  // ----- which entries are listed

  /** Following visible links from `e` leads to `x` within the depth limit. */
  ghost predicate Leads(w: Walk, e: Entry, x: Entry)
    decreases if e.depth < w.maxDepth then w.maxDepth - e.depth else 0
  {
    || x == e
    || (e.depth < w.maxDepth && w.tree.At(e.id).Directory? &&
        exists l :: l in w.tree.At(e.id).links && (w.includeHidden || l.name == "" || l.name[0] != '.') &&
                    Leads(w, Entry(e.path + [l.name], l.target, e.depth + 1), x))
  }

  lemma PushedMembers(w: Walk, e: Entry, c: Entry)
    requires w.Opens(e)
    ensures c in Reverse(w.Pushed(e)) <==>
      w.tree.At(e.id).Directory? && Among(w, e, w.tree.At(e.id).links, c)
  {
    ReverseKeepsMembers(w.Pushed(e));
    assert c in Reverse(w.Pushed(e)) <==> c in multiset(Reverse(w.Pushed(e)));
    if w.tree.At(e.id).Directory? {
      var links := w.tree.At(e.id).links;
      VisibleSort(w, e, links);
      VisibleAmong(w, e, links, c);
      assert c in w.Visible(e, links) <==> c in multiset(w.Visible(e, links));
    }
  }

  /** The preorder lists exactly the entries that links lead to. */
  lemma {:induction false} PreorderIsReachable(w: Walk, e: Entry, x: Entry)
    ensures x in w.Preorder(e) <==> Leads(w, e, x)
    decreases if e.depth < w.maxDepth then w.maxDepth - e.depth else 0, 0, 0
  {
    if w.Opens(e) {
      var children := Reverse(w.Pushed(e));
      ReverseKeepsDepth(w.Pushed(e), e.depth + 1);
      ForestIsReachable(w, children, e.depth + 1, x);
      if Leads(w, e, x) && x != e {
        var l :| l in w.tree.At(e.id).links && w.Shown(l) && Leads(w, w.Child(e, l), x);
        PushedMembers(w, e, w.Child(e, l));
      }
      if c :| c in children && Leads(w, c, x) {
        PushedMembers(w, e, c);
      }
    }
  }

  lemma {:induction false} ForestIsReachable(w: Walk, es: seq<Entry>, depth: nat, x: Entry)
    requires depth <= w.maxDepth
    requires AllAt(es, depth)
    ensures x in w.Forest(es, depth) <==> exists e :: e in es && Leads(w, e, x)
    decreases w.maxDepth - depth, 1, |es|
  {
    if es != [] {
      PreorderIsReachable(w, es[0], x);
      ForestIsReachable(w, es[1..], depth, x);
      assert forall e :: e in es <==> e == es[0] || e in es[1..];
    }
  }

  /** An entry lies as deep as its path is long, and only the root has the root's path. */
  lemma {:induction false} LeadsDeeper(w: Walk, e: Entry, x: Entry)
    requires Leads(w, e, x)
    ensures e.path <= x.path && |x.path| - |e.path| == x.depth - e.depth
    ensures x.path == e.path ==> x == e
    decreases if e.depth < w.maxDepth then w.maxDepth - e.depth else 0
  {
    if x != e {
      var l :| l in w.tree.At(e.id).links && w.Shown(l) && Leads(w, w.Child(e, l), x);
      LeadsDeeper(w, w.Child(e, l), x);
    }
  }

  // ----- a stack that unfolds to the preorder

  lemma RemainingTop(w: Walk, rest: seq<Entry>, top: Entry)
    ensures w.Remaining(rest + [top]) == w.Preorder(top) + w.Remaining(rest)
  {
  }

  lemma {:induction false} RemainingAfterPush(w: Walk, stack: seq<Entry>, pushed: seq<Entry>, depth: nat)
    requires depth <= w.maxDepth
    requires AllAt(pushed, depth)
    requires AllAt(Reverse(pushed), depth)
    ensures w.Remaining(stack + pushed) == w.Forest(Reverse(pushed), depth) + w.Remaining(stack)
  {
    hide Walk.Preorder, Walk.Remaining, Reverse;
    var n := |pushed|;
    if n == 0 {
      assert stack + pushed == stack;
      assert Reverse(pushed) == [];
    } else {
      var last, front := pushed[n - 1], pushed[..n - 1];
      assert pushed == front + [last];
      ReverseSnoc(front, last);
      ReverseKeepsDepth(front, depth);
      RemainingAfterPush(w, stack, front, depth);
      assert Reverse(pushed)[1..] == Reverse(front);
      assert stack + pushed == (stack + front) + [last];
      RemainingTop(w, stack + front, last);
      Associate(w.Preorder(last), w.Forest(Reverse(front), depth), w.Remaining(stack));
    }
  }

  /** Popping an entry and pushing its children leaves the rest of the preorder on the stack. */
  lemma PopUnfolds(w: Walk, rest: seq<Entry>, top: Entry)
    ensures w.Remaining(rest + [top]) == [top] + w.Remaining(rest + w.Pushed(top))
  {
    var pushed := w.Pushed(top);
    RemainingTop(w, rest, top);
    if w.Opens(top) {
      ReverseKeepsDepth(pushed, top.depth + 1);
      RemainingAfterPush(w, rest, pushed, top.depth + 1);
      Associate([top], w.Forest(Reverse(pushed), top.depth + 1), w.Remaining(rest));
    } else {
      assert rest + pushed == rest;
    }
  }

  method PushChildren(w: Walk, e: Entry, stack: seq<Entry>) returns (grown: seq<Entry>)
    requires w.Opens(e) && w.tree.At(e.id).Directory?
    ensures grown == stack + w.Pushed(e)
  {
    grown := stack;
    var children := SortBy(w.tree.At(e.id).links, NameDescending);
    for k := 0 to |children|
      invariant grown == stack + w.Visible(e, children[..k])
    {
      assert children[..k + 1] == children[..k] + [children[k]];
      VisibleConcat(w, e, children[..k], [children[k]]);
      if !w.includeHidden && "." <= children[k].name {
        continue;
      }
      grown := grown + [w.Child(e, children[k])];
    }
    assert children[..|children|] == children;
  }

  /** Push an entry's children, if it is a directory above the depth limit; None if it cannot be read. */
  method Expand(w: Walk, e: Entry, stack: seq<Entry>) returns (next: Option<seq<Entry>>)
    ensures next == if w.Fails(e) then None else Some(stack + w.Pushed(e))
  {
    if e.depth >= w.maxDepth || !w.tree.IsDir(e.id) {
      assert stack + w.Pushed(e) == stack;
      return Some(stack);
    }
    if w.tree.At(e.id).Unreadable? {
      return None;
    }
    var grown := PushChildren(w, e, stack);
    return Some(grown);
  }
}
