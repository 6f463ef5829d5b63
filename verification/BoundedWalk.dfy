/** What a capped consumer of a preorder produces, for any notion of hit and of failure. */
module BoundedWalk {
  import opened FileTree

  datatype Outcome<+H> = Completed(hits: seq<H>, truncated: bool, consumed: nat) | Failed

  /** Take entries in order, stop at `cap` hits, give up at a failing entry. */
  function Consume<H>(es: seq<Entry>, hits: Entry -> seq<H>, fails: Entry -> bool, cap: nat,
                      found: seq<H>, consumed: nat): Outcome<H>
  {
    if es == [] then Completed(found, false, consumed)
    else
      var all := found + hits(es[0]);
      if |all| >= cap then Completed(all[..cap], true, consumed + 1)
      else if fails(es[0]) then Failed
      else Consume(es[1..], hits, fails, cap, all, consumed + 1)
  }

  function Gather<H>(es: seq<Entry>, hits: Entry -> seq<H>): seq<H>
  {
    if es == [] then [] else hits(es[0]) + Gather(es[1..], hits)
  }

  /** The entries up to `k` still leave room below the cap. */
  predicate RoomAfter<H>(es: seq<Entry>, hits: Entry -> seq<H>, cap: nat, found: seq<H>, k: nat)
    requires k < |es|
  {
    |found| + |Gather(es[..k + 1], hits)| < cap
  }

  lemma {:induction false} ConsumeFrom<H>(es: seq<Entry>, hits: Entry -> seq<H>, fails: Entry -> bool, cap: nat,
                                          found: seq<H>, consumed: nat)
    ensures var all := found + Gather(es, hits);
            match Consume(es, hits, fails, cap, found, consumed)
            case Completed(h, t, n) =>
              && (es != [] && |found| < cap ==> t == (|all| >= cap))
              && h == (if t then (if cap <= |all| then all[..cap] else []) else all)
              && consumed <= n <= consumed + |es|
              && (t ==> n > consumed && !RoomAfter(es, hits, cap, found, n - consumed - 1))
              && (!t ==> n == consumed + |es|)
              && (forall k :: 0 <= k < |es| && fails(es[k]) ==> !RoomAfter(es, hits, cap, found, k))
              && (forall k :: 0 <= k < n - consumed - 1 ==> RoomAfter(es, hits, cap, found, k))
            case Failed =>
              exists k :: 0 <= k < |es| && fails(es[k]) && RoomAfter(es, hits, cap, found, k)
  {
    if es != [] {
      var tail, first := es[1..], hits(es[0]);
      var more := found + first;
      forall k | 0 <= k < |es|
        ensures Gather(es[..k + 1], hits) == first + Gather(tail[..k], hits)
      {
        assert es[..k + 1][1..] == tail[..k];
      }
      assert found + Gather(es, hits) == more + Gather(tail, hits);
      if |more| < cap {
        assert RoomAfter(es, hits, cap, found, 0);
        if !fails(es[0]) {
          ConsumeFrom(tail, hits, fails, cap, more, consumed + 1);
          forall k | 0 <= k < |tail|
            ensures RoomAfter(es, hits, cap, found, k + 1) == RoomAfter(tail, hits, cap, more, k)
          {
          }
          match Consume(tail, hits, fails, cap, more, consumed + 1)
          case Completed(h, t, n) =>
            forall k | 0 <= k < |es| && fails(es[k]) ensures !RoomAfter(es, hits, cap, found, k) {
              assert k > 0 && es[k] == tail[k - 1];
            }
            forall k | 0 <= k < n - consumed - 1 ensures RoomAfter(es, hits, cap, found, k) {
              if k > 0 { assert RoomAfter(tail, hits, cap, more, k - 1); }
            }
          case Failed =>
            var k :| 0 <= k < |tail| && fails(tail[k]) && RoomAfter(tail, hits, cap, more, k);
            assert es[k + 1] == tail[k] && RoomAfter(es, hits, cap, found, k + 1);
        }
      }
    }
  }

  /** The first `cap` hits of the whole preorder, unless a failing entry comes before the cap is reached. */
  lemma ConsumeTakesFirstHits<H>(es: seq<Entry>, hits: Entry -> seq<H>, fails: Entry -> bool, cap: nat)
    requires cap > 0
    ensures var all := Gather(es, hits);
            match Consume(es, hits, fails, cap, [], 0)
            case Completed(h, t, n) =>
              && t == (|all| >= cap)
              && h == (if t then all[..cap] else all)
              && (!t ==> n == |es|)
              && n <= |es|
              && (t ==> n > 0 && !RoomAfter(es, hits, cap, [], n - 1))
              && (forall k :: 0 <= k < |es| && fails(es[k]) ==> !RoomAfter(es, hits, cap, [], k))
              && (forall k :: 0 <= k < n - 1 ==> RoomAfter(es, hits, cap, [], k))
            case Failed => exists k :: 0 <= k < |es| && fails(es[k]) && RoomAfter(es, hits, cap, [], k)
  {
    ConsumeFrom(es, hits, fails, cap, [], 0);
    assert [] + Gather(es, hits) == Gather(es, hits);
  }

  function FailsOn(w: Walk): Entry -> bool
  {
    (e: Entry) => w.Fails(e)
  }

  function Clamp(x: int, low: int, high: int): (r: int)
    ensures low <= high ==> low <= r <= high && (r == x || (x < low && r == low) || (x > high && r == high))
  {
    if x < low then low else if x > high then high else x
  }

  const MAX_DEPTH := 32

  function RootEntry(id: nat): Entry { Entry([], id, 0) }

  /** The two bounds the walking skills put on a request. */
  function WalkOf(tree: Tree, maxDepth: int, includeHidden: bool): Walk
  {
    Walk(tree, Clamp(maxDepth, 0, MAX_DEPTH), includeHidden)
  }
}
