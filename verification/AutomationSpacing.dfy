/** The fires of a recurring automation, one after another (src/voxera/automation/runner.py). */
module AutomationSpacing {
  import opened AutomationModels
  import opened AutomationRunner
  import opened Collections
  import opened Wrappers

  datatype Fire = Fire(stamp: int, forced: bool)

  /** One definition on disk and the fires it has completed. */
  datatype Life = Life(def: Definition, fires: seq<Fire>)

  /** An attempt at a reading of the clock, or the operator switching the definition on or off. */
  datatype Act = Attempt(now: int, forced: bool, digest: string, completes: bool) | Switch(on: bool, clock: int)

  function Live(l: Life, a: Act): Life
  {
    match a
    case Attempt(now, forced, digest, completes) =>
      if Evaluate(l.def, now, forced) == Due && completes && now > 0
      then Life(Saved(l.def, now, digest), l.fires + [Fire(now, forced)])
      else l
    case Switch(on, clock) =>
      if l.def.enabled == on then l
      else Life(TouchUpdated(l.def.(enabled := on), None, clock).value, l.fires)
  }

  function Lived(l: Life, acts: seq<Act>): Life
    decreases |acts|
  {
    if acts == [] then l else Lived(Live(l, acts[0]), acts[1..])
  }

  /** Every fire that is not forced comes an interval or more after the fire before it. */
  ghost predicate Spaced(fires: seq<Fire>, interval: int)
  {
    forall k :: 0 < k < |fires| && !fires[k].forced ==> fires[k].stamp >= fires[k - 1].stamp + interval
  }

  /** The definition is armed from its last completed fire. */
  ghost predicate Armed(l: Life, interval: int)
  {
    && l.def.trigger == RecurringInterval(interval)
    && (l.fires != [] ==> l.def.nextRunAtMs == Some(l.fires[|l.fires| - 1].stamp + interval))
    && Spaced(l.fires, interval)
  }

  /** For any readings of the clock, forced fires, switches and failures in between. */
  lemma {:induction false} FiresAreSpaced(d: Definition, acts: seq<Act>, interval: int)
    requires d.trigger == RecurringInterval(interval)
    ensures Spaced(Lived(Life(d, []), acts).fires, interval)
  {
    LivesAreArmed(Life(d, []), acts, interval);
  }

  lemma {:induction false} LivesAreArmed(l: Life, acts: seq<Act>, interval: int)
    requires Armed(l, interval)
    ensures Armed(Lived(l, acts), interval)
    decreases |acts|
  {
    if acts != [] {
      LivesAreArmed(Live(l, acts[0]), acts[1..], interval);
    }
  }

  // ----- the update time

  /** Over any life the stored update time never goes back, nor below the creation time, which stays. */
  lemma {:induction false} StampNeverGoesBack(l: Life, acts: seq<Act>)
    ensures var d, d' := l.def, Lived(l, acts).def;
            && d'.createdAtMs == d.createdAtMs && d'.updatedAtMs >= d.updatedAtMs
            && (d.updatedAtMs >= d.createdAtMs ==> d'.updatedAtMs >= d'.createdAtMs)
    decreases |acts|
  {
    hide Evaluate;
    if acts != [] {
      StampNeverGoesBack(Live(l, acts[0]), acts[1..]);
    }
  }

  // ----- windows

  predicate InWindow(f: Fire, a: int, b: int)
  {
    !f.forced && a <= f.stamp <= b
  }

  function CountIn(fires: seq<Fire>, a: int, b: int): nat
  {
    if fires == [] then 0
    else CountIn(fires[..|fires| - 1], a, b) + if InWindow(fires[|fires| - 1], a, b) then 1 else 0
  }

  /** No bursts: n unforced fires in a window take n - 1 intervals. */
  ghost predicate Bounded(fires: seq<Fire>, interval: int)
  {
    forall a, b :: CountIn(fires, a, b) > 0 ==> (CountIn(fires, a, b) - 1) * interval <= b - a
  }

  function LastUnforced(fires: seq<Fire>): Option<int>
  {
    if fires == [] then None
    else if !fires[|fires| - 1].forced then Some(fires[|fires| - 1].stamp)
    else LastUnforced(fires[..|fires| - 1])
  }

  /** The clock has been set back: the `k`-th fire is forced, and stamped before the last unforced fire. */
  predicate SetsBack(fires: seq<Fire>, k: nat)
    requires k < |fires|
  {
    fires[k].forced && LastUnforced(fires[..k]).Some? && fires[k].stamp < LastUnforced(fires[..k]).value
  }

  ghost predicate NoSetBackFrom(fires: seq<Fire>, n: nat)
  {
    forall k: nat :: n <= k < |fires| ==> !SetsBack(fires, k)
  }

  /** Each unforced fire comes an interval or more after every unforced fire before it. */
  ghost predicate Gaps(fires: seq<Fire>, interval: int)
  {
    forall j, k :: 0 <= j < k < |fires| && !fires[j].forced && !fires[k].forced ==>
      fires[k].stamp >= fires[j].stamp + interval
  }

  lemma {:induction false} LastUnforcedIsLast(fires: seq<Fire>, j: nat)
    requires j < |fires| && !fires[j].forced
    ensures LastUnforced(fires).Some?
    ensures exists k :: j <= k < |fires| && !fires[k].forced && LastUnforced(fires) == Some(fires[k].stamp)
  {
    if fires[|fires| - 1].forced {
      LastUnforcedIsLast(fires[..|fires| - 1], j);
    }
  }

  /** A fire after all those before it: the next one is an interval past the last unforced one. */
  lemma NextGap(fires: seq<Fire>, interval: int)
    requires |fires| > 1 && Spaced(fires, interval) && NoSetBackFrom(fires, 0) && !fires[|fires| - 1].forced
    ensures var n := |fires| - 1;
            LastUnforced(fires[..n]).Some? ==> fires[n].stamp >= LastUnforced(fires[..n]).value + interval
  {
    var n := |fires| - 1;
    var front := fires[..n];
    assert fires[n].stamp >= fires[n - 1].stamp + interval;
    assert front[..n - 1] == fires[..n - 1];
    assert !SetsBack(fires, n - 1);
  }

  lemma {:induction false} SpacedFiresHaveGaps(fires: seq<Fire>, interval: int)
    requires interval >= 0 && Spaced(fires, interval) && NoSetBackFrom(fires, 0)
    ensures Gaps(fires, interval)
  {
    if |fires| > 1 {
      var n := |fires| - 1;
      var front := fires[..n];
      forall k: nat | k < n ensures !SetsBack(front, k) {
        assert front[..k] == fires[..k] && !SetsBack(fires, k);
      }
      SpacedFiresHaveGaps(front, interval);
      forall j | 0 <= j < n && !fires[j].forced && !fires[n].forced ensures fires[n].stamp >= fires[j].stamp + interval {
        LastUnforcedIsLast(front, j);
        var k :| j <= k < n && !front[k].forced && LastUnforced(front) == Some(front[k].stamp);
        NextGap(fires, interval);
        assert j < k ==> front[k].stamp >= front[j].stamp + interval;
      }
      forall j, k | 0 <= j < k < |fires| && !fires[j].forced && !fires[k].forced
        ensures fires[k].stamp >= fires[j].stamp + interval
      {
        if k < n { assert front[k].stamp >= front[j].stamp + interval; }
      }
    }
  }

  lemma {:induction false} LastInWindow(fires: seq<Fire>, interval: int, a: int, b: int) returns (k: nat)
    requires Gaps(fires, interval) && CountIn(fires, a, b) > 0
    ensures k < |fires| && InWindow(fires[k], a, b)
    ensures a + (CountIn(fires, a, b) - 1) * interval <= fires[k].stamp
  {
    var n := |fires| - 1;
    var front := fires[..n];
    var before := CountIn(front, a, b);
    if !InWindow(fires[n], a, b) {
      k := LastInWindow(front, interval, a, b);
    } else if before == 0 {
      k := n;
    } else {
      var j := LastInWindow(front, interval, a, b);
      k := n;
    }
  }

  lemma GapsBoundWindows(fires: seq<Fire>, interval: int)
    requires Gaps(fires, interval)
    ensures Bounded(fires, interval)
  {
    forall a, b | CountIn(fires, a, b) > 0 ensures (CountIn(fires, a, b) - 1) * interval <= b - a {
      var k := LastInWindow(fires, interval, a, b);
    }
  }

  /**
   No bursts after a late wake-up, over any readings of the clock, if no forced fire is stamped before the
   unforced fire last before it.
   */
  lemma NoBursts(d: Definition, acts: seq<Act>, interval: int)
    requires d.trigger == RecurringInterval(interval) && interval > 0
    requires NoSetBackFrom(Lived(Life(d, []), acts).fires, 0)
    ensures Gaps(Lived(Life(d, []), acts).fires, interval)
    ensures Bounded(Lived(Life(d, []), acts).fires, interval)
  {
    var fires := Lived(Life(d, []), acts).fires;
    FiresAreSpaced(d, acts, interval);
    SpacedFiresHaveGaps(fires, interval);
    GapsBoundWindows(fires, interval);
  }

  // ----- what a forced fire does to the bound

  lemma {:induction false} LivedAppend(l: Life, a: seq<Act>, b: seq<Act>)
    ensures Lived(l, a + b) == Lived(Lived(l, a), b)
    decreases |a|
  {
    if a == [] {
      assert a + b == b;
    } else {
      assert (a + b)[1..] == a[1..] + b;
      LivedAppend(Live(l, a[0]), a[1..], b);
    }
  }

  lemma {:induction false} FiresGrow(l: Life, acts: seq<Act>)
    ensures l.fires <= Lived(l, acts).fires
    decreases |acts|
  {
    hide Evaluate, Saved;
    if acts != [] {
      FiresGrow(Live(l, acts[0]), acts[1..]);
    }
  }

  lemma {:induction false} LastUnforcedCounts(fires: seq<Fire>, a: int, b: int)
    requires LastUnforced(fires).Some? && a <= LastUnforced(fires).value <= b
    ensures CountIn(fires, a, b) > 0
  {
    if fires[|fires| - 1].forced {
      LastUnforcedCounts(fires[..|fires| - 1], a, b);
    }
  }

  /** The bound in every continuation that does not set the clock back again. */
  ghost predicate StaysBounded(l: Life, interval: int)
  {
    forall more: seq<Act> ::
      NoSetBackFrom(Lived(l, more).fires, |l.fires|) ==> Bounded(Lived(l, more).fires, interval)
  }

  function ForcedFire(l: Life, stamp: int, digest: string): Life
  {
    Live(l, Attempt(stamp, true, digest, true))
  }

  /** After a forced fire stamped before the last unforced fire, the next one can come too early. */
  lemma SetBackBreaksABound(l: Life, interval: int, stamp: int, digest: string)
    requires l.def.trigger == RecurringInterval(interval) && interval > 0 && l.def.enabled && stamp > 0
    requires LastUnforced(l.fires).Some? && stamp < LastUnforced(l.fires).value
    ensures !StaysBounded(ForcedFire(l, stamp, digest), interval)
  {
    var u := LastUnforced(l.fires).value;
    var t := ForcedFire(l, stamp, digest);
    var x := Max(u, stamp + interval);
    var next := Attempt(x, false, digest, true);
    assert Evaluate(t.def, x, false) == Due;
    var fires := Live(t, next).fires;
    assert [next][1..] == [];
    assert Lived(t, [next]) == Lived(Live(t, next), []);
    assert fires == l.fires + [Fire(stamp, true)] + [Fire(x, false)];
    assert fires[..|fires| - 1] == t.fires && t.fires[..|l.fires|] == l.fires;
    LastUnforcedCounts(l.fires, u, x);
    assert CountIn(fires, u, x) == CountIn(l.fires, u, x) + 1;
    TwoTooClose(CountIn(fires, u, x), interval, x - u);
  }

  lemma TwoTooClose(n: nat, interval: int, width: int)
    requires n >= 2 && interval > 0 && width < interval
    ensures (n - 1) * interval > width
  {
    assert (n - 1) * interval >= interval by { MultiplyGrows(n - 1, interval); }
  }

  lemma {:induction false} MultiplyGrows(n: nat, i: int)
    requires n >= 1 && i > 0
    ensures n * i >= i
  {
    if n > 1 {
      MultiplyGrows(n - 1, i);
    }
  }

  /**
   In any life without an earlier set-back, a forced fire of an enabled definition keeps the bound in all
   continuations exactly if it is not stamped before the last unforced fire.
   */
  lemma ForcedFireKeepsBoundIffClockHolds(d: Definition, acts: seq<Act>, interval: int, stamp: int, digest: string)
    requires d.trigger == RecurringInterval(interval) && interval > 0 && stamp > 0
    requires var l := Lived(Life(d, []), acts);
             l.def.enabled && NoSetBackFrom(l.fires, 0) && LastUnforced(l.fires).Some?
    ensures var l := Lived(Life(d, []), acts);
            StaysBounded(ForcedFire(l, stamp, digest), interval) <==> stamp >= LastUnforced(l.fires).value
  {
    var l := Lived(Life(d, []), acts);
    LivesAreArmed(Life(d, []), acts, interval);
    if stamp < LastUnforced(l.fires).value {
      SetBackBreaksABound(l, interval, stamp, digest);
    } else {
      var t := ForcedFire(l, stamp, digest);
      forall more: seq<Act> | NoSetBackFrom(Lived(t, more).fires, |t.fires|)
        ensures Bounded(Lived(t, more).fires, interval)
      {
        HeldClockStaysBounded(d, acts, interval, stamp, digest, more);
      }
    }
  }

  lemma HeldClockStaysBounded(d: Definition, acts: seq<Act>, interval: int, stamp: int, digest: string, more: seq<Act>)
    requires d.trigger == RecurringInterval(interval) && interval > 0 && stamp > 0
    requires var l := Lived(Life(d, []), acts);
             && NoSetBackFrom(l.fires, 0) && LastUnforced(l.fires).Some? && stamp >= LastUnforced(l.fires).value
             && var t := ForcedFire(l, stamp, digest); NoSetBackFrom(Lived(t, more).fires, |t.fires|)
    ensures Bounded(Lived(ForcedFire(Lived(Life(d, []), acts), stamp, digest), more).fires, interval)
  {
    hide Evaluate, Saved, Bounded, Gaps, Lived;
    var l := Lived(Life(d, []), acts);
    var a := Attempt(stamp, true, digest, true);
    var t := Live(l, a);
    var fires := Lived(t, more).fires;
    FiresGrow(t, more);
    forall k: nat | k < |fires| ensures !SetsBack(fires, k) {
      if k < |l.fires| {
        assert fires[..k] == l.fires[..k] && fires[k] == l.fires[k] && !SetsBack(l.fires, k);
      } else if k < |t.fires| {
        assert fires[..k] == l.fires && fires[k] == t.fires[k];
      }
    }
    LivedAppend(Life(d, []), acts, [a] + more);
    OneThen(l, a, more);
    NoBursts(d, acts + ([a] + more), interval);
  }

  lemma OneThen(l: Life, a: Act, more: seq<Act>)
    ensures Lived(l, [a] + more) == Lived(Live(l, a), more)
  {
    assert ([a] + more)[1..] == more;
  }

  /** With the clock set back for a forced fire, two unforced fires come closer than an interval. */
  lemma ClockSetBackBreaksSpacing(d: Definition)
    requires d.trigger == RecurringInterval(1000) && d.enabled && d.nextRunAtMs == Some(5000)
    ensures var acts := [Attempt(5000, false, "a", true), Attempt(3500, true, "b", true), Attempt(4500, false, "c", true)];
            var fires := Lived(Life(d, []), acts).fires;
            fires == [Fire(5000, false), Fire(3500, true), Fire(4500, false)] && CountIn(fires, 4500, 5000) == 2
  {
    var acts := [Attempt(5000, false, "a", true), Attempt(3500, true, "b", true), Attempt(4500, false, "c", true)];
    var l1 := Life(Saved(d, 5000, "a"), [Fire(5000, false)]);
    var l2 := Life(Saved(l1.def, 3500, "b"), [Fire(5000, false), Fire(3500, true)]);
    var l3 := Life(Saved(l2.def, 4500, "c"), [Fire(5000, false), Fire(3500, true), Fire(4500, false)]);
    assert Live(Life(d, []), acts[0]) == l1;
    assert Live(l1, acts[1]) == l2;
    assert Live(l2, acts[2]) == l3;
    assert l3.fires[..2] == l2.fires && l2.fires[..1] == l1.fires && l1.fires[..0] == [];
    assert CountIn(l1.fires, 4500, 5000) == 1;
    assert CountIn(l2.fires, 4500, 5000) == 1;
  }
}
