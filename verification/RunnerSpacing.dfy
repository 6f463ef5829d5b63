/**
 Interleaved passes over one recurring automation, each under the runner lock: the unforced fires of all
 processes together keep the interval and the bound on windows that a single process keeps
 (src/voxera/automation/runner.py, src/voxera/automation/lock.py).
 */
module RunnerSpacing {
  import opened AutomationModels
  import opened AutomationRunner
  import opened RunnerPasses
  import opened Wrappers
  import S = AutomationSpacing

  /** The fire of `id` that a step completes, if it completes one. */
  function FireOf(s: System, a: Action, id: string): seq<S.Fire>
  {
    match a
    case SaveDefinition(p, _, ok, _) =>
      (match s.At(p)
       case Recorded(ds, i, now) => if i < |ds| && ok && now > 0 && ds[i].id == id then [S.Fire.Fire(now, false)] else []
       case _ => [])
    case FireOnce(x, forced, now, _, ok) =>
      if x == id && x in s.disk && Evaluate(s.disk[x], now, forced) == Due && ok && now > 0
      then [S.Fire.Fire(now, forced)]
      else []
    case _ => []
  }

  ghost function FiresOf(s: System, actions: seq<Action>, id: string): seq<S.Fire>
    decreases |actions|
  {
    if actions == [] then [] else FireOf(s, actions[0], id) + FiresOf(Act(s, actions[0]), actions[1..], id)
  }

  /** The definition is not due before an interval after the last unforced fire. */
  predicate Ahead(d: Definition, interval: int, fires: seq<S.Fire>)
  {
    var u := S.LastUnforced(fires);
    && d.trigger == RecurringInterval(interval)
    && (u.Some? ==> d.nextRunAtMs.Some? && d.nextRunAtMs.value >= u.value + interval)
  }

  ghost predicate CopyAhead(pc: Pc, id: string, interval: int, fires: seq<S.Fire>)
  {
    HasSnapshot(pc) ==>
      && (forall k :: pc.i <= k < |pc.snapshot| && pc.snapshot[k].id == id ==> Ahead(pc.snapshot[k], interval, fires))
      && (forall j, k :: 0 <= j < k < |pc.snapshot| ==> pc.snapshot[j].id != pc.snapshot[k].id)
      && (pc.InFlight() ==> pc.i < |pc.snapshot| && Evaluate(pc.snapshot[pc.i], pc.now, false) == Due)
  }

  ghost predicate Inv(s: System, id: string, interval: int, fires: seq<S.Fire>)
  {
    && MutualExclusion(s)
    && (forall x :: x in s.disk ==> s.disk[x].id == x)
    && (id in s.disk ==> Ahead(s.disk[id], interval, fires))
    && (forall p: nat :: CopyAhead(s.At(p), id, interval, fires))
  }

  /** The step makes no unforced fire of `id` outside the lock, and no forced one stamped before the last unforced fire. */
  predicate Allowed(s: System, a: Action, id: string, fires: seq<S.Fire>)
  {
    a.FireOnce? && a.id == id && FireOf(s, a, id) != [] ==>
      a.forced && (S.LastUnforced(fires).Some? ==> a.now >= S.LastUnforced(fires).value)
  }

  /** Everything is ahead of the last unforced fire, so an unforced one comes an interval later. */
  lemma DueMeansLater(d: Definition, now: int, interval: int, fires: seq<S.Fire>)
    requires Ahead(d, interval, fires) && Evaluate(d, now, false) == Due
    ensures S.LastUnforced(fires).Some? ==> now >= S.LastUnforced(fires).value + interval
  {
  }

  lemma SavedIsAhead(d: Definition, now: int, digest: string, interval: int, fires: seq<S.Fire>, forced: bool)
    requires d.trigger == RecurringInterval(interval)
    requires forced ==> S.LastUnforced(fires).Some? ==> now >= S.LastUnforced(fires).value
    ensures Ahead(Saved(d, now, digest), interval, fires + [S.Fire.Fire(now, forced)])
    ensures Saved(d, now, digest).id == d.id
  {
    assert (fires + [S.Fire.Fire(now, forced)])[..|fires|] == fires;
  }

  lemma ForcedChangesNothing(d: Definition, now: int, interval: int, fires: seq<S.Fire>)
    ensures Ahead(d, interval, fires + [S.Fire.Fire(now, true)]) == Ahead(d, interval, fires)
  {
    assert (fires + [S.Fire.Fire(now, true)])[..|fires|] == fires;
  }

  /** Steps of a process that save nothing. */
  lemma PassStepKeeps(s: System, a: Action, id: string, interval: int, fires: seq<S.Fire>)
    requires Inv(s, id, interval, fires)
    requires a.Open? || a.LoadAll? || a.Skip? || a.Emit? || a.WriteHistory? || a.EndWalk?
    ensures Inv(Act(s, a), id, interval, fires)
  {
    hide Ahead, Evaluate;
    var t := Act(s, a);
    var pc := s.At(a.p);
    assert CopyAhead(pc, id, interval, fires);
    StepKeepsExclusion(s, a);
    forall q: nat ensures q != a.p ==> t.At(q) == s.At(q) {
    }
    assert CopyAhead(t.At(a.p), id, interval, fires);
  }

  lemma LockStepKeeps(s: System, a: Action, id: string, interval: int, fires: seq<S.Fire>)
    requires Inv(s, id, interval, fires)
    requires a.TryLock? || a.Release? || a.Crash?
    ensures Inv(Act(s, a), id, interval, fires)
  {
    hide Ahead, Evaluate;
    var t := Act(s, a);
    forall q: nat ensures t.At(q) == s.At(q) || t.At(q) in [Idle, Holding] {
    }
    StepKeepsExclusion(s, a);
  }

  lemma SaveStepKeeps(s: System, a: Action, id: string, interval: int, fires: seq<S.Fire>)
    requires Inv(s, id, interval, fires) && a.SaveDefinition?
    ensures Inv(Act(s, a), id, interval, fires + FireOf(s, a, id))
    ensures FireOf(s, a, id) != [] && S.LastUnforced(fires).Some? ==>
              FireOf(s, a, id)[0].stamp >= S.LastUnforced(fires).value + interval
  {
    hide Ahead, Evaluate, Saved;
    var pc := s.At(a.p);
    assert CopyAhead(pc, id, interval, fires);
    StepKeepsExclusion(s, a);
    assert fires + [] == fires;
    if pc.Recorded? && a.ok && pc.now > 0 {
      var d := pc.snapshot[pc.i];
      SavedFields(d, pc.now, a.digest);
      if d.id == id {
        DueMeansLater(d, pc.now, interval, fires);
        assert d.trigger == RecurringInterval(interval) by { AheadRecurs(d, interval, fires); }
        SavedIsAhead(d, pc.now, a.digest, interval, fires, false);
      }
    } else {
      var t := Act(s, a);
      forall q: nat ensures CopyAhead(t.At(q), id, interval, fires) {
        assert CopyAhead(s.At(q), id, interval, fires);
      }
    }
  }

  lemma AheadRecurs(d: Definition, interval: int, fires: seq<S.Fire>)
    requires Ahead(d, interval, fires)
    ensures d.trigger == RecurringInterval(interval)
  {
  }

  lemma FireStepKeeps(s: System, a: Action, id: string, interval: int, fires: seq<S.Fire>)
    requires Inv(s, id, interval, fires) && a.FireOnce? && Allowed(s, a, id, fires)
    ensures Inv(Act(s, a), id, interval, fires + FireOf(s, a, id))
  {
    hide Ahead, Evaluate, Saved;
    var t := Act(s, a);
    assert fires + [] == fires;
    if a.id in s.disk {
      var d := s.disk[a.id];
      SavedFields(d, a.now, a.digest);
      if FireOf(s, a, id) != [] {
        AheadRecurs(d, interval, fires);
        SavedIsAhead(d, a.now, a.digest, interval, fires, true);
      }
    }
    forall q: nat ensures CopyAhead(t.At(q), id, interval, fires + FireOf(s, a, id)) {
      var pc := s.At(q);
      assert CopyAhead(pc, id, interval, fires);
      if HasSnapshot(pc) && FireOf(s, a, id) != [] {
        forall k | pc.i <= k < |pc.snapshot| {
          ForcedChangesNothing(pc.snapshot[k], a.now, interval, fires);
        }
      }
    }
  }

  lemma OperatorStepKeeps(s: System, a: Action, id: string, interval: int, fires: seq<S.Fire>)
    requires Inv(s, id, interval, fires) && (a.Toggle? || a.Remove?)
    ensures Inv(Act(s, a), id, interval, fires)
  {
    hide Evaluate;
    var t := Act(s, a);
    forall q: nat ensures t.At(q) == s.At(q) {
    }
  }

  lemma StepKeeps(s: System, a: Action, id: string, interval: int, fires: seq<S.Fire>)
    requires interval >= 0 && Inv(s, id, interval, fires) && Allowed(s, a, id, fires)
    ensures Inv(Act(s, a), id, interval, fires + FireOf(s, a, id))
    ensures S.Gaps(fires, interval) ==> S.Gaps(fires + FireOf(s, a, id), interval)
  {
    hide Inv, Act, S.Gaps;
    assert fires + [] == fires;
    match a
    case SaveDefinition(_, _, _, _) =>
      SaveStepKeeps(s, a, id, interval, fires);
      if FireOf(s, a, id) != [] && S.Gaps(fires, interval) { GapsExtend(fires, FireOf(s, a, id)[0], interval); }
    case FireOnce(_, _, _, _, _) =>
      FireStepKeeps(s, a, id, interval, fires);
      if FireOf(s, a, id) != [] && S.Gaps(fires, interval) { GapsExtend(fires, FireOf(s, a, id)[0], interval); }
    case TryLock(_) => LockStepKeeps(s, a, id, interval, fires);
    case Release(_) => LockStepKeeps(s, a, id, interval, fires);
    case Crash(_) => LockStepKeeps(s, a, id, interval, fires);
    case Toggle(_, _, _) => OperatorStepKeeps(s, a, id, interval, fires);
    case Remove(_) => OperatorStepKeeps(s, a, id, interval, fires);
    case _ => PassStepKeeps(s, a, id, interval, fires);
  }

  lemma GapsExtend(fires: seq<S.Fire>, f: S.Fire, interval: int)
    requires S.Gaps(fires, interval) && interval >= 0
    requires !f.forced && S.LastUnforced(fires).Some? ==> f.stamp >= S.LastUnforced(fires).value + interval
    ensures S.Gaps(fires + [f], interval)
  {
    var more := fires + [f];
    forall j, k | 0 <= j < k < |more| && !more[j].forced && !more[k].forced ensures more[k].stamp >= more[j].stamp + interval {
      if k == |fires| {
        S.LastUnforcedIsLast(fires, j);
        var l :| j <= l < |fires| && !fires[l].forced && S.LastUnforced(fires) == Some(fires[l].stamp);
        assert j < l ==> fires[l].stamp >= fires[j].stamp + interval;
      }
    }
  }

  lemma {:induction false} RunKeeps(s: System, actions: seq<Action>, id: string, interval: int, fires: seq<S.Fire>)
    requires interval >= 0 && Inv(s, id, interval, fires) && S.Gaps(fires, interval) && Locked(actions, id)
    requires S.NoSetBackFrom(fires + FiresOf(s, actions, id), 0)
    ensures S.Gaps(fires + FiresOf(s, actions, id), interval)
    decreases |actions|
  {
    hide Inv, Act, S.Gaps, S.LastUnforced;
    if actions == [] {
      assert fires + [] == fires;
    } else {
      var a := actions[0];
      var more := FireOf(s, a, id);
      var all := fires + FiresOf(s, actions, id);
      assert all == (fires + more) + FiresOf(Act(s, a), actions[1..], id);
      if more != [] {
        assert all[..|fires|] == fires && all[|fires|] == more[0];
        assert !S.SetsBack(all, |fires|);
      }
      StepKeeps(s, a, id, interval, fires);
      RunKeeps(Act(s, a), actions[1..], id, interval, fires + more);
    }
  }

  /**
   Under every interleaving of locked passes with switches, removals and forced fires, the completed unforced
   fires of a recurring automation come an interval or more apart, and no window holds a burst, if no forced
   fire is stamped before the unforced fire last before it.
   */
  lemma LockedPassesKeepTheInterval(s: System, actions: seq<Action>, id: string, interval: int)
    requires Fresh(s) && interval > 0 && (id in s.disk ==> s.disk[id].trigger == RecurringInterval(interval))
    requires Locked(actions, id) && S.NoSetBackFrom(FiresOf(s, actions, id), 0)
    ensures S.Gaps(FiresOf(s, actions, id), interval) && S.Bounded(FiresOf(s, actions, id), interval)
  {
    var fires := FiresOf(s, actions, id);
    assert [] + fires == fires;
    assert forall p: nat :: s.At(p) == Idle;
    RunKeeps(s, actions, id, interval, []);
    S.GapsBoundWindows(fires, interval);
  }
}
