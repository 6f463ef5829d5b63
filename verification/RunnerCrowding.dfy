/**
 Forced fires of a recurring automation in the middle of a pass. A process that has found the automation due
 before the forced fire still completes its own, which may then come less than an interval after the forced one:
 exactly when that happens, and that nothing else does it (src/voxera/automation/runner.py).
 */
module RunnerCrowding {
  import opened AutomationModels
  import opened AutomationRunner
  import opened RunnerPasses
  import opened RunnerSpacing
  import opened Wrappers
  import S = AutomationSpacing

  /** `x` is an interval or more after the last fire of any kind. */
  predicate Past(x: int, interval: int, fires: seq<S.Fire>)
  {
    fires == [] || x >= fires[|fires| - 1].stamp + interval
  }

  predicate DefinitionOk(d: Definition, interval: int, fires: seq<S.Fire>)
  {
    d.trigger == RecurringInterval(interval) &&
    (fires != [] ==> d.nextRunAtMs.Some? && Past(d.nextRunAtMs.value, interval, fires))
  }

  predicate CopyDistinct(pc: Pc)
  {
    HasSnapshot(pc) ==> forall j, k :: 0 <= j < k < |pc.snapshot| ==> pc.snapshot[j].id != pc.snapshot[k].id
  }

  ghost predicate CopyOk(pc: Pc, id: string, interval: int, fires: seq<S.Fire>)
  {
    CopyDistinct(pc) && (HasSnapshot(pc) ==>
      && (forall k :: pc.i <= k < |pc.snapshot| && pc.snapshot[k].id == id ==> pc.snapshot[k].trigger == RecurringInterval(interval))
      && (pc.InFlight() ==> pc.i < |pc.snapshot| && Evaluate(pc.snapshot[pc.i], pc.now, false) == Due)
      && (Owes(pc, id) ==> Past(pc.now, interval, fires)))
  }

  ghost predicate Inv(s: System, id: string, interval: int, fires: seq<S.Fire>)
  {
    && MutualExclusion(s)
    && (forall x :: x in s.disk ==> s.disk[x].id == x)
    && (id in s.disk ==> DefinitionOk(s.disk[id], interval, fires))
    && (forall p: nat :: CopyOk(s.At(p), id, interval, fires))
  }

  /** A process will fire its copy at a stamp less than an interval after `stamp`. */
  ghost predicate Crowds(s: System, p: nat, id: string, interval: int, stamp: int)
  {
    Owes(s.At(p), id) && s.At(p).now < stamp + interval
  }

  /** No unlocked, unforced fire of `id`, and no forced one that a process is about to follow too closely. */
  ghost predicate Uncrowded(s: System, a: Action, id: string, interval: int)
  {
    a.FireOnce? && FireOf(s, a, id) != [] ==> a.forced && forall p: nat :: !Crowds(s, p, id, interval, a.now)
  }

  // ----- every uncrowded step keeps the distance

  lemma OwesLater(pc: Pc, next: Pc, id: string)
    requires HasSnapshot(pc) && HasSnapshot(next) && pc.snapshot == next.snapshot && pc.now == next.now && pc.i <= next.i
    ensures Owes(next, id) ==> Owes(pc, id)
  {
    if k: nat :| OwesAt(next, id, k) {
      assert OwesAt(pc, id, k);
    }
  }

  lemma WalkKeeps(s: System, a: Action, id: string, interval: int, fires: seq<S.Fire>)
    requires Inv(s, id, interval, fires)
    requires a.Open? || a.Skip? || a.Emit? || a.WriteHistory? || a.EndWalk?
    ensures Inv(Act(s, a), id, interval, fires)
  {
    hide Evaluate, DefinitionOk, Past, Owes;
    var t := Act(s, a);
    var pc := s.At(a.p);
    assert CopyOk(pc, id, interval, fires);
    StepKeepsExclusion(s, a);
    if HasSnapshot(pc) && HasSnapshot(t.At(a.p)) {
      OwesLater(pc, t.At(a.p), id);
    }
    forall q: nat ensures q != a.p ==> t.At(q) == s.At(q) {
    }
    assert CopyOk(t.At(a.p), id, interval, fires);
  }

  lemma LoadKeeps(s: System, a: Action, id: string, interval: int, fires: seq<S.Fire>)
    requires Inv(s, id, interval, fires) && a.LoadAll?
    ensures Inv(Act(s, a), id, interval, fires)
  {
    var t := Act(s, a);
    StepKeepsExclusion(s, a);
    if s.At(a.p).Holding? && Listing(s.disk, a.snapshot) {
      var pc := Walking(a.snapshot, 0, a.now);
      if k: nat :| OwesAt(pc, id, k) {
        assert DefinitionOk(a.snapshot[k], interval, fires);
      }
    }
    forall q: nat ensures CopyOk(t.At(q), id, interval, fires) {
      assert CopyOk(s.At(q), id, interval, fires);
    }
  }

  lemma LockKeeps(s: System, a: Action, id: string, interval: int, fires: seq<S.Fire>)
    requires Inv(s, id, interval, fires)
    requires a.TryLock? || a.Release? || a.Crash?
    ensures Inv(Act(s, a), id, interval, fires)
  {
    hide DefinitionOk, Evaluate, Past, Owes, MutualExclusion;
    var t := Act(s, a);
    StepKeepsExclusion(s, a);
    forall q: nat ensures CopyOk(t.At(q), id, interval, fires) {
      assert CopyOk(s.At(q), id, interval, fires);
    }
  }

  lemma SavedIsOk(d: Definition, now: int, digest: string, interval: int, fires: seq<S.Fire>, forced: bool)
    requires d.trigger == RecurringInterval(interval)
    ensures DefinitionOk(Saved(d, now, digest), interval, fires + [S.Fire.Fire(now, forced)])
    ensures Saved(d, now, digest).id == d.id
  {
  }

  lemma SaveKeeps(s: System, a: Action, id: string, interval: int, fires: seq<S.Fire>)
    requires Inv(s, id, interval, fires) && a.SaveDefinition?
    ensures Inv(Act(s, a), id, interval, fires + FireOf(s, a, id))
    ensures FireOf(s, a, id) != [] ==> Past(FireOf(s, a, id)[0].stamp, interval, fires)
  {
    hide DefinitionOk, Evaluate, Saved, Past, Owes;
    var pc := s.At(a.p);
    assert CopyOk(pc, id, interval, fires);
    StepKeepsExclusion(s, a);
    assert fires + [] == fires;
    if pc.Recorded? {
      var d := pc.snapshot[pc.i];
      SavedFields(d, pc.now, a.digest);
      Advance(pc.snapshot, pc.i, pc.now, id);
      if d.id == id {
        assert Owes(pc, id) by { OwesWhenInFlight(pc, id); }
        SavedIsOk(d, pc.now, a.digest, interval, fires, false);
      }
      if a.ok && pc.now > 0 {
        SavedCopies(s, a, id, interval, fires);
      } else {
        GivenUpCopies(s, a, id, interval, fires);
      }
    }
  }

  lemma Advance(ds: seq<Definition>, i: nat, now: int, id: string)
    requires i < |ds| && forall j, k :: 0 <= j < k < |ds| ==> ds[j].id != ds[k].id
    ensures Owes(Walking(ds, i + 1, now), id) ==> Owes(Recorded(ds, i, now), id) && ds[i].id != id
  {
    var next := Walking(ds, i + 1, now);
    if k: nat :| OwesAt(next, id, k) {
      assert OwesAt(Recorded(ds, i, now), id, k);
    }
  }

  lemma SavedCopies(s: System, a: Action, id: string, interval: int, fires: seq<S.Fire>)
    requires Inv(s, id, interval, fires) && a.SaveDefinition? && s.At(a.p).Recorded? && a.ok && s.At(a.p).now > 0
    ensures forall q: nat :: CopyOk(Act(s, a).At(q), id, interval, fires + FireOf(s, a, id))
  {
    hide DefinitionOk, Evaluate, Saved, Past, Owes;
    var t := Act(s, a);
    var pc := s.At(a.p);
    assert CopyOk(pc, id, interval, fires);
    Advance(pc.snapshot, pc.i, pc.now, id);
    assert fires + [] == fires;
    forall q: nat ensures CopyOk(t.At(q), id, interval, fires + FireOf(s, a, id)) {
      assert CopyOk(s.At(q), id, interval, fires);
      if q != a.p {
        assert !s.At(q).Critical();
      }
    }
  }

  lemma GivenUpCopies(s: System, a: Action, id: string, interval: int, fires: seq<S.Fire>)
    requires Inv(s, id, interval, fires) && a.SaveDefinition? && s.At(a.p).Recorded? && !(a.ok && s.At(a.p).now > 0)
    ensures forall q: nat :: CopyOk(Act(s, a).At(q), id, interval, fires)
  {
    hide DefinitionOk, Evaluate, Saved, Past, Owes;
    var t := Act(s, a);
    var pc := s.At(a.p);
    assert CopyOk(pc, id, interval, fires);
    Advance(pc.snapshot, pc.i, pc.now, id);
    forall q: nat ensures CopyOk(t.At(q), id, interval, fires) {
      assert CopyOk(s.At(q), id, interval, fires);
    }
  }

  lemma FireKeeps(s: System, a: Action, id: string, interval: int, fires: seq<S.Fire>)
    requires Inv(s, id, interval, fires) && a.FireOnce? && Uncrowded(s, a, id, interval)
    ensures Inv(Act(s, a), id, interval, fires + FireOf(s, a, id))
  {
    hide Evaluate, Saved, Owes;
    var t := Act(s, a);
    assert fires + [] == fires;
    if a.id in s.disk {
      SavedFields(s.disk[a.id], a.now, a.digest);
      if a.id == id { SavedIsOk(s.disk[id], a.now, a.digest, interval, fires, true); }
    }
    forall q: nat ensures CopyOk(t.At(q), id, interval, fires + FireOf(s, a, id)) {
      assert CopyOk(s.At(q), id, interval, fires);
      assert FireOf(s, a, id) != [] ==> !Crowds(s, q, id, interval, a.now);
    }
  }

  lemma OperatorKeeps(s: System, a: Action, id: string, interval: int, fires: seq<S.Fire>)
    requires Inv(s, id, interval, fires) && (a.Toggle? || a.Remove?)
    ensures Inv(Act(s, a), id, interval, fires)
  {
    hide Evaluate, Owes;
    var t := Act(s, a);
    forall q: nat ensures t.At(q) == s.At(q) {
    }
  }

  lemma StepKeeps(s: System, a: Action, id: string, interval: int, fires: seq<S.Fire>)
    requires Inv(s, id, interval, fires) && Uncrowded(s, a, id, interval)
    ensures Inv(Act(s, a), id, interval, fires + FireOf(s, a, id))
    ensures S.Spaced(fires, interval) ==> S.Spaced(fires + FireOf(s, a, id), interval)
  {
    hide Inv, Act;
    assert fires + [] == fires;
    match a
    case SaveDefinition(_, _, _, _) => SaveKeeps(s, a, id, interval, fires);
    case FireOnce(_, _, _, _, _) => FireKeeps(s, a, id, interval, fires);
    case TryLock(_) => LockKeeps(s, a, id, interval, fires);
    case Release(_) => LockKeeps(s, a, id, interval, fires);
    case Crash(_) => LockKeeps(s, a, id, interval, fires);
    case LoadAll(_, _, _) => LoadKeeps(s, a, id, interval, fires);
    case Toggle(_, _, _) => OperatorKeeps(s, a, id, interval, fires);
    case Remove(_) => OperatorKeeps(s, a, id, interval, fires);
    case _ => WalkKeeps(s, a, id, interval, fires);
  }

  ghost predicate UncrowdedRun(s: System, actions: seq<Action>, id: string, interval: int)
    decreases |actions|
  {
    actions != [] ==> Uncrowded(s, actions[0], id, interval) && UncrowdedRun(Act(s, actions[0]), actions[1..], id, interval)
  }

  lemma {:induction false} RunKeeps(s: System, actions: seq<Action>, id: string, interval: int, fires: seq<S.Fire>)
    requires Inv(s, id, interval, fires) && S.Spaced(fires, interval) && UncrowdedRun(s, actions, id, interval)
    ensures Inv(Run(s, actions), id, interval, fires + FiresOf(s, actions, id))
    ensures S.Spaced(fires + FiresOf(s, actions, id), interval)
    decreases |actions|
  {
    hide Inv, Act, S.Spaced, Uncrowded;
    if actions == [] {
      assert fires + [] == fires;
    } else {
      var a := actions[0];
      var more := FireOf(s, a, id);
      assert fires + FiresOf(s, actions, id) == (fires + more) + FiresOf(Act(s, a), actions[1..], id);
      StepKeeps(s, a, id, interval, fires);
      RunKeeps(Act(s, a), actions[1..], id, interval, fires + more);
    }
  }

  // ----- a forced fire in the middle of a pass

  /** A process that owes a fire of `id` can make it the next fire of `id`, stamped with its pass's stamp. */
  lemma {:induction false} OwedFireIsNext(s: System, p: nat, k: nat, id: string) returns (actions: seq<Action>)
    requires OwesAt(s.At(p), id, k) && s.At(p).now > 0
    requires forall i, j :: 0 <= i < j < |s.At(p).snapshot| ==> s.At(p).snapshot[i].id != s.At(p).snapshot[j].id
    ensures FiresOf(s, actions, id) == [S.Fire.Fire(s.At(p).now, false)]
    ensures forall j :: 0 <= j < |actions| ==> !actions[j].FireOnce?
    decreases k - s.At(p).i, if s.At(p).Walking? then 2 else if s.At(p).Emitted? then 1 else 0
  {
    hide Evaluate, Saved;
    var pc := s.At(p);
    var d := pc.snapshot[pc.i];
    var a :=
      if pc.Emitted? then WriteHistory(p, true)
      else if pc.Recorded? then SaveDefinition(p, "", true, false)
      else if Evaluate(d, pc.now, false) != Due then Skip(p)
      else Emit(p, true, false);
    var rest: seq<Action> := [];
    if !(pc.Recorded? && pc.i == k) {
      assert OwesAt(Act(s, a).At(p), id, k);
      rest := OwedFireIsNext(Act(s, a), p, k, id);
    }
    actions := [a] + rest;
    assert actions[1..] == rest;
    assert FireOf(s, a, id) == if pc.Recorded? && pc.i == k then [S.Fire.Fire(pc.now, false)] else [];
  }

  /** The fires of any kind stay spaced in every continuation without another crowding fire. */
  ghost predicate StaysSpaced(s: System, id: string, interval: int, fires: seq<S.Fire>)
  {
    forall actions: seq<Action> ::
      UncrowdedRun(s, actions, id, interval) ==> S.Spaced(fires + FiresOf(s, actions, id), interval)
  }

  lemma {:induction false} WithoutUnlockedFires(s: System, actions: seq<Action>, id: string, interval: int)
    requires forall j :: 0 <= j < |actions| ==> !actions[j].FireOnce?
    ensures UncrowdedRun(s, actions, id, interval)
    decreases |actions|
  {
    hide Act;
    if actions != [] {
      WithoutUnlockedFires(Act(s, actions[0]), actions[1..], id, interval);
    }
  }

  lemma CrowdedFireBreaksSpacing(s: System, p: nat, id: string, interval: int, fires: seq<S.Fire>)
    requires fires != [] && Owes(s.At(p), id) && s.At(p).now > 0 && !Past(s.At(p).now, interval, fires)
    requires CopyDistinct(s.At(p))
    ensures !StaysSpaced(s, id, interval, fires)
  {
    hide Act;
    var k: nat :| OwesAt(s.At(p), id, k);
    var actions := OwedFireIsNext(s, p, k, id);
    WithoutUnlockedFires(s, actions, id, interval);
    var all := fires + FiresOf(s, actions, id);
    assert all[|fires|] == S.Fire.Fire(s.At(p).now, false) && all[|fires| - 1] == fires[|fires| - 1];
    assert !S.Spaced(all, interval);
  }

  /**
   After a forced fire every unforced fire comes an interval or more after the fire before it, of any kind and
   in every continuation, exactly if no process owes a fire stamped less than an interval after the forced one.
   */
  lemma ForcedFireKeepsSpacingIffNobodyCrowds(s: System, id: string, interval: int, fires: seq<S.Fire>, stamp: int, digest: string)
    requires Inv(s, id, interval, fires) && S.Spaced(fires, interval)
    requires id in s.disk && s.disk[id].enabled && stamp > 0
    requires forall p: nat :: Owes(s.At(p), id) ==> s.At(p).now > 0
    ensures var a := FireOnce(id, true, stamp, digest, true);
            StaysSpaced(Act(s, a), id, interval, fires + [S.Fire.Fire(stamp, true)]) <==>
            forall p: nat :: !Crowds(s, p, id, interval, stamp)
  {
    hide S.Spaced, Saved, Owes;
    var a := FireOnce(id, true, stamp, digest, true);
    var t := Act(s, a);
    assert FireOf(s, a, id) == [S.Fire.Fire(stamp, true)];
    if p: nat :| Crowds(s, p, id, interval, stamp) {
      assert CopyOk(s.At(p), id, interval, fires) && t.At(p) == s.At(p);
      CrowdedFireBreaksSpacing(t, p, id, interval, fires + [S.Fire.Fire(stamp, true)]);
    } else {
      StepKeeps(s, a, id, interval, fires);
      forall actions: seq<Action> | UncrowdedRun(t, actions, id, interval)
        ensures S.Spaced((fires + [S.Fire.Fire(stamp, true)]) + FiresOf(t, actions, id), interval)
      {
        RunKeeps(t, actions, id, interval, fires + [S.Fire.Fire(stamp, true)]);
      }
    }
  }

  /** From an idle start, over every interleaving without a crowding fire. */
  lemma UncrowdedPassesKeepTheInterval(s: System, actions: seq<Action>, id: string, interval: int)
    requires Fresh(s) && (id in s.disk ==> s.disk[id].trigger == RecurringInterval(interval))
    requires UncrowdedRun(s, actions, id, interval)
    ensures S.Spaced(FiresOf(s, actions, id), interval)
  {
    var fires := FiresOf(s, actions, id);
    assert [] + fires == fires;
    assert forall p: nat :: s.At(p) == Idle;
    RunKeeps(s, actions, id, interval, []);
  }
}
