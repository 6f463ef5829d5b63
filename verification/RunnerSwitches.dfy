/**
 When an operator's switch-off of a recurring automation holds: a process that has loaded the definition while
 it was on may still save its own copy, so what counts is whether any process owes a fire at that moment
 (src/voxera/automation/runner.py, src/voxera/automation/store.py).
 */
module RunnerSwitches {
  import opened AutomationModels
  import opened AutomationRunner
  import opened RunnerPasses
  import opened RunnerStamps
  import opened Wrappers

  predicate Off(s: System, id: string)
  {
    id in s.disk ==> !s.disk[id].enabled
  }

  /** A process that records or saves a fire has found its copy due; copies of `id` are recurring. */
  ghost predicate PcOk(pc: Pc, id: string)
  {
    HasSnapshot(pc) ==>
      && (pc.InFlight() ==> pc.i < |pc.snapshot| && Evaluate(pc.snapshot[pc.i], pc.now, false) == Due)
      && forall k :: pc.i <= k < |pc.snapshot| && pc.snapshot[k].id == id ==> Repeats(pc.snapshot[k])
  }

  /** Recurring, with positive stamps as the store's validation demands; due at positive times only. */
  predicate Repeats(d: Definition)
  {
    && d.trigger.RecurringInterval? && d.trigger.intervalMs > 0
    && d.createdAtMs > 0 && (d.nextRunAtMs.Some? ==> d.nextRunAtMs.value > 0)
  }

  ghost predicate Inv(s: System, id: string)
  {
    && Keyed(s.disk)
    && (id in s.disk ==> Repeats(s.disk[id]))
    && forall p: nat :: PcOk(s.At(p), id)
  }

  ghost predicate NobodyOwes(s: System, id: string)
  {
    forall p: nat :: !Owes(s.At(p), id)
  }

  // ----- what every step keeps

  lemma SavedRepeats(d: Definition, now: int, digest: string)
    requires Repeats(d) && now > 0
    ensures Repeats(Saved(d, now, digest)) && Saved(d, now, digest).enabled
  {
  }

  lemma StepKeeps(s: System, a: Action, id: string)
    requires Inv(s, id)
    ensures Inv(Act(s, a), id)
  {
    match a
    case SaveDefinition(_, _, _, _) => SaveKeeps(s, a, id);
    case FireOnce(_, _, _, _, _) => OperatorKeeps(s, a, id);
    case Toggle(_, _, _) => OperatorKeeps(s, a, id);
    case Remove(_) => OperatorKeeps(s, a, id);
    case _ => PassKeeps(s, a, id);
  }

  lemma PassKeeps(s: System, a: Action, id: string)
    requires Inv(s, id)
    requires !a.SaveDefinition? && !a.FireOnce? && !a.Toggle? && !a.Remove?
    ensures Inv(Act(s, a), id)
  {
    hide Evaluate, Repeats;
    var t := Act(s, a);
    forall q: nat ensures PcOk(t.At(q), id) {
      assert PcOk(s.At(q), id);
    }
  }

  lemma SaveKeeps(s: System, a: Action, id: string)
    requires Inv(s, id) && a.SaveDefinition?
    ensures Inv(Act(s, a), id)
  {
    hide Evaluate, Repeats, Saved;
    var t := Act(s, a);
    var pc := s.At(a.p);
    assert PcOk(pc, id);
    if pc.Recorded? && pc.now > 0 {
      SavedFields(pc.snapshot[pc.i], pc.now, a.digest);
      if pc.snapshot[pc.i].id == id { SavedRepeats(pc.snapshot[pc.i], pc.now, a.digest); }
    }
    forall q: nat ensures PcOk(t.At(q), id) {
      assert PcOk(s.At(q), id);
    }
  }

  lemma OperatorKeeps(s: System, a: Action, id: string)
    requires Inv(s, id) && (a.FireOnce? || a.Toggle? || a.Remove?)
    ensures Inv(Act(s, a), id)
  {
    hide Evaluate;
    var t := Act(s, a);
    forall q: nat ensures t.At(q) == s.At(q) {
    }
  }

  lemma {:induction false} RunKeeps(s: System, actions: seq<Action>, id: string)
    requires Inv(s, id)
    ensures Inv(Run(s, actions), id)
    decreases |actions|
  {
    hide Inv;
    if actions != [] {
      StepKeeps(s, actions[0], id);
      RunKeeps(Act(s, actions[0]), actions[1..], id);
    }
  }

  // ----- off stays off

  lemma NobodyNewOwes(s: System, a: Action, id: string)
    requires Inv(s, id) && Off(s, id) && NobodyOwes(s, id)
    ensures NobodyOwes(Act(s, a), id)
  {
    hide Saved, Repeats;
    var t := Act(s, a);
    forall q: nat ensures !Owes(t.At(q), id) {
      assert !Owes(s.At(q), id);
      forall k: nat ensures !OwesAt(t.At(q), id, k) {
        assert !OwesAt(s.At(q), id, k);
      }
    }
  }

  /** No step of these switches `id` on. */
  predicate NoSwitchOn(actions: seq<Action>, id: string)
  {
    forall k :: 0 <= k < |actions| && actions[k].Toggle? && actions[k].id == id ==> !actions[k].on
  }

  /** In every continuation in which nobody switches `id` on it is off, or gone. */
  ghost predicate HoldsOff(s: System, id: string)
  {
    forall actions: seq<Action> :: NoSwitchOn(actions, id) ==> Off(Run(s, actions), id)
  }

  lemma {:induction false} RunStaysOff(s: System, actions: seq<Action>, id: string)
    requires Inv(s, id) && Off(s, id) && NobodyOwes(s, id) && NoSwitchOn(actions, id)
    ensures Off(Run(s, actions), id)
    decreases |actions|
  {
    if actions != [] {
      var a := actions[0];
      NobodyNewOwes(s, a, id);
      if a.SaveDefinition? && s.At(a.p).Recorded? && s.At(a.p).i < |s.At(a.p).snapshot| {
        var pc := s.At(a.p);
        assert PcOk(pc, id) && !Owes(pc, id) && !OwesAt(pc, id, pc.i);
        SavedFields(pc.snapshot[pc.i], pc.now, a.digest);
      }
      if a.FireOnce? && a.id in s.disk {
        SavedFields(s.disk[a.id], a.now, a.digest);
      }
      assert Off(Act(s, a), id);
      hide Inv, Off, NobodyOwes;
      StepKeeps(s, a, id);
      RunStaysOff(Act(s, actions[0]), actions[1..], id);
    }
  }

  lemma OwedFireSwitchesOn(s: System, p: nat, id: string)
    requires Inv(s, id) && Owes(s.At(p), id)
    ensures !HoldsOff(s, id)
  {
    hide Saved, Run;
    var pc := s.At(p);
    var k: nat :| OwesAt(pc, id, k);
    assert PcOk(pc, id);
    SavedRepeats(pc.snapshot[k], pc.now, "");
    var actions := OwedFireCompletes(s, p, k, id);
    assert NoSwitchOn(actions, id) && !Off(Run(s, actions), id);
  }

  /** A switch-off holds in every continuation exactly if no process owes a fire of the automation when it is made. */
  lemma SwitchOffHoldsIffNobodyOwes(s: System, id: string)
    requires Inv(s, id) && Off(s, id)
    ensures HoldsOff(s, id) <==> forall p: nat :: !Owes(s.At(p), id)
  {
    if p: nat :| Owes(s.At(p), id) {
      OwedFireSwitchesOn(s, p, id);
    } else {
      forall actions: seq<Action> | NoSwitchOn(actions, id) ensures Off(Run(s, actions), id) {
        RunStaysOff(s, actions, id);
      }
    }
  }

  /** The same at any moment of any run that starts with a valid recurring automation and no process in a pass. */
  lemma SwitchOffAtAnyMoment(start: System, before: seq<Action>, id: string)
    requires Fresh(start) && (id in start.disk ==> Repeats(start.disk[id]))
    requires Off(Run(start, before), id)
    ensures HoldsOff(Run(start, before), id) <==> forall p: nat :: !Owes(Run(start, before).At(p), id)
  {
    assert forall p: nat :: start.At(p) == Idle;
    RunKeeps(start, before, id);
    SwitchOffHoldsIffNobodyOwes(Run(start, before), id);
  }
}
