/**
 The stored update time of a definition while passes of the runner, unlocked fires and operators' switches
 interleave: when a step sets it back, and that nothing else does (src/voxera/automation/runner.py,
 src/voxera/automation/store.py).
 */
module RunnerStamps {
  import opened AutomationModels
  import opened AutomationRunner
  import opened Collections
  import opened RunnerPasses
  import opened Wrappers

  predicate Keyed(disk: map<string, Definition>)
  {
    forall x :: x in disk ==> disk[x].id == x
  }

  /** A pass saves its copy of `id`, though the stored definition has a later update time than the save will write. */
  predicate StaleSave(s: System, a: Action, id: string)
  {
    && a.SaveDefinition? && a.ok
    && var pc := s.At(a.p);
       && pc.Recorded? && pc.now > 0 && pc.i < |pc.snapshot| && pc.snapshot[pc.i].id == id
       && id in s.disk
       && s.disk[id].updatedAtMs > Max(pc.now, Max(pc.snapshot[pc.i].createdAtMs, pc.snapshot[pc.i].updatedAtMs))
  }

  /** No other step of the protocol lowers a stored update time, and a stale save always does. */
  lemma StepLowersStampIffStale(s: System, a: Action, id: string)
    requires Keyed(s.disk)
    ensures Keyed(Act(s, a).disk)
    ensures id in s.disk && a != Remove(id) ==>
              id in Act(s, a).disk && (Act(s, a).disk[id].updatedAtMs < s.disk[id].updatedAtMs <==> StaleSave(s, a, id))
  {
    hide Evaluate, Saved, Listing;
    if a.SaveDefinition? && s.At(a.p).Recorded? && s.At(a.p).i < |s.At(a.p).snapshot| {
      SavedStamp(s.At(a.p).snapshot[s.At(a.p).i], s.At(a.p).now, a.digest);
    }
    if a.FireOnce? && a.id in s.disk {
      SavedStamp(s.disk[a.id], a.now, a.digest);
    }
  }

  lemma SavedStamp(d: Definition, now: int, digest: string)
    ensures Saved(d, now, digest).id == d.id
    ensures Saved(d, now, digest).updatedAtMs == Max(now, Max(d.createdAtMs, d.updatedAtMs))
  {
  }

  ghost predicate Undisturbed(s: System, actions: seq<Action>, id: string)
    decreases |actions|
  {
    actions != [] ==>
      !StaleSave(s, actions[0], id) && actions[0] != Remove(id) && Undisturbed(Act(s, actions[0]), actions[1..], id)
  }

  /** Over every interleaving without a stale save the stored update time never goes back. */
  lemma {:induction false} StoredStampNeverGoesBack(s: System, actions: seq<Action>, id: string)
    requires Keyed(s.disk) && id in s.disk && Undisturbed(s, actions, id)
    ensures id in Run(s, actions).disk && Run(s, actions).disk[id].updatedAtMs >= s.disk[id].updatedAtMs
    decreases |actions|
  {
    hide Act, StaleSave;
    if actions != [] {
      StepLowersStampIffStale(s, actions[0], id);
      StoredStampNeverGoesBack(Act(s, actions[0]), actions[1..], id);
    }
  }

  const RECURRING := Definition("a", "Again", "", true, RecurringInterval(10), "{}", 1, 1, None, None, None, [], "standard", "cli")

  /**
   An operator switches a recurring automation off at 1000 while a pass that loaded it at 20 is about to fire
   it: the pass's save takes the stored update time back to 20, and switches the automation on again.
   */
  lemma SwitchDuringPassIsLost()
    ensures var s, load, off := Alone(RECURRING), Load(RECURRING, 20), Toggle("a", false, 1000);
            var before, after := Run(s, load + [off]).disk, Run(s, load + [off] + FINISH).disk;
            && Fresh(s) && "a" in before && "a" in after
            && before["a"].updatedAtMs == 1000 && !before["a"].enabled
            && after["a"].updatedAtMs == 20 && after["a"].enabled
  {
    hide Run;
    var s, load, off := Alone(RECURRING), Load(RECURRING, 20), Toggle("a", false, 1000);
    LoadLeads(RECURRING, 20);
    ThreePhases(s, load, off, FINISH);
    FireSteps(Act(Run(s, load), off), 0, "x", true, false);
  }
}
