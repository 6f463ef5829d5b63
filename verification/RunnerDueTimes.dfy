/** One-shot automations wait for their time, however passes interleave (src/voxera/automation/runner.py). */
module RunnerDueTimes {
  import opened AutomationModels
  import opened AutomationRunner
  import opened RunnerPasses
  import opened Wrappers

  /** The trigger and the creation time never change. */
  predicate Timed(d: Definition, trigger: Trigger, created: int)
  {
    d.trigger == trigger && d.createdAtMs == created
  }

  predicate CopyTimed(pc: Pc, id: string, trigger: Trigger, created: int)
  {
    HasSnapshot(pc) ==>
      forall k :: 0 <= k < |pc.snapshot| && pc.snapshot[k].id == id ==> Timed(pc.snapshot[k], trigger, created)
  }

  ghost predicate Inv(s: System, id: string, trigger: Trigger, created: int)
  {
    && (forall x :: x in s.disk ==> s.disk[x].id == x)
    && (id in s.disk ==> Timed(s.disk[id], trigger, created))
    && (forall p: nat :: CopyTimed(s.At(p), id, trigger, created))
  }

  lemma StepKeeps(s: System, a: Action, id: string, trigger: Trigger, created: int)
    requires Inv(s, id, trigger, created)
    ensures Inv(Act(s, a), id, trigger, created)
  {
    hide Act, CopyTimed;
    CopiesKeep(s, a, id, trigger, created);
    DiskKeeps(s, a, id, trigger, created);
  }

  lemma DiskKeeps(s: System, a: Action, id: string, trigger: Trigger, created: int)
    requires (forall x :: x in s.disk ==> s.disk[x].id == x) && (id in s.disk ==> Timed(s.disk[id], trigger, created))
    requires a.SaveDefinition? ==> CopyTimed(s.At(a.p), id, trigger, created)
    ensures var disk := Act(s, a).disk;
            (forall x :: x in disk ==> disk[x].id == x) && (id in disk ==> Timed(disk[id], trigger, created))
  {
    hide Evaluate, Saved, TouchUpdated, Stamped, Listing;
    match a
    case SaveDefinition(p, digest, _, _) =>
      if s.At(p).Recorded? && s.At(p).i < |s.At(p).snapshot| {
        SavedFields(s.At(p).snapshot[s.At(p).i], s.At(p).now, digest);
      }
    case FireOnce(x, _, now, digest, _) =>
      if x in s.disk { SavedFields(s.disk[x], now, digest); }
    case Toggle(x, on, clock) =>
      if x in s.disk { TouchedFields(s.disk[x].(enabled := on), clock); }
    case _ =>
  }

  lemma TouchedFields(d: Definition, clock: int)
    ensures var t := TouchUpdated(d, None, clock).value; t.id == d.id && t.trigger == d.trigger && t.createdAtMs == d.createdAtMs
  {
  }

  lemma CopiesKeep(s: System, a: Action, id: string, trigger: Trigger, created: int)
    requires Inv(s, id, trigger, created)
    ensures forall q: nat :: CopyTimed(Act(s, a).At(q), id, trigger, created)
  {
    hide Evaluate, Saved, TouchUpdated;
    forall q: nat ensures CopyTimed(Act(s, a).At(q), id, trigger, created) {
      assert CopyTimed(s.At(q), id, trigger, created);
    }
  }

  lemma {:induction false} RunKeeps(s: System, actions: seq<Action>, id: string, trigger: Trigger, created: int)
    requires Inv(s, id, trigger, created)
    ensures Inv(Run(s, actions), id, trigger, created)
    decreases |actions|
  {
    hide Inv, Act;
    if actions != [] {
      StepKeeps(s, actions[0], id, trigger, created);
      RunKeeps(Act(s, actions[0]), actions[1..], id, trigger, created);
    }
  }

  /** The step emits a job of `id`; `StampOf` is its time stamp. */
  ghost predicate Emits(s: System, a: Action, id: string, forced: bool)
  {
    var log := Act(s, a).log;
    |log| > |s.log| && log[|s.log|] == Fired(id, forced)
  }

  function StampOf(s: System, a: Action): int
  {
    if a.FireOnce? then a.now
    else if a.Emit? && HasSnapshot(s.At(a.p)) then s.At(a.p).now
    else 0
  }

  /**
   At any moment of any run from an idle start: an unforced job of a one-shot automation is stamped at or after the time
   it was set for, a delay counted from its creation; a cron or watch automation emits no job, forced or not.
   */
  lemma OneShotsWaitForTheirTime(start: System, before: seq<Action>, a: Action, id: string)
    requires Fresh(start) && id in start.disk
    ensures var s, d := Run(start, before), start.disk[id];
            && (Emits(s, a, id, false) && d.trigger.OnceAt? ==> StampOf(s, a) >= d.trigger.runAtMs)
            && (Emits(s, a, id, false) && d.trigger.Delay? ==> StampOf(s, a) >= d.createdAtMs + d.trigger.delayMs)
            && (d.trigger.RecurringCron? || d.trigger.WatchPath? ==> !Emits(s, a, id, false) && !Emits(s, a, id, true))
  {
    hide Run, Saved, TouchUpdated, Act;
    var d := start.disk[id];
    assert forall p: nat :: start.At(p) == Idle;
    RunKeeps(start, before, id, d.trigger, d.createdAtMs);
    var s := Run(start, before);
    if Emits(s, a, id, false) { EmissionIsDue(s, a, id, false); }
    if Emits(s, a, id, true) { EmissionIsDue(s, a, id, true); }
    if a.Emit? {
      assert CopyTimed(s.At(a.p), id, d.trigger, d.createdAtMs);
    }
  }

  /** What is emitted is a copy, or the stored definition, that was found due. */
  lemma EmissionIsDue(s: System, a: Action, id: string, forced: bool)
    requires Emits(s, a, id, forced) && (forall x :: x in s.disk ==> s.disk[x].id == x)
    ensures if a.FireOnce? then a.id == id && id in s.disk && a.forced == forced && Evaluate(s.disk[id], a.now, forced) == Due
            else a.Emit? && !forced && exists k: nat :: OwesAt(s.At(a.p), id, k)
  {
    hide Evaluate, Saved, TouchUpdated;
    if a.Emit? {
      assert OwesAt(s.At(a.p), id, s.At(a.p).i);
    }
  }
}
