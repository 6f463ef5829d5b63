/** What a mission's dry run foretells of its runs (src/voxera/core/missions.py, src/voxera/skills/runner.py). */
module DryRuns {
  import opened Approvals
  import opened Decisions
  import opened MissionQueue
  import opened Missions
  import opened Values
  import P = Policy

  /** The registered skills, the operator's policy, and the `network` argument of a step. */
  datatype Setting = Setting(registry: map<string, P.Manifest>, policy: P.PolicyApprovals, network: Step -> Value)

  /** The world's verdicts are those that are enforced when a step is run. */
  ghost predicate Enforces(w: World, t: Setting)
  {
    && w.manifests.Keys == t.registry.Keys
    && forall step: Step :: step.skill in t.registry ==>
         w.verdict(step) == P.Enforced(t.registry[step.skill], t.policy, t.network(step))
  }

  /** The dry run looks every skill up; an unknown one is an error. */
  predicate Known(t: Setting, steps: seq<Step>)
  {
    forall k :: 0 <= k < |steps| ==> steps[k].skill in t.registry
  }

  function Planned(t: Setting, steps: seq<Step>): (r: seq<P.Step>)
    requires Known(t, steps)
    ensures |r| == |steps|
    ensures forall k :: 0 <= k < |steps| ==> r[k] == P.Step(t.registry[steps[k].skill], t.network(steps[k]))
  {
    if steps == [] then []
    else
      var n := |steps| - 1;
      Planned(t, steps[..n]) + [P.Step(t.registry[steps[n].skill], t.network(steps[n]))]
  }

  function DryRun(t: Setting, m: Mission): P.DryRun
    requires Known(t, m.steps)
  {
    P.Simulated(Planned(t, m.steps), t.policy)
  }

  function DryVerdict(t: Setting, step: Step): Decision
    requires step.skill in t.registry
  {
    P.Decided(t.registry[step.skill], t.policy, Truthy(t.network(step)))
  }

  lemma RunIsStricter(w: World, t: Setting, step: Step)
    requires Enforces(w, t) && step.skill in t.registry
    ensures w.verdict(step) == DryVerdict(t, step) || w.verdict(step).Deny?
  {
    hide P.Decided;
  }

  lemma {:induction false} AskingIsAnnounced(w: World, t: Setting, m: Mission, n: nat)
    requires Enforces(w, t) && Known(t, m.steps) && n <= |m.steps|
    ensures Asking(w, m, n) <= P.Simulated(Planned(t, m.steps)[..n], t.policy).approvalsRequired
  {
    hide P.Decided, P.Project, Enforces;
    if n > 0 {
      var planned := Planned(t, m.steps);
      AskingIsAnnounced(w, t, m, n - 1);
      assert planned[..n][..n - 1] == planned[..n - 1];
      RunIsStricter(w, t, m.steps[n - 1]);
    }
  }

  /**
   In each attempt of any run a job takes at most as many approvals as the dry run of its mission has announced,
   and one more to pass a hard gate.
   */
  lemma ApprovalsAreAnnounced(w: World, t: Setting, plans: Plans, ops: seq<Op>, initial: seq<Grant>, stem: string)
    requires Enforces(w, t) && Known(t, plans.mission(stem).steps)
    ensures StoryOf(Run(w, plans, Empty(initial), ops).desk.log, stem).approvals <=
              DryRun(t, plans.mission(stem)).approvalsRequired + if plans.hard(stem) then 1 else 0
  {
    hide Run, StoryOf;
    var m := plans.mission(stem);
    ApprovalsAreBounded(w, plans, ops, initial, stem);
    AskingIsAnnounced(w, t, m, |m.steps|);
    assert Planned(t, m.steps)[..|m.steps|] == Planned(t, m.steps);
  }

  /** The run decides about a step as its dry run does. */
  predicate Agrees(w: World, t: Setting, step: Step)
    requires step.skill in t.registry
  {
    w.verdict(step) == DryVerdict(t, step)
  }

  /** The policy denies a step of the mission when it is run. */
  ghost predicate DeniesAStep(w: World, m: Mission)
  {
    exists k :: 0 <= k < |m.steps| && w.verdict(m.steps[k]).Deny?
  }

  /** A blocked mission has a step that is denied; a mission reported ready has one exactly if a verdict differs. */
  lemma ReadyMissionIsDeniedIffVerdictsDiffer(w: World, t: Setting, m: Mission)
    requires Enforces(w, t) && Known(t, m.steps)
    ensures DryRun(t, m).blocked ==> DeniesAStep(w, m)
    ensures !DryRun(t, m).blocked ==>
              (DeniesAStep(w, m) <==> exists k :: 0 <= k < |m.steps| && !Agrees(w, t, m.steps[k]))
  {
    hide P.Decided, P.Enforced, P.Simulated;
    var planned := Planned(t, m.steps);
    P.DryRunMeans(planned, t.policy);
    forall k | 0 <= k < |m.steps|
      ensures Agrees(w, t, m.steps[k]) || w.verdict(m.steps[k]).Deny?
      ensures P.StepIs(planned[k], t.policy, Decision.Deny) <==> DryVerdict(t, m.steps[k]).Deny?
    {
      RunIsStricter(w, t, m.steps[k]);
    }
    if DryRun(t, m).blocked {
      var k :| 0 <= k < |planned| && P.StepIs(planned[k], t.policy, Decision.Deny);
      assert w.verdict(m.steps[k]).Deny?;
    }
  }

  predicate Runs(w: World, step: Step)
  {
    step.skill in w.manifests && !w.verdict(step).Deny?
  }

  lemma {:induction false} RunnableMissionRunsThrough(w: World, m: Mission, stem: string, attempt: nat, i: nat)
    requires forall k :: 0 <= k < |m.steps| ==> Runs(w, m.steps[k])
    requires forall n: nat :: w.works(stem, attempt, n)
    requires 1 <= i <= |m.steps| + 1
    ensures |Uninterrupted(w, stem, attempt, m, i)| == |m.steps| + 1 - i
    decreases |m.steps| + 1 - i
  {
    if i <= |m.steps| {
      RunnableMissionRunsThrough(w, m, stem, attempt, i + 1);
      assert Runs(w, m.steps[i - 1]);
    }
  }

  /** Granted and working, a mission that the dry run reports ready is executed to its end, if its verdicts are the run's. */
  lemma ReadyMissionRunsThrough(w: World, t: Setting, m: Mission, stem: string, attempt: nat)
    requires Enforces(w, t) && Known(t, m.steps) && !DryRun(t, m).blocked
    requires forall k :: 0 <= k < |m.steps| ==> Agrees(w, t, m.steps[k])
    requires forall n: nat :: w.works(stem, attempt, n)
    ensures |Uninterrupted(w, stem, attempt, m, 1)| == |m.steps|
  {
    hide Agrees, DryRun;
    ReadyMissionIsDeniedIffVerdictsDiffer(w, t, m);
    forall k | 0 <= k < |m.steps| ensures Runs(w, m.steps[k]) {
      assert m.steps[k].skill in w.manifests.Keys;
    }
    RunnableMissionRunsThrough(w, m, stem, attempt, 1);
  }
}
