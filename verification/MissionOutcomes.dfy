/** What a settled job's place says of its attempt (src/voxera/core/missions.py, src/voxera/core/queue_approvals.py). */
module MissionOutcomes {
  import opened Approvals
  import opened Decisions
  import opened MissionQueue
  import opened Missions

  /** The step is registered, not denied, and works in this attempt. */
  predicate Succeeds(w: World, stem: string, attempt: nat, m: Mission, n: nat)
    requires 1 <= n <= |m.steps|
  {
    m.steps[n - 1].skill in w.manifests && !w.verdict(m.steps[n - 1]).Deny? && w.works(stem, attempt, n)
  }

  ghost predicate AllSucceed(w: World, stem: string, attempt: nat, m: Mission, i: nat)
    requires i >= 1
  {
    forall n :: i <= n <= |m.steps| ==> Succeeds(w, stem, attempt, m, n)
  }

  /** A run is completed exactly if no step from its first on fails it, unless it pauses. */
  lemma {:induction false} EndingTells(w: World, d: Desk, ref: JobRef, m: Mission, i: nat)
    requires i >= 1
    ensures var stem := StemOf(ref);
            var attempt := StoryOf(d.log, stem).attempt;
            match RunFrom(w, d, ref, m, i).ending
            case Completed => AllSucceed(w, stem, attempt, m, i)
            case Broke(k) => !AllSucceed(w, stem, attempt, m, i)
            case Paused(k) => true
    decreases |m.steps| + 1 - i
  {
    hide StoryOf;
    if i <= |m.steps| {
      var stem := StemOf(ref);
      var (d', result) := RunSkill(w, d, ref, i, m.steps[i - 1]);
      SkillStory(w, d, ref, i, m.steps[i - 1], stem);
      PromptTellsNothing(d, w.dev, Key(ref, i, m.steps[i - 1].skill),
                         if m.steps[i - 1].skill in w.manifests then w.manifests[m.steps[i - 1].skill] else Manifest("", [], Scope("", false)), stem);
      if result.Succeeded? {
        EndingTells(w, d', ref, m, i + 1);
        assert Succeeds(w, stem, StoryOf(d.log, stem).attempt, m, i);
      } else if !result.AwaitingApproval? {
        assert !Succeeds(w, stem, StoryOf(d.log, stem).attempt, m, i);
      }
    }
  }

  /** An uninterrupted attempt that gets to a step has had every step before it succeed. */
  lemma {:induction false} ReachedSucceeds(w: World, stem: string, attempt: nat, m: Mission, i: nat, n: nat)
    requires 1 <= i <= n <= |m.steps| && |Uninterrupted(w, stem, attempt, m, i)| > n - i
    ensures forall x :: i <= x < n ==> Succeeds(w, stem, attempt, m, x)
    decreases n - i
  {
    if i < n {
      ReachedSucceeds(w, stem, attempt, m, i + 1, n);
    }
  }

  /** Done: every step has succeeded. Failed and not denied: some step does not. */
  ghost predicate EndOk(w: World, plans: Plans, s: State, stem: string)
  {
    var story := StoryOf(s.desk.log, stem);
    && (At(s, stem, Done) ==> AllSucceed(w, stem, story.attempt, plans.mission(stem), 1))
    && (At(s, stem, Failed) && !story.denied ==> !AllSucceed(w, stem, story.attempt, plans.mission(stem), 1))
  }

  lemma EndStep(w: World, plans: Plans, s: State, op: Op, stem: string, initial: seq<Grant>)
    requires Inv(w, plans, s, initial) && EndOk(w, plans, s, stem)
    ensures EndOk(w, plans, Apply(w, plans, s, op), stem)
  {
    hide InOrder, RunFrom, StoryOf, DeskForApproval, Uninterrupted, RulesOf, ArtifactOf, Resumption, Save, Asking, AllSucceed;
    assert JobOk(w, plans, s, op.stem) && JobOk(w, plans, s, stem);
    if op.stem != stem {
      StepTouchesOneJob(w, plans, s, op, stem, initial);
    } else {
      match op
      case Process(_) =>
        if At(s, stem, Inbox) && !plans.hard(stem) {
          PlansGovern(w, plans, InInbox(stem), initial);
          RunLaws(w, s.desk, InInbox(stem), plans.mission(stem), 1, RulesOf(w, plans, initial));
          EndingTells(w, s.desk, InInbox(stem), plans.mission(stem), 1);
        }
      case Approve(_, always) => if At(s, stem, Waiting) { ApproveEnds(w, plans, s, stem, always, initial); }
      case Deny(_) => StoryAfter(s.desk, Denied(stem), stem);
      case Retry(_) => StoryAfter(s.desk, Retried(stem), stem);
      case _ =>
    }
  }

  lemma ApproveEnds(w: World, plans: Plans, s: State, stem: string, always: bool, initial: seq<Grant>)
    requires Inv(w, plans, s, initial) && At(s, stem, Waiting)
    ensures EndOk(w, plans, Resumed(w, plans, s, stem, always), stem)
  {
    hide InOrder, RunFrom, StoryOf, DeskForApproval, Uninterrupted, RulesOf, ArtifactOf, Resumption, Save, Asking;
    assert JobOk(w, plans, s, stem);
    var m, d := plans.mission(stem), DeskForApproval(plans, s, stem, always);
    var k := if stem in s.metas then s.metas[stem].resumeStep else 1;
    var attempt := StoryOf(s.desk.log, stem).attempt;
    ResumptionIsRecorded(w, plans, s, stem);
    ResumedRunLaws(w, plans, s, stem, always, initial);
    EndingTells(w, d, InPending(stem), m, k);
    if ResumedRun(w, plans, s, stem, always).ending.Completed? && stem in s.metas {
      StepIsReached(w, stem, attempt, m, k);
      ReachedSucceeds(w, stem, attempt, m, 1, k);
    }
  }

  lemma StepIsReached(w: World, stem: string, attempt: nat, m: Mission, k: nat)
    requires 1 <= k <= |m.steps| && Succeeds(w, stem, attempt, m, k)
    ensures |Uninterrupted(w, stem, attempt, m, k)| > 0
  {
  }

  lemma {:induction false} EndRun(w: World, plans: Plans, s: State, ops: seq<Op>, stem: string, initial: seq<Grant>)
    requires Inv(w, plans, s, initial) && EndOk(w, plans, s, stem)
    ensures EndOk(w, plans, Run(w, plans, s, ops), stem)
    decreases |ops|
  {
    hide Inv, EndOk, Apply;
    if ops != [] {
      EndStep(w, plans, s, ops[0], stem, initial);
      StepKeeps(w, plans, s, ops[0], initial);
      EndRun(w, plans, Apply(w, plans, s, ops[0]), ops[1..], stem, initial);
    }
  }

  /** Over every run: a job that is settled and not denied is done exactly if every step succeeds in its attempt. */
  lemma DoneIffEveryStepSucceeds(w: World, plans: Plans, ops: seq<Op>, initial: seq<Grant>, stem: string)
    ensures var s := Run(w, plans, Empty(initial), ops);
            var story, m := StoryOf(s.desk.log, stem), plans.mission(stem);
            (At(s, stem, Done) || At(s, stem, Failed)) && !story.denied ==>
              (At(s, stem, Done) <==> forall n :: 1 <= n <= |m.steps| ==> Succeeds(w, stem, story.attempt, m, n))
  {
    EndRun(w, plans, Empty(initial), ops, stem, initial);
  }
}
