/** Running a mission's steps (src/voxera/core/missions.py, src/voxera/skills/runner.py). */
module Missions {
  import opened Approvals
  import opened Collections
  import opened Decisions
  import opened Wrappers

  /** `args` is the JSON text of the step's arguments. */
  datatype Step = Step(skill: string, args: string)

  datatype Mission = Mission(id: string, title: string, goal: string, notes: Option<string>, steps: seq<Step>)

  /**
   The skill registry, the policy's verdict on a step, and whether executing a step of a job succeeds, which
   may change from one attempt at the job to the next: `works(stem, attempt, step)`.
   */
  datatype World = World(manifests: map<string, Manifest>, verdict: Step -> Decision, works: (string, nat, nat) -> bool,
                         dev: bool)
  {
    /** The registry files manifests under their own id. */
    ghost predicate Registered()
    {
      forall s :: s in manifests ==> manifests[s].id == s
    }
  }

  datatype StepResult = Succeeded | FailedStep | BlockedStep | AwaitingApproval

  function StemOf(ref: JobRef): string
  {
    match ref
    case NoJob => ""
    case InInbox(stem) => stem
    case InPending(stem) => stem
  }

  /** What the history says of one job: the attempt it is at, what has happened in it, and all executions so far. */
  datatype Story = Story(attempt: nat, trace: seq<nat>, approvals: nat, denied: bool, executions: nat)
  {
    /** A retry begins a new attempt. */
    function After(e: Event, stem: string): Story
    {
      match e
      case Executed(key) =>
        if StemOf(key.job) == stem then this.(trace := trace + [key.step], executions := executions + 1) else this
      case Approved(key) => if StemOf(key.job) == stem then this.(approvals := approvals + 1) else this
      case Denied(x) => if x == stem then this.(denied := true) else this
      case Retried(x) => if x == stem then Story(attempt + 1, [], 0, false, executions) else this
      case _ => this
    }
  }

  function StoryOf(log: seq<Event>, stem: string): Story
  {
    if log == [] then Story(0, [], 0, false, 0)
    else StoryOf(log[..|log| - 1], stem).After(log[|log| - 1], stem)
  }

  lemma StoryAfter(d: Desk, e: Event, stem: string)
    ensures StoryOf(d.Record(e).log, stem) == StoryOf(d.log, stem).After(e, stem)
  {
    assert d.Record(e).log[..|d.log|] == d.log;
  }

  function Execute(w: World, d: Desk, key: Key): (Desk, StepResult)
  {
    var stem := StemOf(key.job);
    (d.Record(Executed(key)), if w.works(stem, StoryOf(d.log, stem).attempt, key.step) then Succeeded else FailedStep)
  }

  /** Unknown and denied skills are not executed; a skill that asks is executed once the prompt says yes. */
  function RunSkill(w: World, d: Desk, ref: JobRef, n: nat, step: Step): (Desk, StepResult)
  {
    var key := Key(ref, n, step.skill);
    if step.skill !in w.manifests then (d, FailedStep)
    else
      match w.verdict(step)
      case Deny => (d, BlockedStep)
      case Allow => Execute(w, d, key)
      case Ask =>
        var (d', answer) := Prompt(d, w.dev, key, w.manifests[step.skill]);
        if answer == Pending then (d', AwaitingApproval) else Execute(w, d', key)
  }

  datatype Ending = Completed | Broke(step: nat) | Paused(step: nat)

  datatype Ran = Ran(desk: Desk, ending: Ending, outcomes: seq<StepResult>)

  function Prepend(outcomes: seq<StepResult>, r: Ran): Ran
  {
    r.(outcomes := outcomes + r.outcomes)
  }

  /** Steps are numbered from 1. The run stops at the first step that pauses, fails or is blocked. */
  function RunFrom(w: World, d: Desk, ref: JobRef, m: Mission, i: nat): Ran
    requires i >= 1
    decreases |m.steps| + 1 - i
  {
    if i > |m.steps| then Ran(d, Completed, [])
    else
      var (d', result) := RunSkill(w, d, ref, i, m.steps[i - 1]);
      match result
      case AwaitingApproval => Ran(d', Paused(i), [result])
      case Succeeded => Prepend([result], RunFrom(w, d', ref, m, i + 1))
      case _ => Ran(d', Broke(i), [result])
  }

  // ----- what a run executes

  /** The steps an uninterrupted attempt executes from `i` when every question is answered with yes. */
  function Uninterrupted(w: World, stem: string, attempt: nat, m: Mission, i: nat): seq<nat>
    requires i >= 1
    decreases |m.steps| + 1 - i
  {
    if i > |m.steps| then []
    else
      var step := m.steps[i - 1];
      if step.skill !in w.manifests || w.verdict(step).Deny? then []
      else [i] + if w.works(stem, attempt, i) then Uninterrupted(w, stem, attempt, m, i + 1) else []
  }

  /** The stories of all jobs but `stem` are the same. */
  ghost predicate OthersKept(d: Desk, d': Desk, stem: string)
  {
    forall s :: s != stem ==> StoryOf(d'.log, s) == StoryOf(d.log, s)
  }

  lemma PromptTellsNothing(d: Desk, dev: bool, key: Key, m: Manifest, stem: string)
    ensures StoryOf(Prompt(d, dev, key, m).0.log, stem) == StoryOf(d.log, stem)
  {
    var d' := Prompt(d, dev, key, m).0;
    if d'.log != d.log {
      StoryAfter(d.(tokens := d'.tokens), d'.log[|d.log|], stem);
    }
  }

  function KeyOf(ref: JobRef, m: Mission, n: nat): Key
    requires 1 <= n <= |m.steps|
  {
    Key(ref, n, m.steps[n - 1].skill)
  }

  /** The rules speak of this world, and of the steps of this job's mission. */
  ghost predicate Governs(rules: Rules, w: World, ref: JobRef, m: Mission)
  {
    && rules.dev == w.dev && rules.manifests == w.manifests
    && forall n: nat :: 1 <= n <= |m.steps| ==> rules.verdict(KeyOf(ref, m, n)) == w.verdict(m.steps[n - 1])
  }

  predicate Works(w: World, d: Desk, ref: JobRef, n: nat)
  {
    w.works(StemOf(ref), StoryOf(d.log, StemOf(ref)).attempt, n)
  }

  /** What is added to the history by an execution: a step that asks comes with its answer. */
  ghost predicate ExecutedProperly(w: World, d: Desk, d': Desk, key: Key, step: Step)
  {
    if w.verdict(step).Ask? then exists e :: IsAnswer(e, key) && d'.log == d.log + [e, Executed(key)]
    else d'.log == d.log + [Executed(key)]
  }

  /**
   A denied or unknown skill and a pending prompt change nothing; an allowed skill is executed once, and one
   that asks is executed once, directly after a yes.
   */
  lemma SkillLaws(w: World, d: Desk, ref: JobRef, n: nat, m: Mission, rules: Rules)
    requires 1 <= n <= |m.steps| && Governs(rules, w, ref, m) && InOrder(d, rules)
    ensures var step := m.steps[n - 1];
            var (d', result) := RunSkill(w, d, ref, n, step);
            var key := Key(ref, n, step.skill);
            && InOrder(d', rules)
            && (result.AwaitingApproval? ==> d' == d && w.verdict(step).Ask? && step.skill in w.manifests && key !in d.tokens)
            && (result.BlockedStep? ==> d' == d && step.skill in w.manifests && w.verdict(step).Deny?)
            && (result.Succeeded? ==>
                  step.skill in w.manifests && !w.verdict(step).Deny? && Works(w, d, ref, n) &&
                  ExecutedProperly(w, d, d', key, step))
            && (result.FailedStep? ==>
                  if step.skill in w.manifests
                  then !w.verdict(step).Deny? && !Works(w, d, ref, n) && ExecutedProperly(w, d, d', key, step)
                  else d' == d)
  {
    hide InOrder, StoryOf;
    var step := m.steps[n - 1];
    var key := Key(ref, n, step.skill);
    assert rules.verdict(KeyOf(ref, m, n)) == w.verdict(step);
    if step.skill in w.manifests && w.verdict(step).Allow? {
      RecordKeepsOrder(d, Executed(key), rules);
    }
    if step.skill in w.manifests && w.verdict(step).Ask? {
      var (d', answer) := Prompt(d, w.dev, key, w.manifests[step.skill]);
      PromptKeepsOrder(d, key, rules);
      PromptTellsNothing(d, w.dev, key, w.manifests[step.skill], StemOf(ref));
      if answer == Yes {
        var e :| IsAnswer(e, key) && d'.log == d.log + [e];
        RecordKeepsOrder(d', Executed(key), rules);
        assert d'.Record(Executed(key)).log == d.log + [e, Executed(key)];
      }
    }
  }

  /** What a step adds to the stories: one execution of it to its own job's, if it was executed, and nothing else. */
  lemma SkillStory(w: World, d: Desk, ref: JobRef, n: nat, step: Step, stem: string)
    ensures var (d', result) := RunSkill(w, d, ref, n, step);
            StoryOf(d'.log, stem) ==
              if result.Succeeded? || (result.FailedStep? && step.skill in w.manifests)
              then StoryOf(d.log, stem).After(Executed(Key(ref, n, step.skill)), stem)
              else StoryOf(d.log, stem)
  {
    hide StoryOf;
    var key := Key(ref, n, step.skill);
    if step.skill in w.manifests {
      var d' := if w.verdict(step).Ask? then Prompt(d, w.dev, key, w.manifests[step.skill]).0 else d;
      PromptTellsNothing(d, w.dev, key, w.manifests[step.skill], stem);
      StoryAfter(d', Executed(key), stem);
    }
  }

  /**
   A run from step `i` executes what an uninterrupted attempt would, up to the step it pauses at, which is one
   that the policy asks about; what is left from there completes it. It adds nothing else to its job's story.
   */
  ghost predicate FollowsUninterrupted(w: World, d: Desk, ref: JobRef, m: Mission, i: nat, r: Ran)
    requires i >= 1
  {
    var stem := StemOf(ref);
    var before, after := StoryOf(d.log, stem), StoryOf(r.desk.log, stem);
    var whole := before.trace + Uninterrupted(w, stem, before.attempt, m, i);
    && after.executions - before.executions == |after.trace| - |before.trace| >= 0
    && after == before.(trace := after.trace, executions := after.executions)
    && match r.ending
       case Completed => after.trace == whole && |after.trace| == |before.trace| + |m.steps| + 1 - i
       case Broke(k) => after.trace == whole && i <= k <= |m.steps|
       case Paused(k) =>
         && i <= k <= |m.steps| && w.verdict(m.steps[k - 1]).Ask? && m.steps[k - 1].skill in w.manifests
         && after.trace + Uninterrupted(w, stem, before.attempt, m, k) == whole && |after.trace| == |before.trace| + k - i
  }

  lemma {:induction false} RunLaws(w: World, d: Desk, ref: JobRef, m: Mission, i: nat, rules: Rules)
    requires i >= 1 && i <= |m.steps| + 1
    requires Governs(rules, w, ref, m) && InOrder(d, rules)
    ensures var r := RunFrom(w, d, ref, m, i);
            InOrder(r.desk, rules) && OthersKept(d, r.desk, StemOf(ref)) && FollowsUninterrupted(w, d, ref, m, i, r)
    decreases |m.steps| + 1 - i
  {
    hide RunSkill, InOrder, StoryOf, Governs, ExecutedProperly;
    if i <= |m.steps| {
      var step := m.steps[i - 1];
      var stem := StemOf(ref);
      var (d', result) := RunSkill(w, d, ref, i, step);
      SkillLaws(w, d, ref, i, m, rules);
      forall x {
        SkillStory(w, d, ref, i, step, x);
      }
      if result.Succeeded? {
        RunLaws(w, d', ref, m, i + 1, rules);
        var before := StoryOf(d.log, stem);
        Associate(before.trace, [i], Uninterrupted(w, stem, before.attempt, m, i + 1));
      }
    }
  }

  /** The next pause comes after a step whose approval is at hand. */
  lemma TokenPassesStep(w: World, d: Desk, ref: JobRef, m: Mission, i: nat, rules: Rules)
    requires 1 <= i <= |m.steps|
    requires Governs(rules, w, ref, m) && InOrder(d, rules)
    requires Key(ref, i, m.steps[i - 1].skill) in d.tokens
    ensures var r := RunFrom(w, d, ref, m, i); r.ending.Paused? ==> r.ending.step > i
  {
    hide RunSkill, InOrder, Governs, ExecutedProperly, StoryOf;
    SkillLaws(w, d, ref, i, m, rules);
    var (d', result) := RunSkill(w, d, ref, i, m.steps[i - 1]);
    if result.Succeeded? {
      RunLaws(w, d', ref, m, i + 1, rules);
    }
  }

  function Successes(n: nat): seq<StepResult>
  {
    if n == 0 then [] else [Succeeded] + Successes(n - 1)
  }

  /** The recorded outcomes: every step from `i` to the last one attempted, all but that one successful. */
  lemma {:induction false} OutcomesTellTheEnding(w: World, d: Desk, ref: JobRef, m: Mission, i: nat)
    requires 1 <= i <= |m.steps| + 1
    ensures var r := RunFrom(w, d, ref, m, i);
            match r.ending
            case Completed => r.outcomes == Successes(|m.steps| + 1 - i)
            case Paused(k) => k >= i && r.outcomes == Successes(k - i) + [AwaitingApproval]
            case Broke(k) =>
              k >= i && (r.outcomes == Successes(k - i) + [FailedStep] || r.outcomes == Successes(k - i) + [BlockedStep])
    decreases |m.steps| + 1 - i
  {
    hide RunSkill;
    if i <= |m.steps| {
      var (d', result) := RunSkill(w, d, ref, i, m.steps[i - 1]);
      if result.Succeeded? {
        OutcomesTellTheEnding(w, d', ref, m, i + 1);
        var r := RunFrom(w, d', ref, m, i + 1);
        match r.ending
        case Completed =>
        case Paused(k) => Associate([Succeeded], Successes(k - i - 1), [AwaitingApproval]);
        case Broke(k) =>
          Associate([Succeeded], Successes(k - i - 1), [FailedStep]);
          Associate([Succeeded], Successes(k - i - 1), [BlockedStep]);
      }
    }
  }

  // ----- the pending file

  datatype StepRecord = StepRecord(skillId: string, args: Option<string>)

  /** The "mission" object of a pending file; any field may be missing in a file. */
  datatype MissionRecord = MissionRecord(id: Option<string>, title: Option<string>, goal: Option<string>,
                                         notes: Option<string>, steps: seq<StepRecord>)

  function Save(m: Mission): MissionRecord
  {
    MissionRecord(Some(m.id), Some(m.title), Some(m.goal), m.notes, SaveSteps(m.steps))
  }

  function SaveSteps(steps: seq<Step>): seq<StepRecord>
  {
    if steps == [] then [] else [StepRecord(steps[0].skill, Some(steps[0].args))] + SaveSteps(steps[1..])
  }

  function Or(o: Option<string>, default: string): string
  {
    if o.Some? then o.value else default
  }

  /** `id` and `goal` come from the job's payload. */
  function Load(r: MissionRecord, id: string, goal: string): Mission
  {
    Mission(Or(r.id, id), Or(r.title, "Queued Mission"), Or(r.goal, goal), r.notes, LoadSteps(r.steps))
  }

  function LoadSteps(steps: seq<StepRecord>): seq<Step>
  {
    if steps == [] then [] else [Step(steps[0].skillId, Or(steps[0].args, "{}"))] + LoadSteps(steps[1..])
  }

  /** A mission survives the way through the pending file, whatever the payload says. */
  lemma {:induction false} MissionSurvivesPendingFile(m: Mission, id: string, goal: string)
    ensures Load(Save(m), id, goal) == m
    ensures Save(m).steps == [] <==> m.steps == []
  {
    StepsSurvive(m.steps);
  }

  /** What a pending file does not say comes from the payload or is a default. */
  lemma MissingFieldsHaveDefaults(skill: string, id: string, goal: string)
    ensures Load(MissionRecord(None, None, None, None, [StepRecord(skill, None)]), id, goal) ==
            Mission(id, "Queued Mission", goal, None, [Step(skill, "{}")])
  {
    var steps := [StepRecord(skill, None)];
    assert steps[1..] == [];
    assert LoadSteps(steps) == [Step(skill, "{}")] + LoadSteps([]);
  }

  lemma {:induction false} StepsSurvive(steps: seq<Step>)
    ensures LoadSteps(SaveSteps(steps)) == steps
  {
    if steps != [] {
      StepsSurvive(steps[1..]);
      assert SaveSteps(steps)[1..] == SaveSteps(steps[1..]);
      assert steps == [steps[0]] + steps[1..];
    }
  }
}
