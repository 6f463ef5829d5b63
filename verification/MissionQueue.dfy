/** Jobs that pause for approval, resume, are cancelled and retried (src/voxera/core/queue_approvals.py). */
module MissionQueue {
  import opened Approvals
  import opened Decisions
  import opened Missions
  import opened Wrappers

  datatype Place = Inbox | Waiting | Done | Failed | Canceled

  /** A pending file: where to resume, and the mission. */
  datatype Meta = Meta(resumeStep: nat, mission: MissionRecord)

  datatype Artifact = Artifact(step: nat, skill: string, capability: string, scope: RawScope)

  const GATE := Artifact(0, "approval_required", "approval_required", RawScope(Some("workspace_only"), Some(false)))

  /** The mission each job's payload stands for, and whether the payload demands approval up front. */
  datatype Plans = Plans(mission: string -> Mission, hard: string -> bool)

  datatype State = State(desk: Desk, places: map<string, Place>, metas: map<string, Meta>, artifacts: map<string, Artifact>)

  /** The policy's verdict on the step of a job's mission that a key stands for; Deny if it stands for none. */
  function VerdictOn(w: World, plans: Plans, key: Key): Decision
  {
    var steps := plans.mission(StemOf(key.job)).steps;
    if 1 <= key.step <= |steps| && steps[key.step - 1].skill == key.skill then w.verdict(steps[key.step - 1])
    else Decision.Deny
  }

  function RulesOf(w: World, plans: Plans, initial: seq<Grant>): Rules
  {
    Rules(w.dev, w.manifests, key => VerdictOn(w, plans, key), initial)
  }

  lemma PlansGovern(w: World, plans: Plans, ref: JobRef, initial: seq<Grant>)
    ensures Governs(RulesOf(w, plans, initial), w, ref, plans.mission(StemOf(ref)))
  {
  }

  function SkillAt(m: Mission, n: nat): string
  {
    if 1 <= n <= |m.steps| then m.steps[n - 1].skill else ""
  }

  function ArtifactOf(w: World, m: Mission, k: nat): Artifact
  {
    var skill := SkillAt(m, k);
    if skill in w.manifests then
      var manifest := w.manifests[skill];
      Artifact(k, skill, RecordedCapability(manifest), AsRaw(manifest.scope))
    else
      Artifact(k, skill, "", RawScope(None, None))
  }

  function Settled(w: World, s: State, stem: string, m: Mission, r: Ran): State
  {
    var t := s.(desk := r.desk);
    match r.ending
    case Paused(k) =>
      t.(places := t.places[stem := Waiting],
         artifacts := t.artifacts[stem := ArtifactOf(w, m, k)],
         metas := t.metas[stem := Meta(k, Save(m))])
    case Broke(_) => t.(places := t.places[stem := Failed])
    case Completed => t.(places := t.places[stem := Done])
  }

  function Gated(s: State, stem: string): State
  {
    s.(places := s.places[stem := Waiting],
       artifacts := if stem in s.artifacts then s.artifacts else s.artifacts[stem := GATE],
       metas := s.metas - {stem})
  }

  function Submitted(s: State, stem: string): State
  {
    if stem in s.places then s else s.(places := s.places[stem := Inbox])
  }

  function At(s: State, stem: string, p: Place): bool
  {
    stem in s.places && s.places[stem] == p
  }

  function Processed(w: World, plans: Plans, s: State, stem: string): State
  {
    if !At(s, stem, Inbox) then s
    else if plans.hard(stem) then Gated(s, stem)
    else Settled(w, s, stem, plans.mission(stem), RunFrom(w, s.desk, InInbox(stem), plans.mission(stem), 1))
  }

  /** A waiting job without a pending file goes back to the inbox. */
  function Relocated(s: State, stem: string): State
  {
    if At(s, stem, Waiting) && stem !in s.metas then s.(places := s.places[stem := Inbox]) else s
  }

  function Cleared(s: State, stem: string): State
  {
    s.(metas := s.metas - {stem}, artifacts := s.artifacts - {stem})
  }

  /** The mission and step an approval resumes with: the pending file's, or the payload's from the start. */
  function Resumption(plans: Plans, s: State, stem: string): (r: (Mission, nat))
    ensures r.1 >= 1
  {
    if stem in s.metas && s.metas[stem].mission.steps != [] then
      (Load(s.metas[stem].mission, plans.mission(stem).id, plans.mission(stem).goal),
       if s.metas[stem].resumeStep == 0 then 1 else s.metas[stem].resumeStep)
    else
      (plans.mission(stem), 1)
  }

  /** The step of the pending file, or 0 if there is none. */
  function RecordedStep(s: State, stem: string): nat
  {
    if stem in s.metas then s.metas[stem].resumeStep else 0
  }

  function DeskForApproval(plans: Plans, s: State, stem: string, always: bool): Desk
  {
    var (m, k) := Resumption(plans, s, stem);
    var desk :=
      if always && stem in s.artifacts
      then Standing(s.desk, s.artifacts[stem].skill, s.artifacts[stem].capability, s.artifacts[stem].scope)
      else s.desk;
    WithToken(desk, Key(InPending(stem), k, SkillAt(m, k)))
  }

  function Resumed(w: World, plans: Plans, s: State, stem: string, always: bool): State
  {
    if !At(s, stem, Waiting) then s
    else
      var (m, k) := Resumption(plans, s, stem);
      var r := RunFrom(w, DeskForApproval(plans, s, stem, always), InPending(stem), m, k);
      var t := Settled(w, s, stem, m, r);
      if r.ending.Paused? then t else Cleared(t, stem)
  }

  function Refused(s: State, stem: string): State
  {
    if !At(s, stem, Waiting) then s
    else Cleared(s.(desk := s.desk.Record(Denied(stem)), places := s.places[stem := Failed]), stem)
  }

  function Cancelled(s: State, stem: string): State
  {
    if !At(s, stem, Inbox) && !At(s, stem, Waiting) then s
    else Cleared(s.(places := s.places[stem := Canceled]), stem)
  }

  /** A failed or canceled job goes back to the inbox: a new attempt. */
  function Again(s: State, stem: string): State
  {
    if !At(s, stem, Failed) && !At(s, stem, Canceled) then s
    else s.(desk := s.desk.Record(Retried(stem)), places := s.places[stem := Inbox])
  }

  datatype Op = Submit(stem: string) | Process(stem: string) | Relocate(stem: string)
              | Approve(stem: string, always: bool) | Deny(stem: string)
              | Cancel(stem: string) | Retry(stem: string)

  function Apply(w: World, plans: Plans, s: State, op: Op): State
  {
    match op
    case Submit(stem) => Submitted(s, stem)
    case Process(stem) => Processed(w, plans, s, stem)
    case Relocate(stem) => Relocated(s, stem)
    case Approve(stem, always) => Resumed(w, plans, s, stem, always)
    case Deny(stem) => Refused(s, stem)
    case Cancel(stem) => Cancelled(s, stem)
    case Retry(stem) => Again(s, stem)
  }

  function Run(w: World, plans: Plans, s: State, ops: seq<Op>): State
    decreases |ops|
  {
    if ops == [] then s else Run(w, plans, Apply(w, plans, s, ops[0]), ops[1..])
  }

  function Empty(initial: seq<Grant>): State
  {
    State(Desk({}, initial, []), map[], map[], map[])
  }

  // ----- the invariant

  function Whole(w: World, plans: Plans, s: State, stem: string): seq<nat>
  {
    Uninterrupted(w, stem, StoryOf(s.desk.log, stem).attempt, plans.mission(stem), 1)
  }

  /** How many of the first `n` steps the policy asks about. */
  function Asking(w: World, m: Mission, n: nat): nat
    requires n <= |m.steps|
  {
    if n == 0 then 0 else Asking(w, m, n - 1) + if w.verdict(m.steps[n - 1]).Ask? then 1 else 0
  }

  lemma {:induction false} AskingGrows(w: World, m: Mission, a: nat, b: nat)
    requires a <= b <= |m.steps|
    ensures Asking(w, m, a) <= Asking(w, m, b)
  {
    if a < b {
      AskingGrows(w, m, a, b - 1);
    }
  }

  /** The approvals one attempt can take: one per step, or one to pass a hard gate before a mission without steps. */
  function Budget(plans: Plans, stem: string): nat
  {
    var n := |plans.mission(stem).steps|;
    if n == 0 && plans.hard(stem) then 1 else n
  }

  function Gate(plans: Plans, stem: string): nat
  {
    if plans.hard(stem) then 1 else 0
  }

  /** What is known of one job's current attempt at any moment. */
  ghost predicate JobOk(w: World, plans: Plans, s: State, stem: string)
  {
    var m := plans.mission(stem);
    var story, whole := StoryOf(s.desk.log, stem), Whole(w, plans, s, stem);
    && (story.denied ==> At(s, stem, Failed))
    && (stem in s.metas ==> At(s, stem, Waiting))
    && if stem !in s.places || s.places[stem].Inbox? || (s.places[stem].Waiting? && stem !in s.metas) then
         && story.trace == [] && story.approvals == 0
         && (At(s, stem, Waiting) ==> plans.hard(stem) || (m.steps != [] && w.verdict(m.steps[0]).Ask?))
       else if s.places[stem].Waiting? then
         var k := s.metas[stem].resumeStep;
         && s.metas[stem].mission == Save(m) && 1 <= k <= |m.steps| && w.verdict(m.steps[k - 1]).Ask?
         && story.trace + Uninterrupted(w, stem, story.attempt, m, k) == whole && |story.trace| == k - 1
         && story.approvals <= k - 1 && story.approvals <= Asking(w, m, k - 1) + Gate(plans, stem)
       else
         && story.approvals <= Budget(plans, stem) && story.approvals <= Asking(w, m, |m.steps|) + Gate(plans, stem)
         && story.trace <= whole
         && (s.places[stem].Done? ==> story.trace == whole && |story.trace| == |m.steps|)
         && (s.places[stem].Failed? && !story.denied ==> story.trace == whole)
  }

  ghost predicate Inv(w: World, plans: Plans, s: State, initial: seq<Grant>)
  {
    && InOrder(s.desk, RulesOf(w, plans, initial))
    && forall stem :: JobOk(w, plans, s, stem)
  }

  /** Nothing about another job has changed. */
  ghost predicate Untouched(s: State, t: State, other: string)
  {
    && StoryOf(t.desk.log, other) == StoryOf(s.desk.log, other)
    && (other in t.places <==> other in s.places) && (other in s.places ==> t.places[other] == s.places[other])
    && (other in t.metas <==> other in s.metas) && (other in s.metas ==> t.metas[other] == s.metas[other])
  }

  lemma UntouchedStaysOk(w: World, plans: Plans, s: State, t: State, other: string)
    requires JobOk(w, plans, s, other) && Untouched(s, t, other)
    ensures JobOk(w, plans, t, other)
  {
    hide StoryOf, Uninterrupted, Asking;
  }

  lemma TokenStory(d: Desk, key: Key, x: string)
    ensures StoryOf(WithToken(d, key).log, x) == StoryOf(d.log, x).After(Approved(key), x)
  {
    hide StoryOf;
    StoryAfter(d.(tokens := d.tokens + {key}), Approved(key), x);
  }

  lemma GrantStory(d: Desk, skill: string, capability: string, raw: RawScope, x: string)
    ensures StoryOf(Standing(d, skill, capability, raw).log, x) == StoryOf(d.log, x)
  {
    hide StoryOf;
    StoryAfter(d.(grants := WithGrant(d.grants, skill, capability, raw)), Granted(Grant(skill, capability, Normalized(raw))), x);
  }

  lemma ApprovalStory(plans: Plans, s: State, stem: string, always: bool, x: string)
    ensures var before := StoryOf(s.desk.log, x);
            StoryOf(DeskForApproval(plans, s, stem, always).log, x) ==
              if x == stem then before.(approvals := before.approvals + 1) else before
  {
    hide StoryOf, WithToken, Standing;
    var (m, k) := Resumption(plans, s, stem);
    var key := Key(InPending(stem), k, SkillAt(m, k));
    if always && stem in s.artifacts {
      var a := s.artifacts[stem];
      GrantStory(s.desk, a.skill, a.capability, a.scope, x);
      TokenStory(Standing(s.desk, a.skill, a.capability, a.scope), key, x);
    } else {
      TokenStory(s.desk, key, x);
    }
  }

  /** The desk an approval starts its run with: one more token and one more approval. */
  lemma ApprovalLaws(w: World, plans: Plans, s: State, stem: string, always: bool, initial: seq<Grant>)
    requires InOrder(s.desk, RulesOf(w, plans, initial))
    ensures var d := DeskForApproval(plans, s, stem, always);
            var (m, k) := Resumption(plans, s, stem);
            && InOrder(d, RulesOf(w, plans, initial))
            && Key(InPending(stem), k, SkillAt(m, k)) in d.tokens
            && OthersKept(s.desk, d, stem)
            && var before := StoryOf(s.desk.log, stem); StoryOf(d.log, stem) == before.(approvals := before.approvals + 1)
  {
    hide StoryOf, InOrder, RulesOf;
    var (m, k) := Resumption(plans, s, stem);
    var desk := s.desk;
    if always && stem in s.artifacts {
      var a := s.artifacts[stem];
      GrantKeepsOrder(desk, a.skill, a.capability, a.scope, RulesOf(w, plans, initial));
      desk := Standing(desk, a.skill, a.capability, a.scope);
    }
    ApprovalKeepsOrder(desk, Key(InPending(stem), k, SkillAt(m, k)), RulesOf(w, plans, initial));
    forall x {
      ApprovalStory(plans, s, stem, always, x);
    }
  }

  // ----- every operation keeps the invariant

  lemma ResumptionIsRecorded(w: World, plans: Plans, s: State, stem: string)
    requires JobOk(w, plans, s, stem) && At(s, stem, Waiting)
    ensures Resumption(plans, s, stem) ==
      (plans.mission(stem), if stem in s.metas then s.metas[stem].resumeStep else 1)
  {
    hide StoryOf, Uninterrupted;
    var m := plans.mission(stem);
    MissionSurvivesPendingFile(m, m.id, m.goal);
  }

  /** The run an approval starts. */
  function ResumedRun(w: World, plans: Plans, s: State, stem: string, always: bool): Ran
  {
    var (m, k) := Resumption(plans, s, stem);
    RunFrom(w, DeskForApproval(plans, s, stem, always), InPending(stem), m, k)
  }

  lemma ResumedRunLaws(w: World, plans: Plans, s: State, stem: string, always: bool, initial: seq<Grant>)
    requires InOrder(s.desk, RulesOf(w, plans, initial)) && At(s, stem, Waiting)
    requires Resumption(plans, s, stem).0 == plans.mission(stem)
    requires Resumption(plans, s, stem).1 <= |plans.mission(stem).steps| + 1
    ensures var r := ResumedRun(w, plans, s, stem, always);
            var d := DeskForApproval(plans, s, stem, always);
            var (m, k) := Resumption(plans, s, stem);
            && InOrder(r.desk, RulesOf(w, plans, initial)) && OthersKept(s.desk, r.desk, stem)
            && FollowsUninterrupted(w, d, InPending(stem), m, k, r)
            && (var before := StoryOf(s.desk.log, stem); StoryOf(d.log, stem) == before.(approvals := before.approvals + 1))
            && (r.ending.Paused? ==> r.ending.step > k)
  {
    hide RunFrom, InOrder, StoryOf, DeskForApproval, Uninterrupted, FollowsUninterrupted;
    var (m, k) := Resumption(plans, s, stem);
    var d := DeskForApproval(plans, s, stem, always);
    ApprovalLaws(w, plans, s, stem, always, initial);
    PlansGovern(w, plans, InPending(stem), initial);
    RunLaws(w, d, InPending(stem), m, k, RulesOf(w, plans, initial));
    if k <= |m.steps| {
      TokenPassesStep(w, d, InPending(stem), m, k, RulesOf(w, plans, initial));
    } else {
      RunLaws(w, d, InPending(stem), m, k, RulesOf(w, plans, initial));
      assert RunFrom(w, d, InPending(stem), m, k).ending == Completed by { NothingLeft(w, d, InPending(stem), m, k); }
    }
  }

  lemma NothingLeft(w: World, d: Desk, ref: JobRef, m: Mission, k: nat)
    requires k > |m.steps|
    ensures RunFrom(w, d, ref, m, k).ending == Completed
  {
  }

  /** The approvals of an attempt stay announced: each is for a step that asks, or for the gate. */
  lemma ApprovalsStayAnnounced(w: World, plans: Plans, s: State, stem: string, next: nat)
    requires JobOk(w, plans, s, stem) && At(s, stem, Waiting)
    requires (if stem in s.metas then s.metas[stem].resumeStep else 1) < next <= |plans.mission(stem).steps| + 1
    ensures StoryOf(s.desk.log, stem).approvals + 1 <= Asking(w, plans.mission(stem), next - 1) + Gate(plans, stem)
    ensures StoryOf(s.desk.log, stem).approvals + 1 <= next - 1
  {
    hide StoryOf, Uninterrupted, Save;
    var m := plans.mission(stem);
    var k := if stem in s.metas then s.metas[stem].resumeStep else 1;
    AskingGrows(w, m, k, next - 1);
  }

  lemma GatedEmptyMission(w: World, plans: Plans, s: State, stem: string)
    requires JobOk(w, plans, s, stem) && At(s, stem, Waiting) && plans.mission(stem).steps == []
    ensures plans.hard(stem) && stem !in s.metas && StoryOf(s.desk.log, stem).approvals == 0
  {
    hide StoryOf, Uninterrupted, Save;
  }

  lemma ApproveKeepsJob(w: World, plans: Plans, s: State, stem: string, always: bool, initial: seq<Grant>)
    requires InOrder(s.desk, RulesOf(w, plans, initial))
    requires JobOk(w, plans, s, stem) && At(s, stem, Waiting)
    ensures var t := Resumed(w, plans, s, stem, always);
            && JobOk(w, plans, t, stem) && InOrder(t.desk, RulesOf(w, plans, initial))
            && (At(t, stem, Waiting) ==> stem in t.metas && t.metas[stem].resumeStep > RecordedStep(s, stem))
  {
    hide RunFrom, InOrder, StoryOf, DeskForApproval, Uninterrupted, RulesOf, ArtifactOf, Resumption, Save, Asking;
    ResumptionIsRecorded(w, plans, s, stem);
    ResumedRunLaws(w, plans, s, stem, always, initial);
    var m := plans.mission(stem);
    var r := ResumedRun(w, plans, s, stem, always);
    assert [] + Whole(w, plans, s, stem) == Whole(w, plans, s, stem);
    if m.steps == [] {
      GatedEmptyMission(w, plans, s, stem);
    } else {
      ApprovalsStayAnnounced(w, plans, s, stem, if r.ending.Paused? then r.ending.step else |m.steps| + 1);
    }
  }

  lemma ProcessKeepsJob(w: World, plans: Plans, s: State, stem: string, initial: seq<Grant>)
    requires InOrder(s.desk, RulesOf(w, plans, initial))
    requires JobOk(w, plans, s, stem) && At(s, stem, Inbox)
    ensures var t := Processed(w, plans, s, stem);
            JobOk(w, plans, t, stem) && InOrder(t.desk, RulesOf(w, plans, initial))
  {
    hide RunFrom, InOrder, StoryOf, Uninterrupted, RulesOf, ArtifactOf, Asking;
    var m := plans.mission(stem);
    if !plans.hard(stem) {
      PlansGovern(w, plans, InInbox(stem), initial);
      RunLaws(w, s.desk, InInbox(stem), m, 1, RulesOf(w, plans, initial));
      assert [] + Whole(w, plans, s, stem) == Whole(w, plans, s, stem);
    }
  }

  lemma ApprovalsStayWithin(w: World, plans: Plans, s: State, stem: string)
    requires JobOk(w, plans, s, stem) && stem in s.metas
    ensures StoryOf(s.desk.log, stem).approvals <= Asking(w, plans.mission(stem), |plans.mission(stem).steps|) + Gate(plans, stem)
  {
    hide StoryOf, Uninterrupted, Save;
    AskingGrows(w, plans.mission(stem), s.metas[stem].resumeStep - 1, |plans.mission(stem).steps|);
  }

  /** An operation keeps the job it is about in order. */
  lemma StepKeepsJob(w: World, plans: Plans, s: State, op: Op, initial: seq<Grant>)
    requires InOrder(s.desk, RulesOf(w, plans, initial)) && JobOk(w, plans, s, op.stem)
    ensures var t := Apply(w, plans, s, op);
            JobOk(w, plans, t, op.stem) && InOrder(t.desk, RulesOf(w, plans, initial))
  {
    hide RunFrom, InOrder, StoryOf, DeskForApproval, Uninterrupted, Asking, RulesOf, ArtifactOf, Resumption, Settled;
    match op
    case Submit(_) =>
    case Relocate(_) =>
    case Process(stem) => if At(s, stem, Inbox) { ProcessKeepsJob(w, plans, s, stem, initial); }
    case Approve(stem, always) => if At(s, stem, Waiting) { ApproveKeepsJob(w, plans, s, stem, always, initial); }
    case Deny(stem) =>
      StoryAfter(s.desk, Denied(stem), stem);
      RecordKeepsOrder(s.desk, Denied(stem), RulesOf(w, plans, initial));
      if stem in s.metas { ApprovalsStayWithin(w, plans, s, stem); }
    case Cancel(stem) => if stem in s.metas { ApprovalsStayWithin(w, plans, s, stem); }
    case Retry(stem) =>
      StoryAfter(s.desk, Retried(stem), stem);
      RecordKeepsOrder(s.desk, Retried(stem), RulesOf(w, plans, initial));
  }

  /** A run of one job that leaves the story of another alone leaves the other job alone. */
  lemma SettledTouchesOneJob(w: World, s: State, stem: string, m: Mission, r: Ran, other: string)
    requires other != stem && StoryOf(r.desk.log, other) == StoryOf(s.desk.log, other)
    ensures Untouched(s, Settled(w, s, stem, m, r), other)
    ensures Untouched(s, Cleared(Settled(w, s, stem, m, r), stem), other)
  {
    hide StoryOf, ArtifactOf, Save;
  }

  /** An operation touches only the job it is about. */
  lemma StepTouchesOneJob(w: World, plans: Plans, s: State, op: Op, other: string, initial: seq<Grant>)
    requires InOrder(s.desk, RulesOf(w, plans, initial)) && JobOk(w, plans, s, op.stem)
    requires other != op.stem
    ensures Untouched(s, Apply(w, plans, s, op), other)
  {
    hide RunFrom, InOrder, StoryOf, Resumption, DeskForApproval, FollowsUninterrupted, JobOk, Settled, RulesOf;
    match op
    case Submit(_) =>
    case Relocate(_) =>
    case Cancel(_) =>
    case Retry(stem) => StoryAfter(s.desk, Retried(stem), other);
    case Process(stem) =>
      if At(s, stem, Inbox) && !plans.hard(stem) {
        var r := RunFrom(w, s.desk, InInbox(stem), plans.mission(stem), 1);
        PlansGovern(w, plans, InInbox(stem), initial);
        RunLaws(w, s.desk, InInbox(stem), plans.mission(stem), 1, RulesOf(w, plans, initial));
        SettledTouchesOneJob(w, s, stem, plans.mission(stem), r, other);
      }
    case Approve(stem, always) =>
      if At(s, stem, Waiting) {
        var r := ResumedRun(w, plans, s, stem, always);
        if stem in s.metas { RecordedStepIsInRange(w, plans, s, stem); }
        ResumptionIsRecorded(w, plans, s, stem);
        ResumedRunLaws(w, plans, s, stem, always, initial);
        SettledTouchesOneJob(w, s, stem, Resumption(plans, s, stem).0, r, other);
      }
    case Deny(stem) => StoryAfter(s.desk, Denied(stem), other);
  }

  lemma RecordedStepIsInRange(w: World, plans: Plans, s: State, stem: string)
    requires JobOk(w, plans, s, stem) && stem in s.metas
    ensures s.metas[stem].resumeStep <= |plans.mission(stem).steps|
  {
  }

  lemma StepKeeps(w: World, plans: Plans, s: State, op: Op, initial: seq<Grant>)
    requires Inv(w, plans, s, initial)
    ensures Inv(w, plans, Apply(w, plans, s, op), initial)
  {
    hide JobOk, InOrder, Apply;
    assert JobOk(w, plans, s, op.stem);
    var t := Apply(w, plans, s, op);
    StepKeepsJob(w, plans, s, op, initial);
    forall x | x != op.stem ensures JobOk(w, plans, t, x) {
      assert JobOk(w, plans, s, x);
      StepTouchesOneJob(w, plans, s, op, x, initial);
      UntouchedStaysOk(w, plans, s, t, x);
    }
  }

  lemma {:induction false} RunKeeps(w: World, plans: Plans, s: State, ops: seq<Op>, initial: seq<Grant>)
    requires Inv(w, plans, s, initial)
    ensures Inv(w, plans, Run(w, plans, s, ops), initial)
    decreases |ops|
  {
    if ops != [] {
      StepKeeps(w, plans, s, ops[0], initial);
      RunKeeps(w, plans, Apply(w, plans, s, ops[0]), ops[1..], initial);
    }
  }

  lemma RunsAreInOrder(w: World, plans: Plans, ops: seq<Op>, initial: seq<Grant>)
    ensures Inv(w, plans, Run(w, plans, Empty(initial), ops), initial)
  {
    RunKeeps(w, plans, Empty(initial), ops, initial);
  }

  // ----- main results

  /**
   Exactly once in each attempt: however a job pauses and resumes, amid whatever happens to other jobs, the
   steps it has executed since it was submitted or last retried are those of one uninterrupted run with every
   question granted, up to where it stands.
   */
  lemma ResumedTraceIsUninterrupted(w: World, plans: Plans, ops: seq<Op>, initial: seq<Grant>, stem: string)
    ensures var s := Run(w, plans, Empty(initial), ops);
            var m := plans.mission(stem);
            var story, whole := StoryOf(s.desk.log, stem), Whole(w, plans, s, stem);
            && story.trace <= whole
            && (At(s, stem, Done) ==> story.trace == whole && |story.trace| == |m.steps|)
            && (At(s, stem, Failed) && !story.denied ==> story.trace == whole)
            && (At(s, stem, Waiting) && stem in s.metas ==>
                  var k := s.metas[stem].resumeStep;
                  1 <= k <= |m.steps| && |story.trace| == k - 1 &&
                  story.trace + Uninterrupted(w, stem, story.attempt, m, k) == whole)
  {
    RunsAreInOrder(w, plans, ops, initial);
    var s := Run(w, plans, Empty(initial), ops);
    assert JobOk(w, plans, s, stem);
  }

  /** What a single event of a history may be, in terms of the job's mission, the policy and what came before. */
  predicate Warranted(w: World, plans: Plans, initial: seq<Grant>, log: seq<Event>, i: nat)
    requires i < |log|
  {
    match log[i]
    case Executed(key) =>
      var steps := plans.mission(StemOf(key.job)).steps;
      && 1 <= key.step <= |steps| && steps[key.step - 1].skill == key.skill && key.skill in w.manifests
      && !w.verdict(steps[key.step - 1]).Deny?
      && (w.verdict(steps[key.step - 1]).Ask? ==> i > 0 && IsAnswer(log[i - 1], key))
    case TokenUsed(key) => Uses(log[..i], key) < Approvals.Approvals(log[..i], key)
    case GrantUsed(key, g) =>
      && key.skill in w.manifests && g == GrantAsked(w.manifests[key.skill])
      && (g in initial || Granted(g) in log[..i])
    case DevAllowed(key, capability) =>
      && w.dev && capability in DEV_ALLOWLIST
      && key.skill in w.manifests && capability == AskedCapability(w.manifests[key.skill])
    case _ => true
  }

  /**
   Nothing runs unasked: in any run an executed step is a step of its job's mission that the policy does not
   deny, and if the policy asks about it the event before is an answer for that very step. Each answer has an
   unused approval of the same key, the grant of the asked capability and scope, or the allowlist behind it.
   */
  lemma EveryAnswerIsJustified(w: World, plans: Plans, ops: seq<Op>, initial: seq<Grant>, i: nat, key: Key)
    ensures var log := Run(w, plans, Empty(initial), ops).desk.log;
            && (i < |log| ==> Warranted(w, plans, initial, log, i))
            && Uses(log, key) <= Approvals.Approvals(log, key)
  {
    var log := Run(w, plans, Empty(initial), ops).desk.log;
    RunsAreInOrder(w, plans, ops, initial);
    UsesNeverOutnumberApprovals(log, key, RulesOf(w, plans, initial));
    if i < |log| {
      LawfulAt(log, RulesOf(w, plans, initial), i);
    }
  }

  /**
   In each attempt a mission of n steps takes at most n approvals, hard gate included, and is settled by then;
   and at most as many as there are steps that the policy asks about, and one for the gate.
   */
  lemma ApprovalsAreBounded(w: World, plans: Plans, ops: seq<Op>, initial: seq<Grant>, stem: string)
    ensures var s := Run(w, plans, Empty(initial), ops);
            var m, approvals := plans.mission(stem), StoryOf(s.desk.log, stem).approvals;
            var budget := if m.steps == [] && plans.hard(stem) then 1 else |m.steps|;
            var announced := Asking(w, m, |m.steps|) + if plans.hard(stem) then 1 else 0;
            && approvals <= budget && approvals <= announced
            && (At(s, stem, Waiting) ==> approvals < budget && approvals < announced)
  {
    hide Run, StoryOf, Uninterrupted;
    RunsAreInOrder(w, plans, ops, initial);
    var s := Run(w, plans, Empty(initial), ops);
    var m := plans.mission(stem);
    assert JobOk(w, plans, s, stem);
    if At(s, stem, Waiting) && m.steps != [] {
      var k := if stem in s.metas then s.metas[stem].resumeStep else 1;
      AskingGrows(w, m, k, |m.steps|);
    }
  }

  /** The one exception to the bound n: a hard gate asks even when there is no step to run. */
  lemma EmptyGatedMissionTakesOneApproval(w: World, plans: Plans, initial: seq<Grant>, stem: string)
    requires plans.hard(stem) && plans.mission(stem).steps == []
    ensures var s := Run(w, plans, Empty(initial), [Submit(stem), Process(stem), Approve(stem, false)]);
            At(s, stem, Done) && StoryOf(s.desk.log, stem).approvals == 1
  {
    var ops := [Submit(stem), Process(stem), Approve(stem, false)];
    assert ops[1..] == [Process(stem), Approve(stem, false)];
    assert ops[1..][1..] == [Approve(stem, false)];
    assert ops[1..][1..][1..] == [];
    var s2 := Gated(Submitted(Empty(initial), stem), stem);
    assert Run(w, plans, Empty(initial), ops) == Apply(w, plans, s2, Approve(stem, false)) by {
      assert Run(w, plans, s2, ops[1..][1..]) == Run(w, plans, Apply(w, plans, s2, Approve(stem, false)), []);
    }
    var key := Key(InPending(stem), 1, "");
    assert DeskForApproval(plans, s2, stem, false) == Desk({key}, initial, [Approved(key)]);
    assert [Approved(key)][..0] == [];
  }

  /** An approval ends the wait or resumes at a later step. */
  lemma ApprovalMakesProgress(w: World, plans: Plans, ops: seq<Op>, initial: seq<Grant>, stem: string, always: bool)
    ensures var s := Run(w, plans, Empty(initial), ops);
            var t := Apply(w, plans, s, Approve(stem, always));
            At(s, stem, Waiting) && At(t, stem, Waiting) ==> RecordedStep(t, stem) > RecordedStep(s, stem)
  {
    RunsAreInOrder(w, plans, ops, initial);
    var s := Run(w, plans, Empty(initial), ops);
    if At(s, stem, Waiting) {
      assert JobOk(w, plans, s, stem);
      ApproveKeepsJob(w, plans, s, stem, always, initial);
    }
  }
}
