/** What needs an operator's consent, and what the consent leaves behind (src/voxera/core/queue_approvals.py). */
module MissionConsents {
  import opened Approvals
  import opened Decisions
  import opened MissionQueue
  import opened Missions
  import opened Wrappers

  // ----- standing grants

  lemma {:induction false} RunKeepsGrants(w: World, d: Desk, ref: JobRef, m: Mission, i: nat)
    requires i >= 1
    ensures RunFrom(w, d, ref, m, i).desk.grants == d.grants
    decreases |m.steps| + 1 - i
  {
    if i <= |m.steps| {
      var (d', result) := RunSkill(w, d, ref, i, m.steps[i - 1]);
      if result.Succeeded? {
        RunKeepsGrants(w, d', ref, m, i + 1);
      }
    }
  }

  /** What "approve always" grants: the skill, capability and scope of the artifact on file, missing fields at their defaults. */
  function Offered(s: State, stem: string): Grant
    requires stem in s.artifacts
  {
    var a := s.artifacts[stem];
    Grant(a.skill, a.capability, Scope(if a.scope.fsScope.Some? then a.scope.fsScope.value else "workspace_only",
                                       a.scope.needsNetwork == Some(true)))
  }

  /** The operation approves a waiting job for good, and there is an artifact that says what. */
  predicate Consents(s: State, op: Op)
  {
    op.Approve? && op.always && At(s, op.stem, Waiting) && op.stem in s.artifacts
  }

  /** In every state: only such an approval changes the grants, and it adds exactly what its artifact says. */
  lemma OnlyConsentGrants(w: World, plans: Plans, s: State, op: Op)
    ensures Apply(w, plans, s, op).desk.grants ==
            if Consents(s, op) && Offered(s, op.stem) !in s.desk.grants then s.desk.grants + [Offered(s, op.stem)]
            else s.desk.grants
  {
    hide RunFrom;
    match op
    case Process(stem) => RunKeepsGrants(w, s.desk, InInbox(stem), plans.mission(stem), 1);
    case Approve(stem, always) =>
      var (m, k) := Resumption(plans, s, stem);
      RunKeepsGrants(w, DeskForApproval(plans, s, stem, always), InPending(stem), m, k);
    case _ =>
  }

  lemma RunSnoc(w: World, plans: Plans, s: State, ops: seq<Op>)
    requires ops != []
    ensures Run(w, plans, s, ops) == Apply(w, plans, Run(w, plans, s, ops[..|ops| - 1]), ops[|ops| - 1])
    decreases |ops|
  {
    hide Apply;
    if |ops| > 1 {
      RunSnoc(w, plans, Apply(w, plans, s, ops[0]), ops[1..]);
      assert ops[1..][..|ops| - 2] == ops[..|ops| - 1][1..];
    }
  }

  /** The `i`-th operation consented to `g`. */
  ghost predicate ConsentedAt(w: World, plans: Plans, initial: seq<Grant>, ops: seq<Op>, i: nat, g: Grant)
  {
    && i < |ops|
    && var s := Run(w, plans, Empty(initial), ops[..i]);
       Consents(s, ops[i]) && Offered(s, ops[i].stem) == g
  }

  /** Over every run: the standing grants are those there were and those that an operator has consented to for good. */
  lemma {:induction false} GrantsAreConsented(w: World, plans: Plans, ops: seq<Op>, initial: seq<Grant>, g: Grant)
    ensures g in Run(w, plans, Empty(initial), ops).desk.grants <==>
            g in initial || exists i: nat :: ConsentedAt(w, plans, initial, ops, i, g)
    decreases |ops|
  {
    hide Apply, Run;
    if ops == [] {
      assert Run(w, plans, Empty(initial), ops) == Empty(initial) by { NoOperation(w, plans, Empty(initial)); }
    } else {
      var n := |ops| - 1;
      var s := Run(w, plans, Empty(initial), ops[..n]);
      GrantsAreConsented(w, plans, ops[..n], initial, g);
      RunSnoc(w, plans, Empty(initial), ops);
      OnlyConsentGrants(w, plans, s, ops[n]);
      forall i: nat | i < n
        ensures ConsentedAt(w, plans, initial, ops, i, g) <==> ConsentedAt(w, plans, initial, ops[..n], i, g)
      {
        assert ops[..n][..i] == ops[..i];
      }
      assert ConsentedAt(w, plans, initial, ops, n, g) <==> Consents(s, ops[n]) && Offered(s, ops[n].stem) == g;
    }
  }

  lemma NoOperation(w: World, plans: Plans, s: State)
    ensures Run(w, plans, s, []) == s
  {
  }

  // ----- the hard gate

  /** A pass over a gated job in the inbox asks first: the job waits from its first step on, and nothing else has happened. */
  lemma HardGateAsksFirst(w: World, plans: Plans, s: State, stem: string)
    requires At(s, stem, Inbox) && plans.hard(stem)
    ensures var t := Apply(w, plans, s, Process(stem));
            && At(t, stem, Waiting) && stem !in t.metas && stem in t.artifacts
            && t.artifacts[stem] == (if stem in s.artifacts then s.artifacts[stem] else
                                       Artifact(0, "approval_required", "approval_required", RawScope(Some("workspace_only"), Some(false))))
            && t.desk == s.desk && (forall x :: x != stem && x in s.places ==> x in t.places && t.places[x] == s.places[x])
  {
  }

  /** Where submitting, relocating, cancelling and retrying put a job, in every state. */
  lemma OperationsPlaceJobs(w: World, plans: Plans, s: State, stem: string)
    ensures At(Apply(w, plans, s, Submit(stem)), stem, Inbox) || stem in s.places
    ensures At(s, stem, Waiting) && stem !in s.metas ==> At(Apply(w, plans, s, Relocate(stem)), stem, Inbox)
    ensures At(s, stem, Inbox) || At(s, stem, Waiting) ==>
              var t := Apply(w, plans, s, Cancel(stem));
              At(t, stem, Canceled) && stem !in t.metas && stem !in t.artifacts && t.desk == s.desk
    ensures At(s, stem, Failed) || At(s, stem, Canceled) ==>
              var t := Apply(w, plans, s, Retry(stem));
              At(t, stem, Inbox) && t.desk.log == s.desk.log + [Retried(stem)]
  {
  }

  /** Nothing of a gated job is executed, and it is not done, before it has been approved in the same attempt. */
  ghost predicate GateOk(plans: Plans, s: State, stem: string)
  {
    var story := StoryOf(s.desk.log, stem);
    plans.hard(stem) && (story.trace != [] || stem in s.metas || At(s, stem, Done)) ==> story.approvals >= 1
  }

  lemma GateStep(w: World, plans: Plans, s: State, op: Op, stem: string, initial: seq<Grant>)
    requires Inv(w, plans, s, initial) && GateOk(plans, s, stem)
    ensures GateOk(plans, Apply(w, plans, s, op), stem)
  {
    hide InOrder, RunFrom, StoryOf, DeskForApproval, Uninterrupted, RulesOf, ArtifactOf, Resumption, Save, Asking;
    assert JobOk(w, plans, s, op.stem) && JobOk(w, plans, s, stem);
    if op.stem != stem {
      StepTouchesOneJob(w, plans, s, op, stem, initial);
    } else {
      match op
      case Approve(_, always) =>
        if At(s, stem, Waiting) {
          ResumptionIsRecorded(w, plans, s, stem);
          ResumedRunLaws(w, plans, s, stem, always, initial);
        }
      case Deny(_) => StoryAfter(s.desk, Denied(stem), stem);
      case Retry(_) => StoryAfter(s.desk, Retried(stem), stem);
      case _ =>
    }
  }

  lemma {:induction false} GateRun(w: World, plans: Plans, s: State, ops: seq<Op>, stem: string, initial: seq<Grant>)
    requires Inv(w, plans, s, initial) && GateOk(plans, s, stem)
    ensures GateOk(plans, Run(w, plans, s, ops), stem)
    decreases |ops|
  {
    hide Inv, GateOk, Apply;
    if ops != [] {
      GateStep(w, plans, s, ops[0], stem, initial);
      StepKeeps(w, plans, s, ops[0], initial);
      GateRun(w, plans, Apply(w, plans, s, ops[0]), ops[1..], stem, initial);
    }
  }

  /** Over every run: a gated job has an approval before its attempt executes a step, and before it is done. */
  lemma HardGateHolds(w: World, plans: Plans, ops: seq<Op>, initial: seq<Grant>, stem: string)
    requires plans.hard(stem)
    ensures var s := Run(w, plans, Empty(initial), ops);
            var story := StoryOf(s.desk.log, stem);
            story.trace != [] || At(s, stem, Done) ==> story.approvals >= 1
  {
    GateRun(w, plans, Empty(initial), ops, stem, initial);
  }

  // ----- the question on file

  /** The artifact shows the step the job waits at: its skill, the capability recorded for it and the declared scope. */
  predicate Shows(w: World, m: Mission, k: nat, a: Artifact)
  {
    && 1 <= k <= |m.steps| && m.steps[k - 1].skill in w.manifests
    && var manifest := w.manifests[m.steps[k - 1].skill];
       && a.step == k && a.skill == m.steps[k - 1].skill && Normalized(a.scope) == manifest.scope
       && a.capability == if manifest.capabilities == [] then "unknown" else Least(manifest.capabilities)
  }

  /** An artifact belongs to a waiting job and shows its question; only the gate's may lie there for a job in the inbox. */
  ghost predicate ArtifactOk(w: World, plans: Plans, s: State, stem: string)
  {
    && (stem in s.artifacts ==> At(s, stem, Waiting) || At(s, stem, Inbox))
    && (At(s, stem, Waiting) ==> stem in s.artifacts)
    && (stem in s.artifacts ==>
          if stem in s.metas then Shows(w, plans.mission(stem), s.metas[stem].resumeStep, s.artifacts[stem])
          else s.artifacts[stem] == GATE && plans.hard(stem))
  }

  lemma ArtifactStep(w: World, plans: Plans, s: State, op: Op, stem: string, initial: seq<Grant>)
    requires Inv(w, plans, s, initial) && ArtifactOk(w, plans, s, stem)
    ensures ArtifactOk(w, plans, Apply(w, plans, s, op), stem)
  {
    hide InOrder, RunFrom, StoryOf, DeskForApproval, Uninterrupted, RulesOf, Resumption, Save, Asking, ArtifactOf, Shows;
    assert JobOk(w, plans, s, op.stem) && JobOk(w, plans, s, stem);
    if op.stem != stem {
      OthersArtifacts(w, plans, s, op, stem);
      StepTouchesOneJob(w, plans, s, op, stem, initial);
    } else {
      match op
      case Process(_) =>
        if At(s, stem, Inbox) && !plans.hard(stem) {
          PlansGovern(w, plans, InInbox(stem), initial);
          RunLaws(w, s.desk, InInbox(stem), plans.mission(stem), 1, RulesOf(w, plans, initial));
          ArtifactShows(w, plans.mission(stem));
        }
      case Approve(_, always) =>
        if At(s, stem, Waiting) {
          ResumptionIsRecorded(w, plans, s, stem);
          ResumedRunLaws(w, plans, s, stem, always, initial);
          ArtifactShows(w, plans.mission(stem));
        }
      case _ =>
    }
  }

  lemma ArtifactShows(w: World, m: Mission)
    ensures forall k: nat :: 1 <= k <= |m.steps| && m.steps[k - 1].skill in w.manifests ==> Shows(w, m, k, ArtifactOf(w, m, k))
  {
  }

  lemma OthersArtifacts(w: World, plans: Plans, s: State, op: Op, other: string)
    requires op.stem != other
    ensures var t := Apply(w, plans, s, op);
            (other in t.artifacts <==> other in s.artifacts) && (other in s.artifacts ==> t.artifacts[other] == s.artifacts[other])
  {
    hide RunFrom, Resumption, DeskForApproval, ArtifactOf;
  }

  lemma {:induction false} ArtifactRun(w: World, plans: Plans, s: State, ops: seq<Op>, stem: string, initial: seq<Grant>)
    requires Inv(w, plans, s, initial) && ArtifactOk(w, plans, s, stem)
    ensures ArtifactOk(w, plans, Run(w, plans, s, ops), stem)
    decreases |ops|
  {
    hide Inv, ArtifactOk, Apply;
    if ops != [] {
      ArtifactStep(w, plans, s, ops[0], stem, initial);
      StepKeeps(w, plans, s, ops[0], initial);
      ArtifactRun(w, plans, Apply(w, plans, s, ops[0]), ops[1..], stem, initial);
    }
  }

  /**
   Over every run: a job waits exactly with an artifact that shows its question, and what "approve always" would grant
   is for the very step the job waits at.
   */
  lemma ArtifactShowsTheQuestion(w: World, plans: Plans, ops: seq<Op>, initial: seq<Grant>, stem: string)
    requires w.Registered()
    ensures var s := Run(w, plans, Empty(initial), ops);
            && (At(s, stem, Waiting) ==> stem in s.artifacts)
            && (stem in s.artifacts ==> At(s, stem, Waiting) || (At(s, stem, Inbox) && plans.hard(stem)))
            && (stem in s.metas ==>
                  && stem in s.artifacts && Shows(w, plans.mission(stem), s.metas[stem].resumeStep, s.artifacts[stem])
                  && var manifest := w.manifests[s.artifacts[stem].skill];
                     Offered(s, stem) == Grant(manifest.id, RecordedCapability(manifest), manifest.scope))
  {
    ArtifactRun(w, plans, Empty(initial), ops, stem, initial);
    hide StoryOf, Uninterrupted, Asking;
    RunsAreInOrder(w, plans, ops, initial);
    assert JobOk(w, plans, Run(w, plans, Empty(initial), ops), stem);
  }
}
