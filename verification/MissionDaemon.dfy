/** The daemon object that prompts, runs, pauses and resumes (src/voxera/core/queue_approvals.py). `history` is its audit trail. */
module MissionDaemon {
  import opened Approvals
  import opened Collections
  import opened Decisions
  import opened MissionQueue
  import opened Missions

  class QueueDaemon {
    const world: World
    const plans: Plans
    var approvedSteps: set<Key>
    var grants: seq<Grant>
    var currentJobRef: JobRef
    var places: map<string, Place>
    var metas: map<string, Meta>
    var artifacts: map<string, Artifact>
    var history: seq<Event>

    constructor (world: World, plans: Plans, initial: seq<Grant>)
      ensures this.world == world && this.plans == plans && Now() == Empty(initial)
    {
      this.world, this.plans := world, plans;
      approvedSteps, grants, currentJobRef := {}, initial, NoJob;
      places, metas, artifacts := map[], map[], map[];
      history := [];
    }

    ghost function DeskNow(): Desk
      reads this
    {
      Desk(approvedSteps, grants, history)
    }

    ghost function Now(): State
      reads this
    {
      State(DeskNow(), places, metas, artifacts)
    }

    method HasApprovalGrant(skill: string, capability: string, raw: RawScope) returns (found: bool)
      ensures found == HasGrant(grants, skill, capability, raw)
    {
      var wanted := Grant(skill, capability, Normalized(raw));
      for i := 0 to |grants|
        invariant wanted !in grants[..i]
      {
        if grants[i] == wanted {
          return true;
        }
      }
      assert grants[..|grants|] == grants;
      return false;
    }

    method GrantApprovalScope(skill: string, capability: string, raw: RawScope)
      modifies this`grants, this`history
      ensures DeskNow() == Standing(old(DeskNow()), skill, capability, raw)
    {
      history := history + [Granted(Grant(skill, capability, Normalized(raw)))];
      var found := HasApprovalGrant(skill, capability, raw);
      if found {
        return;
      }
      grants := grants + [Grant(skill, capability, Normalized(raw))];
    }

    method QueueApprovalPrompt(m: Manifest, step: nat) returns (answer: Answer)
      modifies this`approvedSteps, this`history
      ensures (DeskNow(), answer) == Prompt(old(DeskNow()), world.dev, Key(currentJobRef, step, m.id), m)
    {
      var key := Key(currentJobRef, step, m.id);
      if key in approvedSteps {
        approvedSteps := approvedSteps - {key};
        history := history + [TokenUsed(key)];
        return Yes;
      }
      var granted := HasApprovalGrant(m.id, AskedCapability(m), AsRaw(m.scope));
      if granted {
        history := history + [GrantUsed(key, GrantAsked(m))];
        return Yes;
      }
      if world.dev && AskedCapability(m) in DEV_ALLOWLIST {
        history := history + [DevAllowed(key, AskedCapability(m))];
        return Yes;
      }
      return Pending;
    }

    method RunOneSkill(n: nat, step: Step) returns (result: StepResult)
      requires world.Registered()
      modifies this`approvedSteps, this`history
      ensures (DeskNow(), result) == RunSkill(world, old(DeskNow()), currentJobRef, n, step)
    {
      if step.skill !in world.manifests {
        return FailedStep;
      }
      var verdict := world.verdict(step);
      if verdict == Decision.Deny {
        return BlockedStep;
      }
      if verdict == Ask {
        var answer := QueueApprovalPrompt(world.manifests[step.skill], n);
        if answer == Pending {
          return AwaitingApproval;
        }
      }
      var stem := StemOf(currentJobRef);
      var attempt := StoryOf(history, stem).attempt;
      history := history + [Executed(Key(currentJobRef, n, step.skill))];
      return if world.works(stem, attempt, n) then Succeeded else FailedStep;
    }

    /** The step loop: stop at the first step that awaits approval, fails or is blocked. */
    method RunMission(m: Mission, startStep: nat) returns (ending: Ending, outcomes: seq<StepResult>)
      requires world.Registered() && startStep >= 1
      modifies this`approvedSteps, this`history
      ensures Ran(DeskNow(), ending, outcomes) == RunFrom(world, old(DeskNow()), currentJobRef, m, startStep)
    {
      hide RunSkill, StoryOf;
      outcomes := [];
      var idx := 1;
      while idx <= |m.steps|
        invariant 1 <= idx <= |m.steps| + 1
        invariant var from := if idx < startStep then startStep else idx;
                  RunFrom(world, old(DeskNow()), currentJobRef, m, startStep) ==
                  Prepend(outcomes, RunFrom(world, DeskNow(), currentJobRef, m, from))
        invariant idx <= startStep ==> outcomes == []
        decreases |m.steps| + 1 - idx
      {
        if idx < startStep {
          idx := idx + 1;
          continue;
        }
        ghost var before, earlier := DeskNow(), outcomes;
        var result := RunOneSkill(idx, m.steps[idx - 1]);
        outcomes := outcomes + [result];
        if result == AwaitingApproval {
          return Paused(idx), outcomes;
        }
        if result != Succeeded {
          return Broke(idx), outcomes;
        }
        Associate(earlier, [result], RunFrom(world, DeskNow(), currentJobRef, m, idx + 1).outcomes);
        idx := idx + 1;
      }
      return Completed, outcomes;
    }

    method WritePendingArtifacts(stem: string, m: Mission, step: nat)
      modifies this`metas, this`artifacts
      ensures metas == old(metas)[stem := Meta(step, Save(m))]
      ensures artifacts == old(artifacts)[stem := ArtifactOf(world, m, step)]
    {
      artifacts := artifacts[stem := ArtifactOf(world, m, step)];
      metas := metas[stem := Meta(step, Save(m))];
    }

    /** A job that is in pending/ already is gated in place. */
    method EnsureHardApprovalGate(stem: string) returns (gated: bool)
      requires At(Now(), stem, Inbox) || At(Now(), stem, Waiting)
      modifies this`places, this`metas, this`artifacts
      ensures gated == plans.hard(stem)
      ensures Now() == if gated then Gated(old(Now()), stem) else old(Now())
    {
      gated := plans.hard(stem);
      if !gated {
        return;
      }
      if places[stem] == Inbox {
        places := places[stem := Waiting];
      }
      if stem !in artifacts {
        artifacts := artifacts[stem := GATE];
      }
      metas := metas - {stem};
    }

    method ProcessJobFile(stem: string)
      requires world.Registered()
      modifies this
      ensures Now() == Apply(world, plans, old(Now()), Process(stem))
    {
      if !(stem in places && places[stem] == Inbox) {
        return;
      }
      var gated := EnsureHardApprovalGate(stem);
      if gated {
        return;
      }
      var m := plans.mission(stem);
      currentJobRef := InInbox(stem);
      var ending, _ := RunMission(m, 1);
      match ending {
        case Paused(k) =>
          places := places[stem := Waiting];
          WritePendingArtifacts(stem, m, k);
        case Broke(_) => places := places[stem := Failed];
        case Completed => places := places[stem := Done];
      }
      currentJobRef := NoJob;
    }

    method ResolveApproval(stem: string, approve: bool, always: bool)
      requires world.Registered()
      modifies this
      ensures Now() == Apply(world, plans, old(Now()), if approve then Approve(stem, always) else Op.Deny(stem))
    {
      if !(stem in places && places[stem] == Waiting) {
        return;
      }
      if approve {
        Resume(stem, always);
      } else {
        history := history + [Denied(stem)];
        Close(stem, Failed);
      }
    }

    method CancelJob(stem: string)
      modifies this
      ensures Now() == Apply(world, plans, old(Now()), Cancel(stem))
    {
      if stem in places && (places[stem] == Inbox || places[stem] == Waiting) {
        Close(stem, Canceled);
      }
    }

    method RetryJob(stem: string)
      modifies this
      ensures Now() == Apply(world, plans, old(Now()), Retry(stem))
    {
      if stem in places && (places[stem] == Failed || places[stem] == Canceled) {
        history := history + [Retried(stem)];
        places := places[stem := Inbox];
      }
    }

    /** The job leaves pending/ with its side files. */
    method Close(stem: string, place: Place)
      modifies this`places, this`metas, this`artifacts
      ensures Now() == Cleared(old(Now()).(places := old(places)[stem := place]), stem)
    {
      places := places[stem := place];
      metas := metas - {stem};
      artifacts := artifacts - {stem};
    }

    method Resumable(stem: string) returns (m: Mission, k: nat)
      ensures (m, k) == Resumption(plans, Now(), stem)
    {
      m, k := plans.mission(stem), 1;
      if stem in metas && metas[stem].mission.steps != [] {
        m := Load(metas[stem].mission, m.id, m.goal);
        k := if metas[stem].resumeStep == 0 then 1 else metas[stem].resumeStep;
      }
    }

    method AdmitApproval(stem: string, always: bool) returns (m: Mission, k: nat)
      modifies this`grants, this`approvedSteps, this`history, this`currentJobRef
      ensures (m, k) == Resumption(plans, old(Now()), stem) && k >= 1
      ensures DeskNow() == DeskForApproval(plans, old(Now()), stem, always)
      ensures currentJobRef == InPending(stem)
    {
      m, k := Resumable(stem);
      if always && stem in artifacts {
        var a := artifacts[stem];
        GrantApprovalScope(a.skill, a.capability, a.scope);
      }
      currentJobRef := InPending(stem);
      approvedSteps := approvedSteps + {Key(currentJobRef, k, SkillAt(m, k))};
      history := history + [Approved(Key(currentJobRef, k, SkillAt(m, k)))];
    }

    method Resume(stem: string, always: bool)
      requires world.Registered() && At(Now(), stem, Waiting)
      modifies this
      ensures Now() == Resumed(world, plans, old(Now()), stem, always)
    {
      hide RunFrom, DeskForApproval, Resumption;
      var m, k := AdmitApproval(stem, always);
      var ending, _ := RunMission(m, k);
      match ending {
        case Paused(step) =>
          places := places[stem := Waiting];
          WritePendingArtifacts(stem, m, step);
        case Broke(_) => Close(stem, Failed);
        case Completed => Close(stem, Done);
      }
      currentJobRef := NoJob;
    }
  }
}
