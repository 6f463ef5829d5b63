/**
 Jobs that are done, denied, canceled or retried, or lose their side files (src/voxera/core/queue_daemon.py,
 src/voxera/core/queue_approvals.py).
 */
module MissionAttempts {
  import opened Approvals
  import opened Decisions
  import opened MissionQueue
  import opened Missions
  import opened Wrappers

  predicate Ended(s: State, stem: string)
  {
    At(s, stem, Done) || At(s, stem, Failed) || At(s, stem, Canceled)
  }

  function Executions(s: State, stem: string): nat
  {
    StoryOf(s.desk.log, stem).executions
  }

  // ----- an ended job stays as it is until it is retried

  lemma {:induction false} EndedStaysForever(w: World, plans: Plans, s: State, later: seq<Op>, stem: string, initial: seq<Grant>)
    requires Inv(w, plans, s, initial) && Ended(s, stem)
    requires At(s, stem, Done) || Retry(stem) !in later
    ensures var t := Run(w, plans, s, later);
            At(t, stem, s.places[stem]) && StoryOf(t.desk.log, stem) == StoryOf(s.desk.log, stem)
    decreases |later|
  {
    hide InOrder, RunFrom, StoryOf;
    if later != [] {
      if later[0].stem != stem { StepTouchesOneJob(w, plans, s, later[0], stem, initial); }
      hide Inv, JobOk;
      StepKeeps(w, plans, s, later[0], initial);
      EndedStaysForever(w, plans, Apply(w, plans, s, later[0]), later[1..], stem, initial);
    }
  }

  /** A denial ends the job: nothing of it is executed then, nor at any later time before it is retried. */
  lemma DenialIsFinal(w: World, plans: Plans, before: seq<Op>, initial: seq<Grant>, stem: string, later: seq<Op>)
    requires Retry(stem) !in later
    ensures var s := Run(w, plans, Empty(initial), before);
            var t := Run(w, plans, Apply(w, plans, s, Op.Deny(stem)), later);
            At(s, stem, Waiting) ==>
              At(t, stem, Failed) && StoryOf(t.desk.log, stem) == StoryOf(s.desk.log, stem).(denied := true)
  {
    hide Inv, RunFrom, StoryOf, Run;
    RunsAreInOrder(w, plans, before, initial);
    var s := Run(w, plans, Empty(initial), before);
    if At(s, stem, Waiting) {
      StepKeeps(w, plans, s, Op.Deny(stem), initial);
      StoryAfter(s.desk, Denied(stem), stem);
      EndedStaysForever(w, plans, Refused(s, stem), later, stem, initial);
    }
  }

  // ----- what a retry sets going

  /** Every execution so far has left its step in the trace of the attempt it was made in. */
  lemma StepExecutions(w: World, plans: Plans, s: State, op: Op, stem: string, initial: seq<Grant>)
    requires Inv(w, plans, s, initial)
    ensures var t := Apply(w, plans, s, op);
            var before, after := StoryOf(s.desk.log, stem), StoryOf(t.desk.log, stem);
            && after.executions >= before.executions
            && (after.executions > before.executions ==>
                  after.trace != [] && ((op == Process(stem) && At(s, stem, Inbox)) || At(s, stem, Waiting)))
  {
    hide InOrder, RunFrom, StoryOf, DeskForApproval, Uninterrupted, RulesOf, Settled, Resumption, Asking;
    assert JobOk(w, plans, s, op.stem);
    if op.stem != stem {
      StepTouchesOneJob(w, plans, s, op, stem, initial);
    } else {
      match op
      case Process(_) =>
        if At(s, stem, Inbox) && !plans.hard(stem) {
          PlansGovern(w, plans, InInbox(stem), initial);
          RunLaws(w, s.desk, InInbox(stem), plans.mission(stem), 1, RulesOf(w, plans, initial));
          SettledDesk(w, s, stem, plans.mission(stem), RunFrom(w, s.desk, InInbox(stem), plans.mission(stem), 1));
        }
      case Approve(_, always) =>
        if At(s, stem, Waiting) {
          var r := ResumedRun(w, plans, s, stem, always);
          if stem in s.metas { RecordedStepIsInRange(w, plans, s, stem); }
          ResumptionIsRecorded(w, plans, s, stem);
          ResumedRunLaws(w, plans, s, stem, always, initial);
          SettledDesk(w, s, stem, plans.mission(stem), r);
        }
      case Deny(_) => StoryAfter(s.desk, Denied(stem), stem);
      case Retry(_) => StoryAfter(s.desk, Retried(stem), stem);
      case _ =>
    }
  }

  lemma SettledDesk(w: World, s: State, stem: string, m: Mission, r: Ran)
    ensures Settled(w, s, stem, m, r).desk == r.desk
  {
  }

  lemma {:induction false} ExecutionsGrow(w: World, plans: Plans, s: State, later: seq<Op>, stem: string, initial: seq<Grant>)
    requires Inv(w, plans, s, initial)
    ensures Executions(Run(w, plans, s, later), stem) >= Executions(s, stem)
    decreases |later|
  {
    hide Inv, Apply, StoryOf;
    if later != [] {
      StepExecutions(w, plans, s, later[0], stem, initial);
      StepKeeps(w, plans, s, later[0], initial);
      ExecutionsGrow(w, plans, Apply(w, plans, s, later[0]), later[1..], stem, initial);
    }
  }

  /** Some pass finds the job in the inbox. */
  ghost predicate ProcessedAgain(w: World, plans: Plans, s: State, later: seq<Op>, stem: string)
    decreases |later|
  {
    later != [] &&
    ((later[0] == Process(stem) && At(s, stem, Inbox)) ||
     ProcessedAgain(w, plans, Apply(w, plans, s, later[0]), later[1..], stem))
  }

  /** Ended, or back in the inbox: no run of the job is under way. */
  predicate AtRest(s: State, stem: string)
  {
    Ended(s, stem) || At(s, stem, Inbox)
  }

  /** At rest nothing of a job is executed, and it stays at rest, unless a pass finds it in the inbox. */
  lemma RestStep(w: World, plans: Plans, s: State, op: Op, stem: string, initial: seq<Grant>)
    requires Inv(w, plans, s, initial) && AtRest(s, stem) && !(op == Process(stem) && At(s, stem, Inbox))
    ensures AtRest(Apply(w, plans, s, op), stem) && Executions(Apply(w, plans, s, op), stem) == Executions(s, stem)
    ensures At(Apply(w, plans, s, op), stem, Inbox) ==> At(s, stem, Inbox) || op == Retry(stem)
  {
    hide InOrder, RunFrom, StoryOf, Uninterrupted, JobOk;
    assert JobOk(w, plans, s, op.stem);
    StepExecutions(w, plans, s, op, stem, initial);
    if op.stem != stem {
      StepTouchesOneJob(w, plans, s, op, stem, initial);
    }
  }

  lemma {:induction false} NotProcessedExecutesNothing(w: World, plans: Plans, s: State, later: seq<Op>, stem: string,
                                                       initial: seq<Grant>)
    requires Inv(w, plans, s, initial) && AtRest(s, stem) && !ProcessedAgain(w, plans, s, later, stem)
    ensures Executions(Run(w, plans, s, later), stem) == Executions(s, stem)
    decreases |later|
  {
    hide Inv, Apply, StoryOf;
    if later != [] {
      RestStep(w, plans, s, later[0], stem, initial);
      StepKeeps(w, plans, s, later[0], initial);
      NotProcessedExecutesNothing(w, plans, Apply(w, plans, s, later[0]), later[1..], stem, initial);
    }
  }

  lemma {:induction false} ProcessedAgainAfterRetry(w: World, plans: Plans, s: State, later: seq<Op>, stem: string,
                                                    initial: seq<Grant>)
    requires Inv(w, plans, s, initial) && Ended(s, stem) && ProcessedAgain(w, plans, s, later, stem)
    ensures exists i, j :: 0 <= i < j < |later| && later[i] == Retry(stem) && later[j] == Process(stem)
    decreases |later|
  {
    hide Inv, Apply, StoryOf;
    var rest := later[1..];
    var t := Apply(w, plans, s, later[0]);
    RestStep(w, plans, s, later[0], stem, initial);
    StepKeeps(w, plans, s, later[0], initial);
    if Ended(t, stem) {
      ProcessedAgainAfterRetry(w, plans, t, rest, stem, initial);
      var i, j :| 0 <= i < j < |rest| && rest[i] == Retry(stem) && rest[j] == Process(stem);
      assert later[i + 1] == Retry(stem) && later[j + 1] == Process(stem);
    } else {
      var j := ProcessedSomewhere(w, plans, t, rest, stem);
      assert later[0] == Retry(stem) && later[j + 1] == Process(stem);
    }
  }

  lemma {:induction false} ProcessedSomewhere(w: World, plans: Plans, s: State, later: seq<Op>, stem: string) returns (j: nat)
    requires ProcessedAgain(w, plans, s, later, stem)
    ensures j < |later| && later[j] == Process(stem)
    decreases |later|
  {
    hide Apply;
    if later[0] == Process(stem) && At(s, stem, Inbox) {
      j := 0;
    } else {
      j := ProcessedSomewhere(w, plans, Apply(w, plans, s, later[0]), later[1..], stem);
      j := j + 1;
    }
  }

  /** The mission's first step runs without asking. */
  predicate StartsFreely(w: World, plans: Plans, stem: string)
  {
    var steps := plans.mission(stem).steps;
    !plans.hard(stem) && steps != [] && steps[0].skill in w.manifests && w.verdict(steps[0]).Allow?
  }

  lemma ProcessExecutes(w: World, plans: Plans, s: State, stem: string, initial: seq<Grant>)
    requires Inv(w, plans, s, initial) && At(s, stem, Inbox) && StartsFreely(w, plans, stem)
    ensures Executions(Apply(w, plans, s, Process(stem)), stem) > Executions(s, stem)
  {
    hide InOrder, RunFrom, StoryOf, RulesOf, Settled;
    var m := plans.mission(stem);
    var r := RunFrom(w, s.desk, InInbox(stem), m, 1);
    PlansGovern(w, plans, InInbox(stem), initial);
    RunLaws(w, s.desk, InInbox(stem), m, 1, RulesOf(w, plans, initial));
    SettledDesk(w, s, stem, m, r);
    assert Uninterrupted(w, stem, StoryOf(s.desk.log, stem).attempt, m, 1) != [];
  }

  lemma {:induction false} ProcessedAgainExecutes(w: World, plans: Plans, s: State, later: seq<Op>, stem: string,
                                                  initial: seq<Grant>)
    requires Inv(w, plans, s, initial) && AtRest(s, stem) && ProcessedAgain(w, plans, s, later, stem)
    requires StartsFreely(w, plans, stem)
    ensures Executions(Run(w, plans, s, later), stem) > Executions(s, stem)
    decreases |later|
  {
    hide Inv, Apply, StoryOf, StartsFreely;
    var t := Apply(w, plans, s, later[0]);
    StepKeeps(w, plans, s, later[0], initial);
    if later[0] == Process(stem) && At(s, stem, Inbox) {
      ProcessExecutes(w, plans, s, stem, initial);
      ExecutionsGrow(w, plans, t, later[1..], stem, initial);
    } else {
      RestStep(w, plans, s, later[0], stem, initial);
      ProcessedAgainExecutes(w, plans, t, later[1..], stem, initial);
    }
  }

  /**
   An ended job executes nothing in a continuation, unless it is retried there and a pass then finds it in the
   inbox; and if its first step runs without asking, that is exactly when it does execute something.
   */
  lemma EndedRunsAgainIffRetriedAndProcessed(w: World, plans: Plans, before: seq<Op>, initial: seq<Grant>, stem: string,
                                             later: seq<Op>)
    requires Ended(Run(w, plans, Empty(initial), before), stem)
    ensures var s := Run(w, plans, Empty(initial), before);
            var same := Executions(Run(w, plans, s, later), stem) == Executions(s, stem);
            && (!ProcessedAgain(w, plans, s, later, stem) ==> same)
            && (StartsFreely(w, plans, stem) ==> (same <==> !ProcessedAgain(w, plans, s, later, stem)))
            && (ProcessedAgain(w, plans, s, later, stem) ==>
                  exists i, j :: 0 <= i < j < |later| && later[i] == Retry(stem) && later[j] == Process(stem))
  {
    hide Inv, Run, StoryOf, StartsFreely, ProcessedAgain;
    var s := Run(w, plans, Empty(initial), before);
    RunsAreInOrder(w, plans, before, initial);
    if ProcessedAgain(w, plans, s, later, stem) {
      ProcessedAgainAfterRetry(w, plans, s, later, stem, initial);
      if StartsFreely(w, plans, stem) { ProcessedAgainExecutes(w, plans, s, later, stem, initial); }
    } else {
      NotProcessedExecutesNothing(w, plans, s, later, stem, initial);
    }
  }

  /** The mission has a first step that can be executed, asked about or not. */
  predicate Startable(w: World, plans: Plans, stem: string)
  {
    var steps := plans.mission(stem).steps;
    steps != [] && steps[0].skill in w.manifests && !w.verdict(steps[0]).Deny?
  }

  lemma StartableHasWhole(w: World, plans: Plans, s: State, stem: string)
    ensures Startable(w, plans, stem) <==> Whole(w, plans, s, stem) != []
  {
  }

  /** Approved at its first step, a job executes that step. */
  lemma ApproveExecutes(w: World, plans: Plans, s: State, stem: string, initial: seq<Grant>)
    requires Inv(w, plans, s, initial) && At(s, stem, Waiting) && Startable(w, plans, stem)
    requires stem in s.metas ==> s.metas[stem].resumeStep == 1
    ensures Executions(Apply(w, plans, s, Approve(stem, false)), stem) > Executions(s, stem)
  {
    hide InOrder, RunFrom, StoryOf, DeskForApproval, Uninterrupted, RulesOf, Settled, Resumption;
    assert JobOk(w, plans, s, stem);
    var m := plans.mission(stem);
    var r := ResumedRun(w, plans, s, stem, false);
    ResumptionIsRecorded(w, plans, s, stem);
    ResumedRunLaws(w, plans, s, stem, false, initial);
    SettledDesk(w, s, stem, m, r);
    StartableHasWhole(w, plans, s, stem);
  }

  /** Of a job in the inbox, a pass executes the first step or leaves it to be approved. */
  lemma ProcessExecutesOrWaits(w: World, plans: Plans, s: State, stem: string, initial: seq<Grant>)
    requires Inv(w, plans, s, initial) && At(s, stem, Inbox) && Startable(w, plans, stem)
    ensures var t := Apply(w, plans, s, Process(stem));
            || Executions(t, stem) > Executions(s, stem)
            || (At(t, stem, Waiting) && (stem in t.metas ==> t.metas[stem].resumeStep == 1))
  {
    hide InOrder, RunFrom, StoryOf, Uninterrupted, RulesOf, ArtifactOf;
    var m := plans.mission(stem);
    PlansGovern(w, plans, InInbox(stem), initial);
    RunLaws(w, s.desk, InInbox(stem), m, 1, RulesOf(w, plans, initial));
    StartableHasWhole(w, plans, s, stem);
  }

  lemma RetriedJobExecutes(w: World, plans: Plans, s: State, stem: string, initial: seq<Grant>)
    requires Inv(w, plans, s, initial) && (At(s, stem, Failed) || At(s, stem, Canceled)) && Startable(w, plans, stem)
    ensures Executions(Run(w, plans, s, [Retry(stem), Process(stem), Approve(stem, false)]), stem) > Executions(s, stem)
  {
    hide Inv, StoryOf, Startable, Processed, Resumed;
    var s1 := Apply(w, plans, s, Retry(stem));
    var s2 := Apply(w, plans, s1, Process(stem));
    var s3 := Apply(w, plans, s2, Approve(stem, false));
    ThreeOperations(w, plans, s, Retry(stem), Process(stem), Approve(stem, false));
    StepKeeps(w, plans, s, Retry(stem), initial);
    StepKeeps(w, plans, s1, Process(stem), initial);
    StoryAfter(s.desk, Retried(stem), stem);
    StepExecutions(w, plans, s1, Process(stem), stem, initial);
    StepExecutions(w, plans, s2, Approve(stem, false), stem, initial);
    ProcessExecutesOrWaits(w, plans, s1, stem, initial);
    if Executions(s2, stem) == Executions(s1, stem) {
      ApproveExecutes(w, plans, s2, stem, initial);
    }
  }

  lemma ThreeOperations(w: World, plans: Plans, s: State, a: Op, b: Op, c: Op)
    ensures Run(w, plans, s, [a, b, c]) == Apply(w, plans, Apply(w, plans, Apply(w, plans, s, a), b), c)
  {
    hide Apply;
    var t := Apply(w, plans, Apply(w, plans, s, a), b);
    assert [a, b, c][1..] == [b, c] && [b, c][1..] == [c] && [c][1..] == [];
    assert Run(w, plans, t, [c]) == Run(w, plans, Apply(w, plans, t, c), []);
  }

  lemma {:induction false} UnstartableExecutesNothing(w: World, plans: Plans, s: State, later: seq<Op>, stem: string,
                                                      initial: seq<Grant>)
    requires Inv(w, plans, s, initial) && !Startable(w, plans, stem)
    ensures Executions(Run(w, plans, s, later), stem) == Executions(s, stem)
    decreases |later|
  {
    hide Apply, StoryOf, InOrder, Uninterrupted;
    if later != [] {
      var t := Apply(w, plans, s, later[0]);
      StepExecutions(w, plans, s, later[0], stem, initial);
      StepKeeps(w, plans, s, later[0], initial);
      JobsAreOnTrack(w, plans, t, stem);
      StartableHasWhole(w, plans, t, stem);
      UnstartableExecutesNothing(w, plans, t, later[1..], stem, initial);
    }
  }

  /** Nothing more of the job is executed, whatever operations follow. */
  ghost predicate ExecutesNoMore(w: World, plans: Plans, s: State, stem: string)
  {
    forall later: seq<Op> :: Executions(Run(w, plans, s, later), stem) == Executions(s, stem)
  }

  /** For every mission: an ended job is finished for good exactly if it is done, or has no first step that could run. */
  lemma EndedIsFinalIffDoneOrUnstartable(w: World, plans: Plans, before: seq<Op>, initial: seq<Grant>, stem: string)
    requires Ended(Run(w, plans, Empty(initial), before), stem)
    ensures var s := Run(w, plans, Empty(initial), before);
            ExecutesNoMore(w, plans, s, stem) <==> At(s, stem, Done) || !Startable(w, plans, stem)
  {
    hide Inv, Run, StoryOf, Startable;
    var s := Run(w, plans, Empty(initial), before);
    RunsAreInOrder(w, plans, before, initial);
    if At(s, stem, Done) {
      forall later: seq<Op> {
        EndedStaysForever(w, plans, s, later, stem, initial);
      }
    } else if !Startable(w, plans, stem) {
      forall later: seq<Op> {
        UnstartableExecutesNothing(w, plans, s, later, stem, initial);
      }
    } else {
      RetriedJobExecutes(w, plans, s, stem, initial);
    }
  }

  // ----- deleting a finished job of the same name

  /** The side files of a waiting job go when a finished job of its name is deleted (`QueueBuckets.Deleted`). */
  function SideFilesDropped(s: State, stem: string): State
  {
    Cleared(s, stem)
  }

  /** The steps executed in the current attempt are those of one uninterrupted run, up to some step. */
  ghost predicate OnTrack(w: World, plans: Plans, s: State, stem: string)
  {
    StoryOf(s.desk.log, stem).trace <= Whole(w, plans, s, stem)
  }

  /** Without its pending file a job's approval runs its first step, though steps of it have been executed. */
  lemma ApprovalStartsOver(w: World, plans: Plans, s: State, stem: string, initial: seq<Grant>)
    requires InOrder(s.desk, RulesOf(w, plans, initial)) && JobOk(w, plans, s, stem)
    requires At(s, stem, Waiting) && stem in s.metas && s.metas[stem].resumeStep > 1
    ensures !OnTrack(w, plans, Apply(w, plans, SideFilesDropped(s, stem), Approve(stem, false)), stem)
  {
    hide RunFrom, InOrder, StoryOf, DeskForApproval, RulesOf, Resumption, Settled;
    var m := plans.mission(stem);
    var t := SideFilesDropped(s, stem);
    var r := ResumedRun(w, plans, t, stem, false);
    var attempt := StoryOf(s.desk.log, stem).attempt;
    var whole, before, after := Whole(w, plans, s, stem), StoryOf(s.desk.log, stem).trace, StoryOf(r.desk.log, stem).trace;
    PayloadIsResumed(plans, t, stem);
    ResumedRunLaws(w, plans, t, stem, false, initial);
    SettledDesk(w, t, stem, m, r);
    assert Apply(w, plans, t, Approve(stem, false)).desk == r.desk;
    var k := |before|;
    assert whole[0] == before[0];
    if r.ending.Paused? {
      assert after[k] == (before + whole)[k];
    }
    assert after[k] == whole[0] == 1;
  }

  lemma PayloadIsResumed(plans: Plans, s: State, stem: string)
    requires stem !in s.metas
    ensures Resumption(plans, s, stem) == (plans.mission(stem), 1)
  {
  }

  /** In every attempt the executed steps stay those of one uninterrupted run, whatever operations follow. */
  ghost predicate StaysExactlyOnce(w: World, plans: Plans, s: State, stem: string)
  {
    forall later: seq<Op> :: OnTrack(w, plans, Run(w, plans, s, later), stem)
  }

  lemma KeptJobsStayExactlyOnce(w: World, plans: Plans, s: State, stem: string, initial: seq<Grant>)
    requires Inv(w, plans, s, initial)
    ensures StaysExactlyOnce(w, plans, s, stem)
  {
    hide InOrder, Apply, OnTrack, JobOk;
    forall later: seq<Op> ensures OnTrack(w, plans, Run(w, plans, s, later), stem) {
      RunKeeps(w, plans, s, later, initial);
      JobsAreOnTrack(w, plans, Run(w, plans, s, later), stem);
    }
  }

  lemma JobsAreOnTrack(w: World, plans: Plans, s: State, stem: string)
    requires JobOk(w, plans, s, stem)
    ensures OnTrack(w, plans, s, stem)
  {
    hide StoryOf, Uninterrupted;
  }

  lemma DroppingBeforeTheFirstStepKeeps(w: World, plans: Plans, s: State, stem: string, initial: seq<Grant>)
    requires Inv(w, plans, s, initial)
    requires At(s, stem, Waiting) && stem in s.metas && s.metas[stem].resumeStep == 1
    ensures Inv(w, plans, SideFilesDropped(s, stem), initial)
  {
    hide StoryOf, InOrder, Uninterrupted;
    var t := SideFilesDropped(s, stem);
    assert JobOk(w, plans, s, stem);
    forall x | x != stem ensures JobOk(w, plans, t, x) {
      UntouchedStaysOk(w, plans, s, t, x);
    }
  }

  /**
   Deleting a finished job of the same name makes a waiting job start over. In every continuation its
   steps are still executed exactly once if and only if none of them had been executed.
   */
  lemma NamesakeDeletionIsHarmlessIffNothingRan(w: World, plans: Plans, ops: seq<Op>, initial: seq<Grant>, stem: string)
    ensures var s := Run(w, plans, Empty(initial), ops);
            At(s, stem, Waiting) && stem in s.metas ==>
              (StaysExactlyOnce(w, plans, SideFilesDropped(s, stem), stem) <==> StoryOf(s.desk.log, stem).trace == [])
  {
    hide StoryOf, InOrder, SideFilesDropped, Uninterrupted, Apply, OnTrack;
    var s := Run(w, plans, Empty(initial), ops);
    RunsAreInOrder(w, plans, ops, initial);
    if At(s, stem, Waiting) && stem in s.metas {
      assert JobOk(w, plans, s, stem);
      if s.metas[stem].resumeStep == 1 {
        DroppingBeforeTheFirstStepKeeps(w, plans, s, stem, initial);
        KeptJobsStayExactlyOnce(w, plans, SideFilesDropped(s, stem), stem, initial);
      } else {
        ApprovalStartsOver(w, plans, s, stem, initial);
        var op := Approve(stem, false);
        assert [op][1..] == [];
        assert Run(w, plans, SideFilesDropped(s, stem), [op]) == Run(w, plans, Apply(w, plans, SideFilesDropped(s, stem), op), []);
      }
    }
  }
}
