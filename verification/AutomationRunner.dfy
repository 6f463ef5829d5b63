/** Deciding whether an automation is due, and firing it (src/voxera/automation/runner.py). */
module AutomationRunner {
  import opened AutomationModels
  import opened Collections
  import opened Text
  import opened Wrappers

  predicate OneShot(t: Trigger)
  {
    t.OnceAt? || t.Delay?
  }

  predicate Supported(t: Trigger)
  {
    OneShot(t) || t.RecurringInterval?
  }

  function DueAnchor(d: Definition): Option<int>
  {
    match d.trigger
    case OnceAt(runAt) => if runAt > 0 then Some(runAt) else None
    case Delay(delay) => if delay > 0 then Some(d.createdAtMs + delay) else None
    case RecurringInterval(interval) =>
      if d.nextRunAtMs.Some? then d.nextRunAtMs
      else if interval > 0 then Some(d.createdAtMs + interval)
      else None
    case _ => None
  }

  datatype Decision = Due | Disabled | Unsupported | AlreadyFired | NoAnchor | NotYet

  function Evaluate(d: Definition, now: int, force: bool): Decision
  {
    if !d.enabled then Disabled
    else if !Supported(d.trigger) then Unsupported
    else if force then Due
    else if OneShot(d.trigger) && d.lastRunAtMs.Some? then AlreadyFired
    else
      match DueAnchor(d)
      case None => NoAnchor
      case Some(anchor) => if now < anchor then NotYet else Due
  }

  // ----- names derived from the run

  function DecimalInt(n: int): string
  {
    if n < 0 then "-" + Decimal(-n) else Decimal(n)
  }

  /** `digest` stands for the hash of the automation's id and the stamp. */
  function RunId(stamp: int, digest: string): string
  {
    DecimalInt(stamp) + "-" + digest
  }

  function JobName(stamp: int, digest: string): string
  {
    "inbox-" + RunId(stamp, digest) + ".json"
  }

  function HistoryRef(id: string, stamp: int, digest: string): string
  {
    "history/auto-" + id + "-" + RunId(stamp, digest) + ".json"
  }

  /** The definition after a fire: a one-shot is disabled, a recurring one re-armed from the fire's own stamp. */
  function AfterFire(d: Definition, stamp: int, digest: string): Definition
  {
    var fired := d.(lastRunAtMs := Some(stamp), lastJobRef := Some(JobName(stamp, digest)),
                    runHistoryRefs := d.runHistoryRefs + [HistoryRef(d.id, stamp, digest)]);
    match d.trigger
    case RecurringInterval(interval) => fired.(enabled := true, nextRunAtMs := Some(stamp + interval))
    case OnceAt(_) => fired.(enabled := false, nextRunAtMs := None)
    case Delay(_) => fired.(enabled := false, nextRunAtMs := None)
    case _ => fired
  }

  // ----- one definition, one pass

  datatype Outcome = OutcomeSubmitted | OutcomeError

  datatype HistoryRecord = HistoryRecord(id: string, stamp: int, outcome: Outcome, job: Option<string>)

  datatype Disk = Disk(definitions: map<string, Record>, inbox: map<string, string>, history: seq<HistoryRecord>)

  /** Which writes fail, and what the inbox thinks of the payload. */
  datatype Faults = Faults(emit: bool, history: bool, errorHistory: bool, save: bool, hasAnchor: bool)

  datatype Result = Skipped(why: Decision) | EmitFailed | Submitted(job: string) | SaveFailed(job: string) | Raised

  predicate Emits(disk: Disk, now: int, digest: string, faults: Faults)
  {
    faults.hasAnchor && JobName(now, digest) !in disk.inbox && !faults.emit
  }

  predicate Saves(now: int, faults: Faults)
  {
    !faults.save && now > 0
  }

  function Process(disk: Disk, d: Definition, now: int, force: bool, digest: string, faults: Faults): (Disk, Result)
  {
    var decision := Evaluate(d, now, force);
    if decision != Due then (disk, Skipped(decision))
    else if !Emits(disk, now, digest, faults) then
      if faults.errorHistory then (disk, Raised)
      else (disk.(history := disk.history + [HistoryRecord(d.id, now, OutcomeError, None)]), EmitFailed)
    else
      var job := JobName(now, digest);
      var emitted := disk.(inbox := disk.inbox[job := d.payload]);
      if faults.history then (emitted, Raised)
      else
        var recorded := emitted.(history := emitted.history + [HistoryRecord(d.id, now, OutcomeSubmitted, Some(job))]);
        if Saves(now, faults) then
          (recorded.(definitions := recorded.definitions[d.id := Dump(Saved(d, now, digest))]), Submitted(job))
        else if faults.errorHistory then (recorded, Raised)
        else
          (recorded.(history := recorded.history + [HistoryRecord(d.id, now, OutcomeError, Some(job))]), SaveFailed(job))
  }

  /** The definition that a completed fire writes. */
  function Saved(d: Definition, now: int, digest: string): Definition
  {
    var fired := AfterFire(d, now, digest);
    fired.(updatedAtMs := Max(now, Max(d.createdAtMs, d.updatedAtMs)))
  }

  /**
   What a completed fire leaves of the definition: its stamp, job and history entry; a one-shot switched off, a recurring
   one armed for an interval after the stamp; nothing else but the update time is touched.
   */
  lemma FireLeaves(d: Definition, now: int, digest: string)
    ensures var f := Saved(d, now, digest);
            && f.lastRunAtMs == Some(now) && f.lastJobRef == Some(JobName(now, digest))
            && f.runHistoryRefs == d.runHistoryRefs + [HistoryRef(d.id, now, digest)]
            && (OneShot(d.trigger) ==> !f.enabled && f.nextRunAtMs.None?)
            && (d.trigger.RecurringInterval? ==> f.enabled && f.nextRunAtMs == Some(now + d.trigger.intervalMs))
            && f.(enabled := d.enabled, lastRunAtMs := d.lastRunAtMs, lastJobRef := d.lastJobRef, nextRunAtMs := d.nextRunAtMs,
                  runHistoryRefs := d.runHistoryRefs, updatedAtMs := d.updatedAtMs) == d
  {
  }

  /** With digests of one length, jobs emitted at different times, or by different automations, have different names. */
  lemma JobNamesTellTheirStamp(s: int, t: int, d: string, e: string)
    requires |d| == |e| && JobName(s, d) == JobName(t, e)
    ensures s == t && d == e
    ensures "inbox-" <= JobName(s, d) && JobName(s, d)[|JobName(s, d)| - 5..] == ".json"
  {
    hide JobName;
    JobNameParts(s, d);
    JobNameParts(t, e);
    var x, y := DecimalInt(s), DecimalInt(t);
    SignTells(s);
    SignTells(t);
    if s < 0 {
      assert x[1..] == Decimal(-s) && y[1..] == Decimal(-t);
      DecimalInjective(-s, -t);
    } else {
      DecimalInjective(s, t);
    }
  }

  lemma SignTells(n: int)
    ensures DecimalInt(n) != [] && (DecimalInt(n)[0] == '-' <==> n < 0)
  {
    if n >= 0 {
      DecimalIsDigits(n);
      assert Decimal(n)[0] in Decimal(n);
    }
  }

  lemma JobNameParts(stamp: int, digest: string)
    ensures var name := JobName(stamp, digest);
            && "inbox-" <= name && |name| == |DecimalInt(stamp)| + |digest| + 12
            && name[|name| - 5..] == ".json" && name[|name| - 5 - |digest|..|name| - 5] == digest
            && name[6..|name| - 6 - |digest|] == DecimalInt(stamp)
  {
  }

  lemma NamesAreClean(id: string, stamp: int, digest: string)
    ensures CleanRef(JobName(stamp, digest)) && CleanRef(HistoryRef(id, stamp, digest))
  {
  }

  lemma SavedIsValid(d: Definition, now: int, digest: string, payloadOk: string -> bool)
    requires Valid(d, payloadOk) && now > 0
    ensures Valid(Saved(d, now, digest), payloadOk)
  {
    hide LegalId, JobName, HistoryRef, CleanRef;
    NamesAreClean(d.id, now, digest);
    var s := Saved(d, now, digest);
    forall i | 0 <= i < |s.runHistoryRefs| ensures CleanRef(s.runHistoryRefs[i]) {
      if i < |d.runHistoryRefs| { assert s.runHistoryRefs[i] == d.runHistoryRefs[i]; }
    }
  }

  /** A completed fire writes a definition that loads again, as what was written. */
  lemma FireReloads(d: Definition, now: int, digest: string, payloadOk: string -> bool)
    requires Valid(d, payloadOk) && now > 0
    ensures Valid(Saved(d, now, digest), payloadOk)
    ensures Validate(Dump(Saved(d, now, digest)), payloadOk) == Some(Saved(d, now, digest))
    ensures TouchUpdated(AfterFire(d, now, digest), Some(now), now) == Some(Saved(d, now, digest))
    ensures Saved(d, now, digest).updatedAtMs >= d.updatedAtMs
  {
    hide Valid, Validate, Dump;
    SavedIsValid(d, now, digest, payloadOk);
    ValidDefinitionSurvives(Saved(d, now, digest), payloadOk);
  }

  /** When a trigger lets an unforced call fire, in its own fields. */
  predicate TimeHasCome(d: Definition, now: int)
  {
    match d.trigger
    case OnceAt(runAt) => d.lastRunAtMs.None? && runAt > 0 && now >= runAt
    case Delay(delay) => d.lastRunAtMs.None? && delay > 0 && now >= d.createdAtMs + delay
    case RecurringInterval(interval) =>
      if d.nextRunAtMs.Some? then now >= d.nextRunAtMs.value else interval > 0 && now >= d.createdAtMs + interval
    case RecurringCron(_) => false
    case WatchPath(_, _) => false
  }

  /**
   An unforced call fires exactly if the definition is enabled and its time has come; a forced one, if it is enabled and
   not a cron or watch trigger. The fire is completed exactly if the inbox takes the job and every write succeeds.
   */
  lemma CallFiresIffItsTimeHasCome(disk: Disk, d: Definition, now: int, force: bool, digest: string, faults: Faults)
    ensures var r := Process(disk, d, now, force, digest, faults).1;
            && (!force ==> (!r.Skipped? <==> d.enabled && TimeHasCome(d, now)))
            && (force ==> (!r.Skipped? <==> d.enabled && !d.trigger.RecurringCron? && !d.trigger.WatchPath?))
            && (r.Submitted? <==>
                  && !r.Skipped? && faults.hasAnchor && JobName(now, digest) !in disk.inbox
                  && !faults.emit && !faults.history && !faults.save && now > 0)
  {
  }

  /** A skipped definition leaves no trace, an error never advances it, and each call emits at most one job. */
  lemma ProcessSideEffects(disk: Disk, d: Definition, now: int, force: bool, digest: string, faults: Faults)
    ensures var (disk', r) := Process(disk, d, now, force, digest, faults);
            && (r.Skipped? ==> disk' == disk)
            && (!r.Submitted? ==> disk'.definitions == disk.definitions)
            && (r.Submitted? || r.SaveFailed? ==>
                  r.job !in disk.inbox && disk'.inbox == disk.inbox[r.job := d.payload])
            && (r.EmitFailed? ==> disk'.inbox == disk.inbox)
            && (disk'.inbox != disk.inbox && !r.Submitted? && !r.Raised? ==>
                  disk'.history[|disk'.history| - 1] == HistoryRecord(d.id, now, OutcomeError, Some(r.job)))
  {
  }

  /** The definition in a file may be fired. */
  predicate DueInFile(disk: Disk, name: string, now: int, payloadOk: string -> bool)
  {
    && name in disk.definitions
    && var d := Validate(disk.definitions[name], payloadOk);
       d.Some? && d.value.enabled && TimeHasCome(d.value, now)
  }

  /**
   A completed fire marks the file that is named after the id. A one-shot definition in a file of any
   other name stays due there, and fires again on the next pass.
   */
  lemma OneShotIsDoneIffFiledUnderItsId(disk: Disk, name: string, d: Definition, now: int, digest: string, faults: Faults,
                                        payloadOk: string -> bool)
    requires DueInFile(disk, name, now, payloadOk) && Validate(disk.definitions[name], payloadOk) == Some(d)
    requires OneShot(d.trigger) && Process(disk, d, now, false, digest, faults).1.Submitted?
    ensures DueInFile(Process(disk, d, now, false, digest, faults).0, name, now, payloadOk) <==> name != d.id
  {
  }

  // ----- a definition in a file of another name

  /** A one-shot definition with the id `a`. */
  const EXAMPLE := Definition("a", "Once", "", true, OnceAt(1000), "{}", 1, 1, None, None, None, [], "standard", "cli")

  const NO_FAULTS := Faults(false, false, false, false, true)

  lemma ExampleIsValid(payloadOk: string -> bool)
    requires payloadOk("{}")
    ensures Validate(Dump(EXAMPLE), payloadOk) == Some(EXAMPLE)
  {
    assert Valid(EXAMPLE, payloadOk);
    ValidDefinitionSurvives(EXAMPLE, payloadOk);
  }

  lemma NamesDiffer(s: int, t: int)
    ensures JobName(s, "x") != JobName(t, "y")
  {
    var a, b := JobName(s, "x"), JobName(t, "y");
    assert a[|a| - 6] == 'x' && b[|b| - 6] == 'y';
  }

  /** Filed as `copy.json`, the definition is fired by two passes, and would be by a third. */
  lemma MisfiledOneShotFiresTwice(payloadOk: string -> bool)
    requires payloadOk("{}")
    ensures var disk := Disk(map["copy" := Dump(EXAMPLE)], map[], []);
            var (once, first) := Process(disk, EXAMPLE, 2000, false, "x", NO_FAULTS);
            var (twice, second) := Process(once, EXAMPLE, 2001, false, "y", NO_FAULTS);
            && DueInFile(disk, "copy", 2000, payloadOk) && first.Submitted?
            && DueInFile(once, "copy", 2001, payloadOk) && second.Submitted?
            && DueInFile(twice, "copy", 2002, payloadOk) && |twice.inbox| == 2
  {
    hide Validate, Dump, JobName, HistoryRef;
    ExampleIsValid(payloadOk);
    NamesDiffer(2000, 2001);
  }

  // ----- a pass over the definitions

  /** What one pass does to the disk, definition by definition. */
  function Pass(disk: Disk, ds: seq<Definition>, now: int, digests: seq<string>, faults: seq<Faults>): (Disk, seq<Result>)
    requires |digests| == |ds| && |faults| == |ds|
  {
    if ds == [] then (disk, [])
    else
      var n := |ds| - 1;
      var (before, rs) := Pass(disk, ds[..n], now, digests[..n], faults[..n]);
      if rs != [] && rs[|rs| - 1].Raised? then (before, rs)
      else
        var (after, r) := Process(before, ds[n], now, false, digests[n], faults[n]);
        (after, rs + [r])
  }

  class Runner {
    var definitions: map<string, Record>
    var inbox: map<string, string>
    var history: seq<HistoryRecord>

    constructor (disk: Disk)
      ensures Now() == disk
    {
      definitions, inbox, history := disk.definitions, disk.inbox, disk.history;
    }

    ghost function Now(): Disk
      reads this
    {
      Disk(definitions, inbox, history)
    }

    /** Evaluate, emit if due, record, save. An exception from a history write is the result `Raised`. */
    method ProcessAutomationDefinition(d: Definition, now: int, force: bool, digest: string, faults: Faults)
      returns (r: Result)
      modifies this
      ensures (Now(), r) == Process(old(Now()), d, now, force, digest, faults)
    {
      var decision := Evaluate(d, now, force);
      if decision != Due {
        return Skipped(decision);
      }
      var job := JobName(now, digest);
      if !faults.hasAnchor || job in inbox || faults.emit {
        if faults.errorHistory {
          return Raised;
        }
        history := history + [HistoryRecord(d.id, now, OutcomeError, None)];
        return EmitFailed;
      }
      inbox := inbox[job := d.payload];
      if faults.history {
        return Raised;
      }
      history := history + [HistoryRecord(d.id, now, OutcomeSubmitted, Some(job))];
      var touched := TouchUpdated(AfterFire(d, now, digest), Some(now), now);
      if touched.None? || faults.save {
        if faults.errorHistory {
          return Raised;
        }
        history := history + [HistoryRecord(d.id, now, OutcomeError, Some(job))];
        return SaveFailed(job);
      }
      definitions := definitions[d.id := Dump(touched.value)];
      return Submitted(job);
    }

    /** One time stamp and one snapshot of the definitions, listed at the start, for the whole pass. */
    method RunDueAutomations(names: seq<string>, payloadOk: string -> bool, now: int, digests: seq<string>,
                             faults: seq<Faults>)
      returns (results: seq<Result>)
      requires Lists(names, definitions)
      requires |digests| == |faults| == |Listed(definitions, names, payloadOk)|
      modifies this
      ensures (Now(), results) ==
              Pass(old(Now()), Listed(old(definitions), names, payloadOk), now, digests, faults)
    {
      hide Process, Collected;
      var snapshot := ListAutomationDefinitions(definitions, names, payloadOk);
      results := [];
      for i := 0 to |snapshot|
        invariant (Now(), results) == Pass(old(Now()), snapshot[..i], now, digests[..i], faults[..i])
        invariant results != [] ==> !results[|results| - 1].Raised?
      {
        assert snapshot[..i + 1][..i] == snapshot[..i] && digests[..i + 1][..i] == digests[..i];
        assert faults[..i + 1][..i] == faults[..i];
        var r := ProcessAutomationDefinition(snapshot[i], now, false, digests[i], faults[i]);
        results := results + [r];
        if r.Raised? {
          RaisedEnds(old(Now()), snapshot, now, digests, faults, i + 1);
          return;
        }
      }
      assert snapshot[..|snapshot|] == snapshot && digests[..|snapshot|] == digests;
      assert faults[..|snapshot|] == faults;
    }
  }

  /** An exception ends the pass: later definitions are not looked at. */
  lemma {:induction false} RaisedEnds(disk: Disk, ds: seq<Definition>, now: int, digests: seq<string>,
                                      faults: seq<Faults>, i: nat)
    requires |digests| == |ds| && |faults| == |ds| && 0 < i <= |ds|
    requires var (_, rs) := Pass(disk, ds[..i], now, digests[..i], faults[..i]); rs != [] && rs[|rs| - 1].Raised?
    ensures Pass(disk, ds, now, digests, faults) == Pass(disk, ds[..i], now, digests[..i], faults[..i])
  {
    var n := |ds| - 1;
    if i == |ds| {
      assert ds[..i] == ds && digests[..i] == digests && faults[..i] == faults;
    } else {
      assert ds[..n][..i] == ds[..i] && digests[..n][..i] == digests[..i] && faults[..n][..i] == faults[..i];
      RaisedEnds(disk, ds[..n], now, digests[..n], faults[..n], i);
    }
  }

  // ----- a pass without faults

  predicate DueNow(ds: seq<Definition>, now: int, i: int)
    requires 0 <= i < |ds|
  {
    ds[i].enabled && TimeHasCome(ds[i], now)
  }

  /** Jobs of this pass have names that are free and different from each other. */
  predicate FreshNames(disk: Disk, now: int, digests: seq<string>)
  {
    && (forall i :: 0 <= i < |digests| ==> JobName(now, digests[i]) !in disk.inbox)
    && (forall i, j :: 0 <= i < j < |digests| ==> |digests[i]| == |digests[j]| && digests[i] != digests[j])
  }

  /** One job for each enabled definition whose time has come. */
  function JobsOfTheDue(ds: seq<Definition>, now: int, digests: seq<string>): map<string, string>
    requires |digests| == |ds|
  {
    if ds == [] then map[]
    else
      var n := |ds| - 1;
      var front := JobsOfTheDue(ds[..n], now, digests[..n]);
      if DueNow(ds, now, n) then front[JobName(now, digests[n]) := ds[n].payload] else front
  }

  /** With different names none of them takes another's place. */
  lemma {:induction false} EveryDueHasItsJob(ds: seq<Definition>, now: int, digests: seq<string>, name: string)
    requires |digests| == |ds|
    requires forall i, j :: 0 <= i < j < |digests| ==> JobName(now, digests[i]) != JobName(now, digests[j])
    ensures name in JobsOfTheDue(ds, now, digests) <==>
              exists i :: 0 <= i < |ds| && DueNow(ds, now, i) && name == JobName(now, digests[i])
    ensures forall i :: 0 <= i < |ds| && DueNow(ds, now, i) && name == JobName(now, digests[i]) ==>
              name in JobsOfTheDue(ds, now, digests) && JobsOfTheDue(ds, now, digests)[name] == ds[i].payload
  {
    hide JobName, TimeHasCome;
    if ds != [] {
      var n := |ds| - 1;
      EveryDueHasItsJob(ds[..n], now, digests[..n], name);
      forall i | 0 <= i < n ensures DueNow(ds[..n], now, i) <==> DueNow(ds, now, i) {
      }
    }
  }

  lemma NamesDifferByDigest(now: int, digests: seq<string>)
    requires forall i, j :: 0 <= i < j < |digests| ==> |digests[i]| == |digests[j]| && digests[i] != digests[j]
    ensures forall i, j :: 0 <= i < j < |digests| ==> JobName(now, digests[i]) != JobName(now, digests[j])
  {
    hide JobName;
    forall i, j | 0 <= i < j < |digests| ensures JobName(now, digests[i]) != JobName(now, digests[j]) {
      if JobName(now, digests[i]) == JobName(now, digests[j]) {
        JobNamesTellTheirStamp(now, now, digests[i], digests[j]);
      }
    }
  }

  /**
   When nothing fails, a pass looks at every definition and submits exactly the enabled ones whose time has come: the
   inbox keeps its jobs and gets one for each of them, with its payload, and nothing else.
   */
  lemma {:induction false} PassSubmitsExactlyTheDue(disk: Disk, ds: seq<Definition>, now: int, digests: seq<string>,
                                                    faults: seq<Faults>)
    requires |digests| == |ds| && |faults| == |ds| && now > 0 && FreshNames(disk, now, digests)
    requires forall i :: 0 <= i < |faults| ==> faults[i] == Faults(false, false, false, false, true)
    ensures var (disk', rs) := Pass(disk, ds, now, digests, faults);
            && |rs| == |ds| && (forall i :: 0 <= i < |ds| ==> (rs[i].Submitted? <==> DueNow(ds, now, i)) && !rs[i].Raised?)
            && disk'.inbox == disk.inbox + JobsOfTheDue(ds, now, digests)
  {
    hide JobName, TimeHasCome, Process;
    if ds != [] {
      var n := |ds| - 1;
      var front := ds[..n];
      PassSubmitsExactlyTheDue(disk, front, now, digests[..n], faults[..n]);
      var (before, rs) := Pass(disk, front, now, digests[..n], faults[..n]);
      forall i | 0 <= i < n ensures DueNow(front, now, i) <==> DueNow(ds, now, i) {
      }
      NamesDifferByDigest(now, digests);
      EveryDueHasItsJob(front, now, digests[..n], JobName(now, digests[n]));
      FaultlessCall(before, ds[n], now, digests[n]);
    }
  }

  lemma FaultlessCall(disk: Disk, d: Definition, now: int, digest: string)
    requires now > 0 && JobName(now, digest) !in disk.inbox
    ensures var (disk', r) := Process(disk, d, now, false, digest, Faults(false, false, false, false, true));
            && (r.Submitted? <==> d.enabled && TimeHasCome(d, now)) && !r.Raised?
            && disk'.inbox == if d.enabled && TimeHasCome(d, now) then disk.inbox[JobName(now, digest) := d.payload] else disk.inbox
  {
    hide JobName;
  }
}
