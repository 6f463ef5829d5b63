/**
 What a health snapshot shows of the last events of a run, and what reading makes of a file that somebody else
 may have written (src/voxera/health.py). The counters and the degradation state are in module Health.
 */
module HealthTrace {
  import opened Collections
  import opened Health
  import opened Text
  import opened Values
  import opened Wrappers

  // ----- reading a file

  predicate KnownOutcome(outcome: string)
  {
    outcome in ["clean", "failed_shutdown", "startup_recovered"]
  }

  /** A field as the daemon writes it; the two that are derived from the failure count are left out. */
  predicate WellFormed(k: Key, v: Value)
  {
    match k
    case Failures => v.Int? && v.n >= 0
    case AppliedS => v.Int? && v.n >= 0
    case DaemonState => v == Words("healthy") || v == Words("degraded")
    case DegradedSince => v.Null? || v.Number?
    case AppliedTs => v.Null? || v.Number?
    case ShutdownTs => v.Null? || v.Number?
    case DegradedReason => v.Null? || (v.Words? && v.s != [])
    case ShutdownReason => v.Null? || (v.Words? && v.s != [])
    case ShutdownJob => v.Null? || (v.Words? && v.s != [])
    case ShutdownOutcome => v.Null? || (v.Words? && KnownOutcome(v.s))
    case LockState => v.Null? || (v.Words? && v.s != [] && Strip(v.s) == v.s == Lower(v.s))
    case CounterTable => v.Counters?
    case WaitS => true
    case WaitActive => true
    case _ =>
      if k in [StartedAt, Pid, UpdatedAt, LastErrorTs, LastOkTs, FallbackTs] then v.Null? || (v.Int? && v.n != 0)
      else v.Null? || (v.Words? && v.s != [] && Strip(v.s) == v.s)
  }

  /** Whatever a file holds, every field that is read is well formed. */
  lemma ReadingIsWellFormed(env: Env, p: Snapshot, k: Key)
    requires Sane(env)
    ensures WellFormed(k, Normal(env, p, k))
  {
    hide Strip, Lower, Backoff, ParseInt, Trimmed;
    StripTrims(Str(env, Get(p, k)));
    LockIsWellFormed(env, p);
  }

  lemma LockIsWellFormed(env: Env, p: Snapshot)
    ensures WellFormed(LockState, Normal(env, p, LockState))
  {
    hide Strip, Lower, Trimmed;
    var s := Strip(Str(env, Get(p, LockState)));
    StripTrims(Str(env, Get(p, LockState)));
    LowerStays(s);
    StripTrims(Lower(s));
  }

  /** What is well formed is read as it is. */
  lemma WellFormedIsRead(env: Env, p: Snapshot, k: Key)
    requires WellFormed(k, Get(p, k)) && !k.WaitS? && !k.WaitActive?
    ensures Normal(env, p, k) == Get(p, k)
  {
    hide Strip, Backoff, ParseInt, Lower;
    LowerWords();
  }

  /** Numbers in another form are converted: a count to an integer that is not negative, a time to a float. */
  lemma NumbersAreConverted(env: Env, p: Snapshot, n: int, b: bool)
    ensures var v := ToInt(Get(p, Failures));
            Normal(env, p, Failures) == Int(if v.Some? && v.value > 0 then v.value else 0)
    ensures Get(p, ShutdownTs) == Int(n) ==> Normal(env, p, ShutdownTs) == Number(n as real)
    ensures Get(p, ShutdownTs) == Flag(b) ==> Normal(env, p, ShutdownTs) == Number(if b then 1.0 else 0.0)
  {
    assert ParseInt([]) == None;
    hide ParseInt;
  }

  lemma LowerWords()
    ensures Lower("degraded") == "degraded" && Lower("healthy") == "healthy"
  {
    LowerIsKept("degraded");
    LowerIsKept("healthy");
  }

  lemma LowerIsKept(s: string)
    requires forall c :: c in s ==> LowerChar(c) == c
    ensures Lower(s) == s
  {
  }

  // ----- the last events of a run

  const EVENT_FIELDS: seq<Key> :=
    [LastError, LastErrorTs, AppliedS, AppliedTs, ShutdownOutcome, ShutdownTs, ShutdownReason, ShutdownJob]

  /** What an operation writes to one of these fields, as it is read afterwards; None if it leaves the field alone. */
  function Write(op: Op, k: Key): Option<Value>
  {
    match op
    case Counter(_, _, error, nowMs) =>
      if error == [] then None
      else if k == LastError then Some(if Strip(error) == [] then Null else Words(Strip(error)))
      else if k == LastErrorTs then Some(if nowMs == 0 then Null else Int(nowMs))
      else None
    case Backedoff(wait, ts) =>
      if k == AppliedS then Some(Int(if ToInt(wait).Some? && ToInt(wait).value > 0 then ToInt(wait).value else 0))
      else if k == AppliedTs then Some(Number(ts))
      else None
    case Shutdown(outcome, ts, reason, job) =>
      if k == ShutdownOutcome then
        Some(Words(if KnownOutcome(outcome) then outcome else "failed_shutdown"))
      else if k == ShutdownTs then Some(Number(ts))
      else if k == ShutdownReason then Some(if reason.None? || reason.value == [] then Null else Words(reason.value))
      else if k == ShutdownJob then Some(if job.None? || job.value == [] then Null else Words(job.value))
      else None
    case Reset(scope, _, _) =>
      if k == AppliedS then Some(Int(0))
      else if k == AppliedTs || !scope.CurrentState? then Some(Null)
      else None
    case _ => None
  }

  /** The value of the last such write; before the first there is none. */
  function LastWrite(ops: seq<Op>, k: Key): Value
  {
    if ops == [] then if k == AppliedS then Int(0) else Null
    else
      var w := Write(ops[|ops| - 1], k);
      if w.Some? then w.value else LastWrite(ops[..|ops| - 1], k)
  }

  /** After any run from an empty snapshot, the last error, back-off and shutdown are those that were recorded last. */
  lemma {:induction false} FieldsShowLastWrite(env: Env, ops: seq<Op>, k: Key)
    requires Sane(env) && k in EVENT_FIELDS
    ensures Get(Read(env, Run(env, None, ops)), k) == LastWrite(ops, k)
  {
    hide Normal, Updated, Write, WellFormed;
    if ops == [] {
      NothingWritten(env, k);
    } else {
      var n := |ops| - 1;
      var file := Run(env, None, ops[..n]);
      var p := Read(env, file);
      FieldsShowLastWrite(env, ops[..n], k);
      ReadingIsWellFormed(env, if file.Some? then file.value else map[], k);
      UpdateWrites(env, p, ops[n], k);
      var q := Updated(env, p, ops[n]);
      ReadingIsWellFormed(env, q, k);
      WellFormedIsRead(env, Normalize(env, q), k);
      WellFormedIsRead(env, Normalize(env, Normalize(env, q)), k);
    }
  }

  lemma NothingWritten(env: Env, k: Key)
    requires k in EVENT_FIELDS
    ensures Normal(env, map[], k) == LastWrite([], k)
  {
  }

  function ReadAs(env: Env, k: Key, v: Value): Value
  {
    match k
    case LastError => StrippedOrNull(env, v)
    case LastErrorTs => IntOrNull(v)
    case AppliedS => Int(Natural(v))
    case ShutdownOutcome => if v in [Words("clean"), Words("failed_shutdown"), Words("startup_recovered")] then v else Null
    case ShutdownReason => TextOrNull(env, v)
    case ShutdownJob => TextOrNull(env, v)
    case _ => TimeOrNull(v)
  }

  lemma EventFieldsAreRead(env: Env, p: Snapshot, k: Key)
    requires k in EVENT_FIELDS
    ensures Normal(env, p, k) == ReadAs(env, k, Get(p, k))
  {
    hide StrippedOrNull, IntOrNull, Natural, TextOrNull, TimeOrNull, Backoff, StateOf;
  }

  lemma UpdateWrites(env: Env, p: Snapshot, op: Op, k: Key)
    requires k in EVENT_FIELDS && WellFormed(k, Get(p, k))
    ensures Normal(env, Updated(env, p, op), k) == if Write(op, k).Some? then Write(op, k).value else Get(p, k)
  {
    WellFormedIsRead(env, p, k);
    hide Normal, WellFormed, Updated;
    match op
    case Counter(_, _, _, _) => CounterWrites(env, p, op, k);
    case Backedoff(_, _) => BackoffWrites(env, p, op, k);
    case Shutdown(_, _, _, _) => ShutdownWrites(env, p, op, k);
    case Reset(_, _, _) => ResetWrites(env, p, op, k);
    case _ => DegradationWrites(env, p, op, k);
  }

  lemma CounterWrites(env: Env, p: Snapshot, op: Op, k: Key)
    requires k in EVENT_FIELDS && op.Counter?
    ensures Normal(env, Updated(env, p, op), k) == if Write(op, k).Some? then Write(op, k).value else Normal(env, p, k)
  {
    var q := Increment(p, op.key, op.amount, op.lastError, op.nowMs);
    EventFieldsAreNotCounted(k);
    IncrementWrites(p, op.key, op.amount, op.lastError, op.nowMs, k);
    assert Updated(env, p, op) == q;
    hide EVENT_FIELDS, Strip, Increment, Normal, Updated;
    if op.lastError == [] || (!k.LastError? && !k.LastErrorTs?) {
      NormalDependsOnField(env, q, p, k);
    } else {
      ErrorFieldsAreRead(env, q, op.lastError, op.nowMs);
    }
  }

  lemma EventFieldsAreNotCounted(k: Key)
    requires k in EVENT_FIELDS
    ensures k !in [UpdatedAt, CounterTable, LockState, Pid, StartedAt, WaitActive]
    ensures k !in [UpdatedAt, CounterTable] && !k.WaitS? && !k.WaitActive?
  {
  }

  lemma IncrementWrites(p: Snapshot, key: string, amount: int, error: string, nowMs: int, k: Key)
    requires k !in [UpdatedAt, CounterTable]
    ensures Get(Increment(p, key, amount, error, nowMs), k) ==
            if error != [] && k.LastError? then Words(error)
            else if error != [] && k.LastErrorTs? then Int(nowMs)
            else Get(p, k)
  {
    hide CountersOf;
  }

  lemma ErrorFieldsAreRead(env: Env, p: Snapshot, error: string, nowMs: int)
    requires error != []
    ensures Get(p, LastError) == Words(error) ==>
              Normal(env, p, LastError) == if Strip(error) == [] then Null else Words(Strip(error))
    ensures Get(p, LastErrorTs) == Int(nowMs) ==> Normal(env, p, LastErrorTs) == if nowMs == 0 then Null else Int(nowMs)
  {
    hide Strip;
  }

  lemma BackoffWrites(env: Env, p: Snapshot, op: Op, k: Key)
    requires k in EVENT_FIELDS && op.Backedoff?
    ensures Normal(env, Updated(env, p, op), k) == if Write(op, k).Some? then Write(op, k).value else Normal(env, p, k)
  {
    EventFieldsAreRead(env, p, k);
    EventFieldsAreRead(env, Updated(env, p, op), k);
    hide Strip, Normal, TextOrNull, StrippedOrNull, IntOrNull, ParseInt;
  }

  lemma ShutdownWrites(env: Env, p: Snapshot, op: Op, k: Key)
    requires k in EVENT_FIELDS && op.Shutdown?
    ensures Normal(env, Updated(env, p, op), k) == if Write(op, k).Some? then Write(op, k).value else Normal(env, p, k)
  {
    hide RecordShutdown, Normal;
    ShutdownReads(env, p, op.outcome, op.ts, op.reason, op.job, k);
  }

  lemma ShutdownReads(env: Env, p: Snapshot, outcome: string, ts: real, reason: Option<string>, job: Option<string>, k: Key)
    requires k in EVENT_FIELDS
    ensures Normal(env, RecordShutdown(p, outcome, ts, reason, job), k) ==
            match k
            case ShutdownOutcome => Words(if KnownOutcome(outcome) then outcome else "failed_shutdown")
            case ShutdownTs => Number(ts)
            case ShutdownReason => if reason.None? || reason.value == [] then Null else Words(reason.value)
            case ShutdownJob => if job.None? || job.value == [] then Null else Words(job.value)
            case _ => Normal(env, p, k)
  {
    var q := RecordShutdown(p, outcome, ts, reason, job);
    ShutdownWritten(p, outcome, ts, reason, job, k);
    EventFieldsAreRead(env, q, k);
    EventFieldsAreNotCounted(k);
    OutcomeIsRead(env, outcome);
    hide Normal, RecordShutdown, KnownOutcome, EVENT_FIELDS;
    if Get(q, k) == Get(p, k) { NormalDependsOnField(env, q, p, k); }
  }

  lemma ShutdownWritten(p: Snapshot, outcome: string, ts: real, reason: Option<string>, job: Option<string>, k: Key)
    ensures Get(RecordShutdown(p, outcome, ts, reason, job), k) ==
            match k
            case ShutdownOutcome => Words(if KnownOutcome(outcome) then outcome else "failed_shutdown")
            case ShutdownTs => Number(ts)
            case ShutdownReason => if reason.Some? then Words(reason.value) else Null
            case ShutdownJob => if job.Some? && job.value != [] then Words(job.value) else Null
            case _ => Get(p, k)
  {
  }

  lemma OutcomeIsRead(env: Env, outcome: string)
    ensures var v := Words(if KnownOutcome(outcome) then outcome else "failed_shutdown");
            ReadAs(env, ShutdownOutcome, v) == v
  {
  }

  lemma ResetWrites(env: Env, p: Snapshot, op: Op, k: Key)
    requires k in EVENT_FIELDS && op.Reset?
    ensures Normal(env, Updated(env, p, op), k) == if Write(op, k).Some? then Write(op, k).value else Normal(env, p, k)
  {
    hide ResetSnapshot, Normal;
    ResetReads(env, p, op.scope, op.group, op.nowMs, k);
  }

  lemma ResetReads(env: Env, p: Snapshot, scope: Scope, group: Option<Group>, nowMs: int, k: Key)
    requires k in EVENT_FIELDS
    ensures Normal(env, ResetSnapshot(p, scope, group, nowMs), k) ==
            if k.AppliedS? then Int(0)
            else if k.AppliedTs? || !scope.CurrentState? then Null
            else Normal(env, p, k)
  {
    EventFieldsOf(scope, k);
    EventFieldsAreNotCounted(k);
    hide EVENT_FIELDS, Normal, FieldsOf, ResetSnapshot, AfterReset, Phantom, Derived;
    var q := ResetSnapshot(p, scope, group, nowMs);
    ResetField(p, scope, group, nowMs, k);
    if k in FieldsOf(scope) {
      ResetIsNormal(env, q, k);
    } else {
      NormalDependsOnField(env, q, p, k);
    }
  }

  lemma EventFieldsOf(scope: Scope, k: Key)
    requires k in EVENT_FIELDS
    ensures k in FieldsOf(scope) <==> k in [AppliedS, AppliedTs] || !scope.CurrentState?
    ensures AfterReset(k) == Null && (Phantom(k) <==> k.AppliedS?) && !Derived(k)
  {
    EventFieldsAreRecent(k);
    hide EVENT_FIELDS, RECENT_HISTORY_FIELDS, CURRENT_STATE_FIELDS;
  }

  lemma EventFieldsAreRecent(k: Key)
    requires k in EVENT_FIELDS
    ensures k in RECENT_HISTORY_FIELDS
    ensures k in CURRENT_STATE_FIELDS <==> k in [AppliedS, AppliedTs]
    ensures k !in [DaemonState, Failures, WaitS, WaitActive, DegradedSince, DegradedReason]
  {
  }

  lemma DegradationWrites(env: Env, p: Snapshot, op: Op, k: Key)
    requires k in EVENT_FIELDS && (op.Fallback? || op.Success?) && WellFormed(k, Get(p, k)) && Normal(env, p, k) == Get(p, k)
    ensures Normal(env, Updated(env, p, op), k) == Get(p, k) && Write(op, k).None?
  {
    hide Normal, UpdateDegradationState, WellFormed;
    EventFieldsAreNotCounted(k);
    var now := if op.Fallback? then op.now else 0.0;
    DegradationLeaves(env, p, op.Fallback?, op.Success?, now, k);
    WellFormedIsRead(env, Updated(env, p, op), k);
  }

  lemma DegradationLeaves(env: Env, p: Snapshot, fallback: bool, success: bool, now: real, k: Key)
    requires k in EVENT_FIELDS
    ensures Get(UpdateDegradationState(env, p, fallback, success, now), k) == Normal(env, p, k)
  {
    EventFieldsAreRecent(k);
    NormalAt(env, p, k);
    hide Normal, Normalize, EVENT_FIELDS, RECENT_HISTORY_FIELDS, CURRENT_STATE_FIELDS;
  }
}
