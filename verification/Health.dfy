/** The daemon's health snapshot and its resets (src/voxera/health.py, src/voxera/health_reset.py). */
module Health {
  import opened Collections
  import opened Text
  import opened Values
  import opened Wrappers

  datatype Key =
    | DaemonState | Failures | WaitS | WaitActive | AppliedS | AppliedTs | DegradedSince | DegradedReason
    | LastError | LastErrorTs | LastOkEvent | LastOkTs
    | FallbackReason | FallbackFrom | FallbackTo | FallbackTs
    | ShutdownOutcome | ShutdownTs | ShutdownReason | ShutdownJob
    | StartedAt | Pid | UpdatedAt | LockState | CounterTable

  type Snapshot = map<Key, Value>

  /** Backoff settings from the environment, and Python's `str` of a value that is not text. */
  datatype Env = Env(base: Option<string>, max: Option<string>, str: Value -> string)

  /** What Python prints for a value is never the empty string. */
  ghost predicate Sane(env: Env)
  {
    forall v :: env.str(v) != []
  }

  const DEGRADED_THRESHOLD := 3

  function Get(p: Snapshot, k: Key): Value
  {
    if k in p then p[k] else Missing
  }

  // ----- backoff

  function EnvInt(v: Option<string>, default: int): int
  {
    if v.Some? && ParseInt(v.value).Some? then ParseInt(v.value).value else default
  }

  function Backoff(env: Env, failures: int): int
  {
    var base := Max(EnvInt(env.base, 2), 0);
    var wait := if failures >= 10 then 15 * base else if failures >= 5 then 4 * base else if failures >= 3 then base else 0;
    Min(wait, Max(EnvInt(env.max, 60), 0))
  }

  /** The wait never shrinks as failures go on, never exceeds the cap, and is zero before the third. */
  lemma BackoffGrows(env: Env, a: int, b: int)
    requires a <= b
    ensures 0 <= Backoff(env, a) <= Backoff(env, b) <= Max(EnvInt(env.max, 60), 0)
    ensures a < DEGRADED_THRESHOLD ==> Backoff(env, a) == 0
  {
  }

  /** The settings that are numbers count, but not below zero; otherwise the base is two seconds and the cap sixty. */
  lemma WaitsFollowSettings(env: Env, failures: int, base: int, cap: int)
    requires if env.base.None? then base == 2 else ParseInt(env.base.value) == Some(base)
    requires if env.max.None? then cap == 60 else ParseInt(env.max.value) == Some(cap)
    ensures Backoff(env, failures) ==
            if base <= 0 || cap <= 0 || failures < 3 then 0
            else Min(cap, if failures < 5 then base else if failures < 10 then 4 * base else 15 * base)
  {
    hide ParseInt;
  }

  // ----- normalization

  /** `_safe_int(v, 0)` */
  function SafeInt(v: Value): int
  {
    if ToInt(v).Some? then ToInt(v).value else 0
  }

  function Str(env: Env, v: Value): string
  {
    if v.Words? then v.s else env.str(v)
  }

  /** `max(_safe_int(v or 0, 0), 0)` */
  function Natural(v: Value): int
  {
    if Truthy(v) then Max(SafeInt(v), 0) else 0
  }

  function TimeOrNull(v: Value): Value
  {
    match v
    case Number(x) => v
    case Int(n) => Number(n as real)
    case Flag(b) => Number(if b then 1.0 else 0.0)
    case _ => Null
  }

  function TextOrNull(env: Env, v: Value): Value
  {
    if Truthy(v) then Words(Str(env, v)) else Null
  }

  function StrippedOrNull(env: Env, v: Value): Value
  {
    var s := if Truthy(v) then Strip(Str(env, v)) else [];
    if s == [] then Null else Words(s)
  }

  function IntOrNull(v: Value): Value
  {
    if SafeInt(v) == 0 then Null else Int(SafeInt(v))
  }

  function StateOf(env: Env, v: Value): string
  {
    var s := if Truthy(v) then Lower(Str(env, v)) else "healthy";
    if s == "degraded" then s else "healthy"
  }

  function Normal(env: Env, p: Snapshot, k: Key): Value
  {
    match k
    case Failures => Int(Natural(Get(p, Failures)))
    case WaitS => Int(Backoff(env, Natural(Get(p, Failures))))
    case WaitActive => Flag(Backoff(env, Natural(Get(p, Failures))) > 0)
    case DaemonState => Words(StateOf(env, Get(p, k)))
    case AppliedS => Int(Natural(Get(p, k)))
    case DegradedSince => TimeOrNull(Get(p, k))
    case AppliedTs => TimeOrNull(Get(p, k))
    case ShutdownTs => TimeOrNull(Get(p, k))
    case DegradedReason => TextOrNull(env, Get(p, k))
    case ShutdownReason => TextOrNull(env, Get(p, k))
    case ShutdownJob => TextOrNull(env, Get(p, k))
    case ShutdownOutcome =>
      if Get(p, k) in [Words("clean"), Words("failed_shutdown"), Words("startup_recovered")] then Get(p, k) else Null
    case StartedAt => IntOrNull(Get(p, k))
    case Pid => IntOrNull(Get(p, k))
    case UpdatedAt => IntOrNull(Get(p, k))
    case LastErrorTs => IntOrNull(Get(p, k))
    case LastOkTs => IntOrNull(Get(p, k))
    case FallbackTs => IntOrNull(Get(p, k))
    case LockState =>
      var v := StrippedOrNull(env, Get(p, k));
      if v.Words? then Words(Lower(v.s)) else Null
    case LastError => StrippedOrNull(env, Get(p, k))
    case LastOkEvent => StrippedOrNull(env, Get(p, k))
    case FallbackReason => StrippedOrNull(env, Get(p, k))
    case FallbackFrom => StrippedOrNull(env, Get(p, k))
    case FallbackTo => StrippedOrNull(env, Get(p, k))
    case CounterTable => if Get(p, k).Counters? then Get(p, k) else Counters(map[])
  }

  function Normalize(env: Env, p: Snapshot): Snapshot
  {
    map k: Key :: Normal(env, p, k)
  }

  lemma StrippedStays(env: Env, v: Value)
    ensures StrippedOrNull(env, StrippedOrNull(env, v)) == StrippedOrNull(env, v)
  {
    hide Strip;
    StripTrims(Str(env, v));
  }

  lemma LowerStays(s: string)
    ensures Lower(Lower(s)) == Lower(s)
    ensures Trimmed(s) ==> Trimmed(Lower(s))
  {
  }

  lemma LockStateStays(env: Env, p: Snapshot)
    ensures Normal(env, Normalize(env, p), LockState) == Normal(env, p, LockState)
  {
    hide Strip, Lower, Trimmed;
    var s := Strip(Str(env, Get(p, LockState)));
    StripTrims(Str(env, Get(p, LockState)));
    LowerStays(s);
    StripTrims(Lower(s));
  }

  lemma NormalStays(env: Env, p: Snapshot, k: Key)
    requires Sane(env)
    ensures Normal(env, Normalize(env, p), k) == Normal(env, p, k)
  {
    hide Strip, Backoff, Lower, ParseInt;
    assert Get(Normalize(env, p), k) == Normal(env, p, k);
    assert Get(Normalize(env, p), Failures) == Normal(env, p, Failures);
    match k
    case LockState => LockStateStays(env, p);
    case DaemonState =>
    case LastError => StrippedStays(env, Get(p, k));
    case LastOkEvent => StrippedStays(env, Get(p, k));
    case FallbackReason => StrippedStays(env, Get(p, k));
    case FallbackFrom => StrippedStays(env, Get(p, k));
    case FallbackTo => StrippedStays(env, Get(p, k));
    case _ =>
  }

  /** Normalizing what is normal changes nothing, so a snapshot reads back as it was written. */
  lemma NormalizeIsIdempotent(env: Env, p: Snapshot)
    requires Sane(env)
    ensures Normalize(env, Normalize(env, p)) == Normalize(env, p)
  {
    forall k: Key {
      NormalStays(env, p, k);
    }
  }

  // ----- updates

  function UpdateDegradationState(env: Env, p: Snapshot, fallback: bool, success: bool, now: real): Snapshot
  {
    var s := Normalize(env, p);
    if success then
      s[Failures := Int(0)][DaemonState := Words("healthy")][DegradedSince := Null][DegradedReason := Null]
    else if !fallback then s
    else
      var n := Natural(s[Failures]) + 1;
      var t := s[Failures := Int(n)];
      if n < DEGRADED_THRESHOLD then t
      else
        var u := if t[DaemonState] != Words("degraded") then t[DegradedSince := Number(now)] else t;
        u[DaemonState := Words("degraded")][DegradedReason := Words("brain_fallbacks")]
  }

  function CountersOf(p: Snapshot): map<string, int>
  {
    if Get(p, CounterTable).Counters? then Get(p, CounterTable).table else map[]
  }

  function Counted(table: map<string, int>, key: string): int
  {
    if key in table then table[key] else 0
  }

  function Increment(p: Snapshot, key: string, amount: int, lastError: string, nowMs: int): Snapshot
  {
    var table := CountersOf(p);
    var s := p[CounterTable := Counters(table[key := Counted(table, key) + amount])][UpdatedAt := Int(nowMs)];
    if lastError == [] then s else s[LastError := Words(lastError)][LastErrorTs := Int(nowMs)]
  }

  function ApplyBackoff(p: Snapshot, wait: Value, ts: real): Snapshot
  {
    p[AppliedS := Int(Max(SafeInt(wait), 0))][AppliedTs := Number(ts)]
  }

  /** `reason` has been compacted already. */
  function RecordShutdown(p: Snapshot, outcome: string, ts: real, reason: Option<string>, job: Option<string>): Snapshot
  {
    p[ShutdownOutcome := Words(if outcome in ["clean", "failed_shutdown", "startup_recovered"] then outcome else "failed_shutdown")]
     [ShutdownTs := Number(ts)]
     [ShutdownReason := if reason.Some? then Words(reason.value) else Null]
     [ShutdownJob := if job.Some? && job.value != [] then Words(job.value) else Null]
  }

  // ----- resets

  datatype Scope = CurrentState | RecentHistory | CurrentAndRecent

  const CURRENT_STATE_FIELDS: seq<Key> :=
    [DaemonState, Failures, WaitS, AppliedS, AppliedTs, DegradedSince, DegradedReason]

  const RECENT_HISTORY_FIELDS: seq<Key> :=
    [LastError, LastErrorTs, LastOkEvent, LastOkTs, FallbackReason, FallbackFrom, FallbackTo, FallbackTs,
     ShutdownOutcome, ShutdownTs, ShutdownReason, ShutdownJob, DegradedSince, AppliedS, AppliedTs]

  function FieldsOf(scope: Scope): seq<Key>
  {
    match scope
    case CurrentState => CURRENT_STATE_FIELDS
    case RecentHistory => RECENT_HISTORY_FIELDS
    case CurrentAndRecent => CURRENT_STATE_FIELDS + RECENT_HISTORY_FIELDS
  }

  function AfterReset(k: Key): Value
  {
    if k == DaemonState then Words("healthy") else Null
  }

  /** What `dict.get` gives, where an absent field reads as null. */
  function Before(p: Snapshot, k: Key): Value
  {
    if Get(p, k).Missing? then Null else Get(p, k)
  }

  function Cleared(p: Snapshot, fields: seq<Key>): Snapshot
  {
    if fields == [] then p
    else
      var n := |fields| - 1;
      Cleared(p, fields[..n])[fields[n] := AfterReset(fields[n])]
  }

  lemma {:induction false} ClearedFields(p: Snapshot, fields: seq<Key>, k: Key)
    ensures Get(Cleared(p, fields), k) == if k in fields then AfterReset(k) else Get(p, k)
  {
    if fields != [] {
      var n := |fields| - 1;
      ClearedFields(p, fields[..n], k);
      assert fields == fields[..n] + [fields[n]];
    }
  }

  datatype Change = Change(field: Key, before: Value, after: Value)

  /** The report: one entry for each field that differs from its reset value when the reset comes to it. */
  function Changes(p: Snapshot, fields: seq<Key>): seq<Change>
  {
    if fields == [] then []
    else
      var n := |fields| - 1;
      var before := Before(Cleared(p, fields[..n]), fields[n]);
      Changes(p, fields[..n]) + if before != AfterReset(fields[n]) then [Change(fields[n], before, AfterReset(fields[n]))] else []
  }

  lemma {:induction false} ChangesAreTheDifferences(p: Snapshot, fields: seq<Key>, k: Key)
    ensures var before := if k in p && !p[k].Missing? then p[k] else Null;
            var after := if k.DaemonState? then Words("healthy") else Null;
            && ((exists c :: c in Changes(p, fields) && c.field == k) <==> k in fields && before != after)
            && (forall c :: c in Changes(p, fields) && c.field == k ==> c == Change(k, before, after))
  {
    if fields != [] {
      var n := |fields| - 1;
      ChangesAreTheDifferences(p, fields[..n], k);
      ClearedFields(p, fields[..n], k);
      assert fields == fields[..n] + [fields[n]];
      if k == fields[n] && k !in fields[..n] && Before(p, k) != AfterReset(k) {
        assert Change(k, Before(p, k), AfterReset(k)) in Changes(p, fields);
      }
    }
  }

  datatype Group = PanelAuth | BrainFallback | AllHistorical

  const PANEL_AUTH_COUNTERS: seq<string> :=
    ["panel_auth_invalid", "panel_401_count", "panel_403_count", "panel_429_count", "panel_csrf_missing",
     "panel_csrf_invalid", "panel_mutation_allowed", "panel_4xx_count"]

  const BRAIN_FALLBACK_COUNTERS: seq<string> :=
    ["brain_fallback_count", "brain_fallback_reason_timeout", "brain_fallback_reason_auth",
     "brain_fallback_reason_rate_limit", "brain_fallback_reason_malformed", "brain_fallback_reason_network",
     "brain_fallback_reason_unknown"]

  predicate InGroup(group: Group, key: string)
  {
    match group
    case PanelAuth => key in PANEL_AUTH_COUNTERS
    case BrainFallback => key in BRAIN_FALLBACK_COUNTERS
    case AllHistorical => true
  }

  /** The groups go by the counters' names, so no reset of one group touches another's. */
  lemma GroupsGoByName(key: string)
    ensures InGroup(PanelAuth, key) ==> "panel_" <= key
    ensures InGroup(BrainFallback, key) ==> "brain_fallback_" <= key
    ensures InGroup(AllHistorical, key)
  {
  }

  function Zeroed(table: map<string, int>, group: Group): map<string, int>
  {
    map key | key in table :: if InGroup(group, key) then 0 else table[key]
  }

  function ResetSnapshot(p: Snapshot, scope: Scope, group: Option<Group>, nowMs: int): Snapshot
  {
    var s := Cleared(p, FieldsOf(scope));
    var t := if group.Some? then s[CounterTable := Counters(Zeroed(CountersOf(p), group.value))] else s;
    t[UpdatedAt := Int(nowMs)]
  }

  // ----- runs

  datatype Op =
    | Fallback(now: real, nowMs: int)
    | Success(nowMs: int)
    | Backedoff(wait: Value, ts: real)
    | Counter(key: string, amount: int, lastError: string, nowMs: int)
    | Shutdown(outcome: string, ts: real, reason: Option<string>, job: Option<string>)
    | Reset(scope: Scope, group: Option<Group>, nowMs: int)

  function Read(env: Env, file: Option<Snapshot>): Snapshot
  {
    Normalize(env, if file.Some? then file.value else map[])
  }

  function Updated(env: Env, p: Snapshot, op: Op): Snapshot
  {
    match op
    case Fallback(now, nowMs) => UpdateDegradationState(env, p, true, false, now)[UpdatedAt := Int(nowMs)]
    case Success(nowMs) => UpdateDegradationState(env, p, false, true, 0.0)[UpdatedAt := Int(nowMs)]
    case Backedoff(wait, ts) => ApplyBackoff(p, wait, ts)
    case Counter(key, amount, lastError, nowMs) => Increment(p, key, amount, lastError, nowMs)
    case Shutdown(outcome, ts, reason, job) => RecordShutdown(p, outcome, ts, reason, job)
    case Reset(scope, group, nowMs) => ResetSnapshot(p, scope, group, nowMs)
  }

  function Step(env: Env, file: Option<Snapshot>, op: Op): Option<Snapshot>
  {
    Some(Normalize(env, Normalize(env, Updated(env, Read(env, file), op))))
  }

  function Run(env: Env, file: Option<Snapshot>, ops: seq<Op>): Option<Snapshot>
  {
    if ops == [] then file else Step(env, Run(env, file, ops[..|ops| - 1]), ops[|ops| - 1])
  }

  // ----- what a run's trace says

  predicate ClearsFailures(op: Op)
  {
    op.Success? || (op.Reset? && op.scope != RecentHistory)
  }

  function NextFailures(op: Op, failures: nat): nat
  {
    if ClearsFailures(op) then 0 else failures + if op.Fallback? then 1 else 0
  }

  /** Fallbacks since the last success or reset of the current state. */
  function FailuresIn(ops: seq<Op>): nat
  {
    if ops == [] then 0 else NextFailures(ops[|ops| - 1], FailuresIn(ops[..|ops| - 1]))
  }

  function NextSince(op: Op, failures: nat, since: Option<real>): Option<real>
  {
    if ClearsFailures(op) || op.Reset? then None
    else if op.Fallback? && failures == DEGRADED_THRESHOLD then Some(op.now)
    else since
  }

  /** When the third of them came, unless a reset of the recent history has come since. */
  function DegradedAt(ops: seq<Op>): Option<real>
  {
    if ops == [] then None else NextSince(ops[|ops| - 1], FailuresIn(ops), DegradedAt(ops[..|ops| - 1]))
  }

  /** What has been added to a counter since it was last zeroed by a reset of its group. */
  function CountIn(ops: seq<Op>, key: string): int
  {
    if ops == [] then 0
    else
      var n := CountIn(ops[..|ops| - 1], key);
      match ops[|ops| - 1]
      case Counter(k, amount, _, _) => if k == key then n + amount else n
      case Reset(_, Some(group), _) => if InGroup(group, key) then 0 else n
      case _ => n
  }

  /** After any run from an empty snapshot a counter holds that sum. */
  lemma {:induction false} CountersShowTrace(env: Env, ops: seq<Op>, key: string)
    ensures Counted(CountersOf(Read(env, Run(env, None, ops))), key) == CountIn(ops, key)
  {
    hide Normalize, Updated, CountersOf, InGroup;
    if ops == [] {
      NormalCounts(env, map[]);
      assert CountersOf(map[]) == map[] by { NothingCounted(); }
    } else {
      var n := |ops| - 1;
      var p := Read(env, Run(env, None, ops[..n]));
      var q := Updated(env, p, ops[n]);
      CountersShowTrace(env, ops[..n], key);
      UpdateCounts(env, p, ops[n], key);
      NormalCounts(env, q);
      NormalCounts(env, Normalize(env, q));
      NormalCounts(env, Normalize(env, Normalize(env, q)));
    }
  }

  lemma NormalCounts(env: Env, p: Snapshot)
    ensures CountersOf(Normalize(env, p)) == CountersOf(p)
  {
  }

  lemma NothingCounted()
    ensures CountersOf(map[]) == map[]
  {
  }

  lemma UpdateCounts(env: Env, p: Snapshot, op: Op, key: string)
    ensures Counted(CountersOf(Updated(env, p, op)), key) ==
            match op
            case Counter(k, amount, _, _) => Counted(CountersOf(p), key) + if k == key then amount else 0
            case Reset(_, Some(group), _) => if InGroup(group, key) then 0 else Counted(CountersOf(p), key)
            case _ => Counted(CountersOf(p), key)
  {
    hide Backoff, FieldsOf, Cleared, InGroup, StateOf, TextOrNull, StrippedOrNull, IntOrNull;
    if op.Reset? {
      ClearedFields(p, FieldsOf(op.scope), CounterTable);
      if CounterTable in FieldsOf(op.scope) { FieldsAreKnown(op.scope, CounterTable); }
    }
  }

  predicate Shows(env: Env, p: Snapshot, failures: nat, since: Option<real>)
  {
    var degraded := failures >= DEGRADED_THRESHOLD;
    && Get(p, Failures) == Int(failures)
    && Get(p, WaitS) == Int(Backoff(env, failures))
    && Get(p, WaitActive) == Flag(Backoff(env, failures) > 0)
    && Get(p, DaemonState) == Words(if degraded then "degraded" else "healthy")
    && Get(p, DegradedReason) == (if degraded then Words("brain_fallbacks") else Null)
    && Get(p, DegradedSince) == (if since.Some? then Number(since.value) else Null)
  }

  predicate Empty(v: Value)
  {
    v.Null? || v.Missing?
  }

  /** The four fields that the others are derived from. */
  predicate Carries(p: Snapshot, failures: nat, since: Option<real>)
  {
    var degraded := failures >= DEGRADED_THRESHOLD;
    && (Get(p, Failures) == Int(failures) || (failures == 0 && Empty(Get(p, Failures))))
    && (Get(p, DaemonState) == Words(if degraded then "degraded" else "healthy") || (!degraded && Empty(Get(p, DaemonState))))
    && (if degraded then Get(p, DegradedReason) == Words("brain_fallbacks") else Empty(Get(p, DegradedReason)))
    && (if since.Some? then Get(p, DegradedSince) == Number(since.value) else Empty(Get(p, DegradedSince)))
  }

  lemma NormalAt(env: Env, p: Snapshot, k: Key)
    ensures Get(Normalize(env, p), k) == Normal(env, p, k)
  {
  }

  lemma NormalizeShows(env: Env, p: Snapshot, failures: nat, since: Option<real>)
    requires Carries(p, failures, since)
    ensures Shows(env, Normalize(env, p), failures, since)
  {
    hide Backoff, Normalize, Lower;
    NormalAt(env, p, Failures);
    NormalAt(env, p, DaemonState);
    NormalAt(env, p, WaitS);
    NormalAt(env, p, WaitActive);
    NormalAt(env, p, DegradedReason);
    NormalAt(env, p, DegradedSince);
  }

  lemma FallbackCarries(env: Env, p: Snapshot, now: real, failures: nat, since: Option<real>)
    requires Carries(p, failures, since)
    ensures Carries(UpdateDegradationState(env, p, true, false, now), failures + 1,
                    if failures + 1 == DEGRADED_THRESHOLD then Some(now) else since)
    ensures Carries(UpdateDegradationState(env, p, false, true, now), 0, None)
  {
    hide Normalize, Backoff;
    NormalizeShows(env, p, failures, since);
  }

  lemma ResetCarries(p: Snapshot, scope: Scope, group: Option<Group>, nowMs: int, failures: nat, since: Option<real>)
    requires Carries(p, failures, since)
    ensures Carries(ResetSnapshot(p, scope, group, nowMs), if scope == RecentHistory then failures else 0, None)
  {
    hide Cleared, Zeroed;
    var fields := FieldsOf(scope);
    ClearedFields(p, fields, Failures);
    ClearedFields(p, fields, DaemonState);
    ClearedFields(p, fields, DegradedReason);
    ClearedFields(p, fields, DegradedSince);
    KeyInScope(scope);
  }

  lemma KeyInScope(scope: Scope)
    ensures forall k | k in [Failures, DaemonState, DegradedReason] :: k in FieldsOf(scope) <==> scope != RecentHistory
    ensures DegradedSince in FieldsOf(scope)
  {
  }

  lemma OtherUpdatesCarry(env: Env, p: Snapshot, op: Op, failures: nat, since: Option<real>)
    requires Carries(p, failures, since) && !op.Fallback? && !op.Success? && !op.Reset?
    ensures Carries(Updated(env, p, op), failures, since)
  {
  }

  lemma ShowsCarries(env: Env, p: Snapshot, failures: nat, since: Option<real>)
    requires Shows(env, p, failures, since)
    ensures Carries(p, failures, since)
  {
  }

  lemma TouchCarries(p: Snapshot, nowMs: int, failures: nat, since: Option<real>)
    requires Carries(p, failures, since)
    ensures Carries(p[UpdatedAt := Int(nowMs)], failures, since)
  {
  }

  lemma UpdatedCarries(env: Env, p: Snapshot, op: Op, failures: nat, since: Option<real>)
    requires Shows(env, p, failures, since)
    ensures Carries(Updated(env, p, op), NextFailures(op, failures), NextSince(op, NextFailures(op, failures), since))
  {
    hide Backoff, Normalize, ResetSnapshot, UpdateDegradationState, Carries, Shows, ApplyBackoff, RecordShutdown, Increment;
    ShowsCarries(env, p, failures, since);
    match op
    case Fallback(now, nowMs) =>
      FallbackCarries(env, p, now, failures, since);
      TouchCarries(UpdateDegradationState(env, p, true, false, now), nowMs, NextFailures(op, failures), NextSince(op, failures + 1, since));
    case Success(nowMs) =>
      FallbackCarries(env, p, 0.0, failures, since);
      TouchCarries(UpdateDegradationState(env, p, false, true, 0.0), nowMs, 0, None);
    case Reset(scope, group, nowMs) => ResetCarries(p, scope, group, nowMs, failures, since);
    case _ => OtherUpdatesCarry(env, p, op, failures, since);
  }

  /** After any run from an empty snapshot, every stored field agrees with the run's trace. */
  lemma {:induction false} SnapshotShowsTrace(env: Env, ops: seq<Op>)
    ensures Shows(env, Read(env, Run(env, None, ops)), FailuresIn(ops), DegradedAt(ops))
    ensures ops != [] ==> Shows(env, Run(env, None, ops).value, FailuresIn(ops), DegradedAt(ops))
  {
    hide Backoff, Updated, Normalize;
    if ops == [] {
      NormalizeShows(env, map[], 0, None);
    } else {
      var n := |ops| - 1;
      var before := Read(env, Run(env, None, ops[..n]));
      var failures, since := FailuresIn(ops[..n]), DegradedAt(ops[..n]);
      SnapshotShowsTrace(env, ops[..n]);
      var p := Updated(env, before, ops[n]);
      UpdatedCarries(env, before, ops[n], failures, since);
      NormalizeShows(env, p, FailuresIn(ops), DegradedAt(ops));
      NormalizeShows(env, Normalize(env, p), FailuresIn(ops), DegradedAt(ops));
      NormalizeShows(env, Normalize(env, Normalize(env, p)), FailuresIn(ops), DegradedAt(ops));
    }
  }

  /** A reset of the recent history at position `i` that hits a degraded daemon which has not recovered since. */
  predicate ForgetsAt(ops: seq<Op>, i: nat)
  {
    && i < |ops| && ops[i].Reset? && ops[i].scope == RecentHistory && FailuresIn(ops[..i]) >= DEGRADED_THRESHOLD
    && forall j :: i < j < |ops| ==> !ClearsFailures(ops[j])
  }

  /** A daemon is degraded without a time since when exactly if the recent history was reset while it was. */
  lemma {:induction false} DegradedWithoutTimeIffForgotten(ops: seq<Op>)
    ensures FailuresIn(ops) >= DEGRADED_THRESHOLD && DegradedAt(ops).None? <==> exists i: nat :: ForgetsAt(ops, i)
  {
    if ops != [] {
      var n := |ops| - 1;
      var front := ops[..n];
      DegradedWithoutTimeIffForgotten(front);
      forall i: nat | i < n ensures ForgetsAt(ops, i) <==> ForgetsAt(front, i) && !ClearsFailures(ops[n]) {
        assert ops[..i] == front[..i];
      }
      if FailuresIn(ops) >= DEGRADED_THRESHOLD && DegradedAt(ops).None? {
        if ops[n].Reset? {
          assert ForgetsAt(ops, n);
        } else {
          assert ops[n].Fallback? ==> FailuresIn(front) >= DEGRADED_THRESHOLD;
          var i: nat :| ForgetsAt(front, i);
          assert ForgetsAt(ops, i);
        }
      }
      if i: nat :| ForgetsAt(ops, i) {
        if i < n { assert ForgetsAt(front, i); }
      }
    }
  }

  // ----- what a reset leaves alone, and what it reports

  lemma ResetField(p: Snapshot, scope: Scope, group: Option<Group>, nowMs: int, k: Key)
    ensures k !in [UpdatedAt, CounterTable] ==>
              Get(ResetSnapshot(p, scope, group, nowMs), k) == if k in FieldsOf(scope) then AfterReset(k) else Get(p, k)
    ensures Get(ResetSnapshot(p, scope, group, nowMs), CounterTable) ==
              if group.Some? then Counters(Zeroed(CountersOf(p), group.value)) else Get(p, CounterTable)
  {
    hide Zeroed, FieldsOf, Cleared;
    ClearedFields(p, FieldsOf(scope), k);
    if CounterTable in FieldsOf(scope) { FieldsAreKnown(scope, CounterTable); }
    ClearedFields(p, FieldsOf(scope), CounterTable);
  }

  predicate Derived(k: Key)
  {
    k == WaitS || k == WaitActive
  }

  /** On a stored snapshot, a reset changes only its fields, the derived wait, its counters and the time stamp. */
  lemma ResetLeavesTheRest(env: Env, p: Snapshot, scope: Scope, group: Option<Group>, nowMs: int, k: Key, counter: string)
    requires Sane(env)
    ensures var before := Normalize(env, p);
            var after := Normalize(env, ResetSnapshot(before, scope, group, nowMs));
            && (k !in FieldsOf(scope) && !Derived(k) && k !in [UpdatedAt, CounterTable] ==> Get(after, k) == Get(before, k))
            && Counted(CountersOf(after), counter) ==
                 if group.Some? && InGroup(group.value, counter) then 0 else Counted(CountersOf(before), counter)
  {
    hide Backoff, InGroup, Strip, FieldsOf, Normalize, ResetSnapshot;
    var before := Normalize(env, p);
    var reset := ResetSnapshot(before, scope, group, nowMs);
    ResetField(before, scope, group, nowMs, k);
    NormalAt(env, p, CounterTable);
    NormalAt(env, reset, CounterTable);
    NormalAt(env, p, k);
    NormalAt(env, reset, k);
    NormalStays(env, p, k);
    if !Derived(k) && Get(reset, k) == Get(before, k) {
      NormalDependsOnField(env, reset, before, k);
    }
  }

  lemma NormalDependsOnField(env: Env, p: Snapshot, q: Snapshot, k: Key)
    requires Get(p, k) == Get(q, k) && !Derived(k)
    ensures Normal(env, p, k) == Normal(env, q, k)
  {
  }

  predicate Phantom(k: Key)
  {
    k in [Failures, WaitS, AppliedS]
  }

  /**
   A reset that follows a reset of the same scope has nothing left to do, but reports a change of each
   numeric field of its scope: these are stored as 0 and compared with null.
   */
  lemma SecondResetReportsPhantoms(env: Env, p: Snapshot, scope: Scope, group: Option<Group>, nowMs: int, k: Key)
    requires k in FieldsOf(scope)
    ensures var once := Normalize(env, ResetSnapshot(p, scope, group, nowMs));
            && ((exists c :: c in Changes(once, FieldsOf(scope)) && c.field == k) <==> Phantom(k))
            && (Phantom(k) ==> Get(once, k) == Int(0))
  {
    hide ResetSnapshot, Normalize, FieldsOf, Lower, Strip, Backoff, Changes;
    var reset := ResetSnapshot(p, scope, group, nowMs);
    var once := Normalize(env, reset);
    ResetField(p, scope, group, nowMs, k);
    ResetField(p, scope, group, nowMs, Failures);
    NormalAt(env, reset, k);
    ChangesAreTheDifferences(once, FieldsOf(scope), k);
    FieldsAreKnown(scope, k);
    ResetIsNormal(env, reset, k);
  }

  lemma ResetIsNormal(env: Env, p: Snapshot, k: Key)
    requires Get(p, k) == AfterReset(k) && (k == WaitS ==> Get(p, Failures).Null?)
    requires k !in [UpdatedAt, CounterTable, LockState, Pid, StartedAt, WaitActive]
    ensures Normal(env, p, k) == if Phantom(k) then Int(0) else AfterReset(k)
  {
  }

  lemma FieldsAreKnown(scope: Scope, k: Key)
    requires k in FieldsOf(scope)
    ensures k !in [UpdatedAt, CounterTable, LockState, Pid, StartedAt, WaitActive]
    ensures k == WaitS ==> Failures in FieldsOf(scope)
  {
    hide CURRENT_STATE_FIELDS, RECENT_HISTORY_FIELDS;
    assert k in CURRENT_STATE_FIELDS || k in RECENT_HISTORY_FIELDS;
    if k in CURRENT_STATE_FIELDS { CurrentFieldsAreKnown(k); }
    if k in RECENT_HISTORY_FIELDS { RecentFieldsAreKnown(k); }
    if k == WaitS {
      assert Failures in CURRENT_STATE_FIELDS by { FailuresIsCurrent(); }
    }
  }

  lemma FailuresIsCurrent()
    ensures Failures in CURRENT_STATE_FIELDS
  {
  }

  lemma CurrentFieldsAreKnown(k: Key)
    requires k in CURRENT_STATE_FIELDS
    ensures k !in [UpdatedAt, CounterTable, LockState, Pid, StartedAt, WaitActive]
  {
  }

  lemma RecentFieldsAreKnown(k: Key)
    requires k in RECENT_HISTORY_FIELDS
    ensures k !in [UpdatedAt, CounterTable, LockState, Pid, StartedAt, WaitActive, WaitS]
  {
  }

  // ----- the health file

  function KeysOf(group: Group, order: seq<string>): seq<string>
  {
    match group
    case PanelAuth => PANEL_AUTH_COUNTERS
    case BrainFallback => BRAIN_FALLBACK_COUNTERS
    case AllHistorical => order
  }

  class HealthFile {
    const env: Env
    var file: Option<Snapshot>

    constructor (env: Env)
      ensures this.env == env && file.None?
    {
      this.env := env;
      file := None;
    }

    method ReadSnapshot() returns (p: Snapshot)
      ensures p == Read(env, file)
    {
      p := Normalize(env, if file.Some? then file.value else map[]);
    }

    method WriteSnapshot(p: Snapshot)
      modifies this
      ensures file == Some(Normalize(env, p))
    {
      file := Some(Normalize(env, p));
    }

    method RecordBrainFallbackAttempt(now: real, nowMs: int)
      modifies this
      ensures file == Step(env, old(file), Fallback(now, nowMs))
    {
      hide Normal;
      var current := ReadSnapshot();
      var updated := DegradationAfter(current, true, false, now);
      updated := updated[UpdatedAt := Int(nowMs)];
      WriteSnapshot(Normalize(env, updated));
    }

    method RecordMissionSuccess(nowMs: int)
      modifies this
      ensures file == Step(env, old(file), Success(nowMs))
    {
      hide Normal;
      var current := ReadSnapshot();
      var updated := DegradationAfter(current, false, true, 0.0);
      updated := updated[UpdatedAt := Int(nowMs)];
      WriteSnapshot(Normalize(env, updated));
    }

    method DegradationAfter(state: Snapshot, fallback: bool, success: bool, now: real) returns (next: Snapshot)
      ensures next == UpdateDegradationState(env, state, fallback, success, now)
    {
      next := Normalize(env, state);
      if success {
        next := next[Failures := Int(0)];
        next := next[DaemonState := Words("healthy")];
        next := next[DegradedSince := Null];
        next := next[DegradedReason := Null];
        return;
      }
      if !fallback {
        return;
      }
      var failures := Natural(next[Failures]) + 1;
      next := next[Failures := Int(failures)];
      if failures >= DEGRADED_THRESHOLD {
        if next[DaemonState] != Words("degraded") {
          next := next[DegradedSince := Number(now)];
        }
        next := next[DaemonState := Words("degraded")];
        next := next[DegradedReason := Words("brain_fallbacks")];
      }
    }

    method IncrementHealthCounter(key: string, amount: int, lastError: string, nowMs: int)
      modifies this
      ensures file == Step(env, old(file), Counter(key, amount, lastError, nowMs))
    {
      hide Normal;
      var payload := ReadSnapshot();
      var counters := CountersOf(payload);
      counters := counters[key := Counted(counters, key) + amount];
      payload := payload[CounterTable := Counters(counters)];
      payload := payload[UpdatedAt := Int(nowMs)];
      if lastError != [] {
        payload := payload[LastError := Words(lastError)];
        payload := payload[LastErrorTs := Int(nowMs)];
      }
      WriteSnapshot(Normalize(env, payload));
    }

    /** `order` lists the stored counters, as iterating over the dictionary does. */
    method ResetHealthSnapshot(scope: Scope, group: Option<Group>, nowMs: int, order: seq<string>)
      returns (changed: seq<Change>, zeroed: seq<string>)
      requires forall key :: key in order <==> key in CountersOf(Read(env, file))
      modifies this
      ensures file == Step(env, old(file), Reset(scope, group, nowMs))
      ensures changed == Changes(Read(env, old(file)), FieldsOf(scope))
      ensures forall key :: key in zeroed <==>
                group.Some? && InGroup(group.value, key) && Counted(CountersOf(Read(env, old(file))), key) != 0
    {
      hide FieldsOf, Normalize, Cleared, Changes, Zeroed, InGroup, Counted;
      var payload := ReadSnapshot();
      NothingIsMissing(env, if file.Some? then file.value else map[]);
      var counters := CountersOf(payload);
      payload, changed := ClearFields(payload, FieldsOf(scope));
      zeroed := [];
      if group.Some? {
        counters, zeroed := ZeroGroup(counters, group.value, order);
        payload := payload[CounterTable := Counters(counters)];
      }
      payload := payload[UpdatedAt := Int(nowMs)];
      WriteSnapshot(Normalize(env, payload));
    }
  }

  method ClearFields(p: Snapshot, fields: seq<Key>) returns (payload: Snapshot, changed: seq<Change>)
    requires forall k :: k in p ==> !p[k].Missing?
    ensures payload == Cleared(p, fields) && changed == Changes(p, fields)
  {
    payload, changed := p, [];
    for i := 0 to |fields|
      invariant payload == Cleared(p, fields[..i]) && changed == Changes(p, fields[..i])
      invariant forall k :: k in payload ==> !payload[k].Missing?
    {
      assert fields[..i + 1][..i] == fields[..i];
      var before, after := Before(payload, fields[i]), AfterReset(fields[i]);
      ghost var was := payload;
      if before != after {
        payload := payload[fields[i] := after];
        changed := changed + [Change(fields[i], before, after)];
      } else if fields[i] !in payload {
        payload := payload[fields[i] := after];
      }
      assert payload == was[fields[i] := after];
    }
    assert fields[..|fields|] == fields;
  }

  lemma NothingIsMissing(env: Env, p: Snapshot)
    ensures forall k :: k in Normalize(env, p) ==> !Normalize(env, p)[k].Missing?
  {
    hide Strip, Lower, Backoff, ParseInt;
  }

  method ZeroGroup(table: map<string, int>, group: Group, order: seq<string>)
    returns (counters: map<string, int>, zeroed: seq<string>)
    requires forall key :: key in order <==> key in table
    ensures counters == Zeroed(table, group)
    ensures forall key :: key in zeroed <==> InGroup(group, key) && Counted(table, key) != 0
  {
    hide PANEL_AUTH_COUNTERS, BRAIN_FALLBACK_COUNTERS;
    counters, zeroed := ZeroCounters(table, KeysOf(group, order));
  }

  method ZeroCounters(table: map<string, int>, keys: seq<string>) returns (counters: map<string, int>, zeroed: seq<string>)
    ensures counters == map key | key in table :: if key in keys then 0 else table[key]
    ensures forall key :: key in zeroed <==> key in keys && Counted(table, key) != 0
  {
    counters, zeroed := table, [];
    for i := 0 to |keys|
      invariant counters == map key | key in table :: if key in keys[..i] then 0 else table[key]
      invariant forall key :: key in zeroed <==> key in keys[..i] && Counted(table, key) != 0
    {
      assert keys[..i + 1] == keys[..i] + [keys[i]];
      var before := Counted(counters, keys[i]);
      if before != 0 {
        counters := counters[keys[i] := 0];
        zeroed := zeroed + [keys[i]];
      } else if keys[i] in counters {
        counters := counters[keys[i] := 0];
      }
    }
    assert keys[..|keys|] == keys;
  }
}
