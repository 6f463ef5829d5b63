/**
 Automation definitions: validation and storage (src/voxera/automation/models.py,
 src/voxera/automation/store.py).
 */
module AutomationModels {
  import opened Collections
  import opened Sorting
  import opened Text
  import opened Values
  import opened Wrappers

  datatype Trigger =
    | OnceAt(runAtMs: int)
    | Delay(delayMs: int)
    | RecurringInterval(intervalMs: int)
    | RecurringCron(cron: string)
    | WatchPath(path: string, event: string)

  /** A definition in memory. `payload` is the JSON text of the payload template. */
  datatype Definition = Definition(
    id: string, title: string, description: string, enabled: bool, trigger: Trigger, payload: string,
    createdAtMs: int, updatedAtMs: int, lastRunAtMs: Option<int>, nextRunAtMs: Option<int>,
    lastJobRef: Option<string>, runHistoryRefs: seq<string>, policyPosture: string, createdFrom: string)

  /** The same as the fields of a file: the trigger is a kind and an object of any shape. */
  datatype Record = Record(
    id: string, title: string, description: string, enabled: bool, kind: string, config: map<string, Value>,
    payload: string, createdAtMs: int, updatedAtMs: int, lastRunAtMs: Option<int>, nextRunAtMs: Option<int>,
    lastJobRef: Option<string>, runHistoryRefs: seq<string>, policyPosture: string, createdFrom: string)

  // ----- validation

  predicate IsAlnum(c: char)
  {
    'A' <= c <= 'Z' || 'a' <= c <= 'z' || '0' <= c <= '9'
  }

  predicate LegalId(s: string)
  {
    1 <= |s| <= 128 && IsAlnum(s[0]) && forall i :: 0 <= i < |s| ==> IsAlnum(s[i]) || s[i] == '_' || s[i] == '-'
  }

  /** Strictly positive, and a number: `true` is not 1. */
  function PositiveInt(config: map<string, Value>, key: string): Option<int>
  {
    if config.Keys == {key} && config[key].Int? && config[key].n > 0 then Some(config[key].n) else None
  }

  function NonEmpty(j: Value): Option<string>
  {
    if j.Words? && Strip(j.s) != "" then Some(Strip(j.s)) else None
  }

  function ValidateTrigger(kind: string, config: map<string, Value>): Option<Trigger>
  {
    if kind == "once_at" then
      var raw := PositiveInt(config, "run_at_ms");
      if raw.Some? then Some(OnceAt(raw.value)) else None
    else if kind == "delay" then
      var raw := PositiveInt(config, "delay_ms");
      if raw.Some? then Some(Delay(raw.value)) else None
    else if kind == "recurring_interval" then
      var raw := PositiveInt(config, "interval_ms");
      if raw.Some? then Some(RecurringInterval(raw.value)) else None
    else if kind == "recurring_cron" then
      if config.Keys == {"cron"} && NonEmpty(config["cron"]).Some? then
        Some(RecurringCron(NonEmpty(config["cron"]).value))
      else None
    else if kind == "watch_path" then
      if config.Keys <= {"path", "event"} && "path" in config && NonEmpty(config["path"]).Some? then
        var given := if "event" in config then NonEmpty(config["event"]) else None;
        var event := if given.Some? then given.value else "created";
        if event in {"created", "modified", "deleted"} then
          Some(WatchPath(NonEmpty(config["path"]).value, event))
        else None
      else None
    else None
  }

  function CleanRefs(refs: seq<string>): Option<seq<string>>
  {
    if refs == [] then Some([])
    else
      var rest := CleanRefs(refs[1..]);
      if Strip(refs[0]) == "" || rest.None? then None else Some([Strip(refs[0])] + rest.value)
  }

  predicate PositiveWhenSet(t: Option<int>)
  {
    t.Some? ==> t.value > 0
  }

  /** `payloadOk` stands for the validation of the payload template as a queue request. */
  function Validate(r: Record, payloadOk: string -> bool): Option<Definition>
  {
    var trigger := ValidateTrigger(r.kind, r.config);
    var refs := CleanRefs(r.runHistoryRefs);
    if && LegalId(Strip(r.id)) && Strip(r.title) != ""
       && r.createdAtMs > 0 && r.updatedAtMs > 0 && PositiveWhenSet(r.lastRunAtMs) && PositiveWhenSet(r.nextRunAtMs)
       && (r.lastJobRef.Some? ==> Strip(r.lastJobRef.value) != "")
       && refs.Some? && trigger.Some? && payloadOk(r.payload)
       && r.updatedAtMs >= r.createdAtMs
       && r.policyPosture in {"standard", "strict_review"} && r.createdFrom in {"vera", "panel", "cli"}
    then
      Some(Definition(Strip(r.id), Strip(r.title), Strip(r.description), r.enabled, trigger.value, r.payload,
                      r.createdAtMs, r.updatedAtMs, r.lastRunAtMs, r.nextRunAtMs,
                      if r.lastJobRef.Some? then Some(Strip(r.lastJobRef.value)) else None,
                      refs.value, r.policyPosture, r.createdFrom))
    else None
  }

  // ----- what validation leaves unchanged

  predicate ValidTrigger(t: Trigger)
  {
    match t
    case OnceAt(n) => n > 0
    case Delay(n) => n > 0
    case RecurringInterval(n) => n > 0
    case RecurringCron(cron) => cron != "" && Trimmed(cron)
    case WatchPath(path, event) => path != "" && Trimmed(path) && event in {"created", "modified", "deleted"}
  }

  predicate CleanRef(s: string)
  {
    s != "" && Trimmed(s)
  }

  predicate Valid(d: Definition, payloadOk: string -> bool)
  {
    && LegalId(d.id) && CleanRef(d.title) && Trimmed(d.description)
    && ValidTrigger(d.trigger) && payloadOk(d.payload)
    && 0 < d.createdAtMs <= d.updatedAtMs && PositiveWhenSet(d.lastRunAtMs) && PositiveWhenSet(d.nextRunAtMs)
    && (d.lastJobRef.Some? ==> CleanRef(d.lastJobRef.value))
    && (forall i :: 0 <= i < |d.runHistoryRefs| ==> CleanRef(d.runHistoryRefs[i]))
    && d.policyPosture in {"standard", "strict_review"} && d.createdFrom in {"vera", "panel", "cli"}
  }

  function KindOf(t: Trigger): string
  {
    match t
    case OnceAt(_) => "once_at"
    case Delay(_) => "delay"
    case RecurringInterval(_) => "recurring_interval"
    case RecurringCron(_) => "recurring_cron"
    case WatchPath(_, _) => "watch_path"
  }

  function ConfigOf(t: Trigger): map<string, Value>
  {
    match t
    case OnceAt(n) => map["run_at_ms" := Int(n)]
    case Delay(n) => map["delay_ms" := Int(n)]
    case RecurringInterval(n) => map["interval_ms" := Int(n)]
    case RecurringCron(cron) => map["cron" := Words(cron)]
    case WatchPath(path, event) => map["path" := Words(path), "event" := Words(event)]
  }

  function Dump(d: Definition): Record
  {
    Record(d.id, d.title, d.description, d.enabled, KindOf(d.trigger), ConfigOf(d.trigger), d.payload,
           d.createdAtMs, d.updatedAtMs, d.lastRunAtMs, d.nextRunAtMs, d.lastJobRef, d.runHistoryRefs,
           d.policyPosture, d.createdFrom)
  }

  lemma TrimmedPieces(s: string)
    ensures Trimmed(Strip(s))
    ensures Trimmed(s) ==> Strip(s) == s
  {
    StripTrims(s);
  }

  lemma {:induction false} CleanRefsAreClean(refs: seq<string>)
    ensures var r := CleanRefs(refs);
            r.Some? ==> |r.value| == |refs| && forall i :: 0 <= i < |refs| ==> CleanRef(r.value[i])
    ensures (forall i :: 0 <= i < |refs| ==> CleanRef(refs[i])) ==> CleanRefs(refs) == Some(refs)
  {
    if refs != [] {
      CleanRefsAreClean(refs[1..]);
      TrimmedPieces(refs[0]);
      if forall i :: 0 <= i < |refs| ==> CleanRef(refs[i]) {
        forall i | 0 <= i < |refs[1..]| ensures CleanRef(refs[1..][i]) {
          assert refs[1..][i] == refs[i + 1];
        }
        assert CleanRef(refs[0]);
        assert refs == [refs[0]] + refs[1..];
      }
    }
  }

  lemma TriggerSurvives(t: Trigger)
    requires ValidTrigger(t)
    ensures ValidateTrigger(KindOf(t), ConfigOf(t)) == Some(t)
  {
    match t
    case RecurringCron(cron) => TrimmedPieces(cron);
    case WatchPath(path, event) =>
      TrimmedPieces(path);
      TrimmedPieces(event);
      assert ConfigOf(t).Keys == {"path", "event"};
    case _ =>
  }

  /** Loading yields a valid definition, and a valid definition is what its file loads as. */
  lemma ValidationIsProjection(r: Record, payloadOk: string -> bool)
    ensures Validate(r, payloadOk).Some? ==> Valid(Validate(r, payloadOk).value, payloadOk)
  {
    var v := Validate(r, payloadOk);
    if v.Some? {
      TrimmedPieces(r.title);
      TrimmedPieces(r.description);
      if r.lastJobRef.Some? { TrimmedPieces(r.lastJobRef.value); }
      CleanRefsAreClean(r.runHistoryRefs);
      if r.kind == "recurring_cron" { TrimmedPieces(r.config["cron"].s); }
      if r.kind == "watch_path" { TrimmedPieces(r.config["path"].s); }
    }
  }

  lemma ValidDefinitionSurvives(d: Definition, payloadOk: string -> bool)
    requires Valid(d, payloadOk)
    ensures Validate(Dump(d), payloadOk) == Some(d)
  {
    TrimmedPieces(d.title);
    TrimmedPieces(d.description);
    if d.lastJobRef.Some? { TrimmedPieces(d.lastJobRef.value); }
    CleanRefsAreClean(d.runHistoryRefs);
    TriggerSurvives(d.trigger);
  }

  /** A watch on a path is for new entries unless it says otherwise; times that are set are after zero. */
  lemma WhatValidationFillsInAndRefuses(path: string, r: Record, payloadOk: string -> bool)
    ensures Strip(path) != "" ==>
              ValidateTrigger("watch_path", map["path" := Words(path)]) == Some(WatchPath(Strip(path), "created"))
    ensures r.lastRunAtMs == Some(0) || r.nextRunAtMs == Some(0) ==> Validate(r, payloadOk).None?
    ensures Strip(r.id) != [] && Strip(r.id)[0] in ['-', '_'] ==> Validate(r, payloadOk).None?
  {
    hide Strip;
  }

  // ----- saving

  /** The new stamp never goes back; a given time must be positive. `clock` is read when none is given. */
  function TouchUpdated(d: Definition, now: Option<int>, clock: int): Option<Definition>
  {
    if now.Some? && now.value <= 0 then None
    else
      var stamp := if now.Some? then now.value else clock;
      Some(d.(updatedAtMs := Max(stamp, Max(d.createdAtMs, d.updatedAtMs))))
  }

  /** Whatever the clock says, touching never lowers the update time of the copy at hand, and keeps it valid. */
  lemma TouchNeverGoesBack(d: Definition, now: Option<int>, clock: int, payloadOk: string -> bool)
    ensures TouchUpdated(d, now, clock).None? <==> now.Some? && now.value <= 0
    ensures TouchUpdated(d, now, clock).Some? ==>
            var t := TouchUpdated(d, now, clock).value;
            && t.updatedAtMs >= d.updatedAtMs && t.updatedAtMs >= t.createdAtMs == d.createdAtMs
            && (now.Some? ==> t.updatedAtMs >= now.value)
            && (Valid(d, payloadOk) ==> Valid(t, payloadOk))
  {
  }

  // ----- listing

  /** The definitions in the files of these names; a file that fails validation is skipped. */
  function Collected(files: map<string, Record>, names: seq<string>, payloadOk: string -> bool): seq<Definition>
    requires forall n :: n in names ==> n in files
  {
    if names == [] then []
    else
      var n := |names| - 1;
      var front := Collected(files, names[..n], payloadOk);
      var d := Validate(files[names[n]], payloadOk);
      if d.Some? then front + [d.value] else front
  }

  predicate ById(a: Definition, b: Definition)
  {
    LexLeq(a.id, b.id)
  }

  /** Each file's definition has the file's name as its id, as saving leaves it. */
  ghost predicate Filed(files: map<string, Record>, payloadOk: string -> bool)
  {
    forall n :: n in files ==> var d := Validate(files[n], payloadOk); d.Some? ==> d.value.id == n
  }

  /** A sorted directory listing. */
  ghost predicate Lists(names: seq<string>, files: map<string, Record>)
  {
    && (forall n :: n in names <==> n in files)
    && (forall j, k :: 0 <= j < k < |names| ==> LexLeq(names[j], names[k]) && names[j] != names[k])
  }

  predicate ReadFrom(files: map<string, Record>, n: string, d: Definition, payloadOk: string -> bool)
  {
    n in files && Validate(files[n], payloadOk) == Some(d)
  }

  lemma {:induction false} CollectedLaws(files: map<string, Record>, names: seq<string>, payloadOk: string -> bool)
    requires Filed(files, payloadOk)
    requires forall n :: n in names ==> n in files
    requires forall j, k :: 0 <= j < k < |names| ==> LexLeq(names[j], names[k]) && names[j] != names[k]
    ensures var ds := Collected(files, names, payloadOk);
            && (forall d :: d in ds <==> d.id in names && ReadFrom(files, d.id, d, payloadOk))
            && (forall j, k :: 0 <= j < k < |ds| ==> ById(ds[j], ds[k]) && ds[j].id != ds[k].id)
  {
    hide Validate;
    if names != [] {
      var n := |names| - 1;
      CollectedLaws(files, names[..n], payloadOk);
      assert names == names[..n] + [names[n]];
      forall x | x in names[..n] ensures LexLeq(x, names[n]) && x != names[n] {
      }
    }
  }

  lemma {:induction false} SortingSortedChangesNothing(ds: seq<Definition>)
    requires forall j, k :: 0 <= j < k < |ds| ==> ById(ds[j], ds[k])
    ensures SortBy(ds, ById) == ds
  {
    if ds != [] {
      SortingSortedChangesNothing(ds[1..]);
      assert |ds| > 1 ==> ById(ds[0], ds[1]);
      assert ds == [ds[0]] + ds[1..];
    }
  }

  lemma {:induction false} CollectedMembers(files: map<string, Record>, names: seq<string>, payloadOk: string -> bool,
                                            d: Definition)
    requires forall n :: n in names ==> n in files
    ensures d in Collected(files, names, payloadOk) <==> exists n :: n in names && ReadFrom(files, n, d, payloadOk)
  {
    hide Validate;
    if names != [] {
      var n := |names| - 1;
      var front, last := names[..n], names[n];
      CollectedMembers(files, front, payloadOk, d);
      assert d in Collected(files, names, payloadOk) <==>
             d in Collected(files, front, payloadOk) || ReadFrom(files, last, d, payloadOk);
      hide Collected, ReadFrom;
      forall x ensures x in names <==> x in front || x == last {
        assert names == front + [last];
      }
    }
  }

  /** The listing has one entry for each file that validates, whatever the files are called, in ascending order of ids. */
  lemma ListingIsExact(files: map<string, Record>, names: seq<string>, payloadOk: string -> bool)
    requires Lists(names, files)
    ensures var ds := Listed(files, names, payloadOk);
            && SortedBy(ds, ById)
            && multiset(ds) == multiset(Collected(files, names, payloadOk))
            && (forall d :: d in ds <==> exists n :: ReadFrom(files, n, d, payloadOk))
  {
    hide Validate;
    var collected := Collected(files, names, payloadOk);
    KeysOrder((d: Definition) => d.id, ById);
    SortIsOrderedPermutation(collected, ById);
    forall d ensures d in SortBy(collected, ById) <==> exists n :: ReadFrom(files, n, d, payloadOk) {
      CollectedMembers(files, names, payloadOk, d);
      assert d in SortBy(collected, ById) <==> d in multiset(SortBy(collected, ById));
      assert d in collected <==> d in multiset(collected);
    }
  }

  /** With every file named after its definition's id, no id is listed twice. */
  lemma FiledDefinitionsAreListedOnce(files: map<string, Record>, names: seq<string>, payloadOk: string -> bool)
    requires Lists(names, files) && Filed(files, payloadOk)
    ensures var ds := Listed(files, names, payloadOk);
            && (forall d :: d in ds <==> ReadFrom(files, d.id, d, payloadOk))
            && (forall j, k :: 0 <= j < k < |ds| ==> ById(ds[j], ds[k]) && ds[j].id != ds[k].id)
  {
    hide Validate;
    CollectedLaws(files, names, payloadOk);
    SortingSortedChangesNothing(Collected(files, names, payloadOk));
  }

  function Listed(files: map<string, Record>, names: seq<string>, payloadOk: string -> bool): seq<Definition>
    requires Lists(names, files)
  {
    SortBy(Collected(files, names, payloadOk), ById)
  }

  /** `names` is the directory listing; the best-effort mode that the runner uses. */
  method ListAutomationDefinitions(files: map<string, Record>, names: seq<string>, payloadOk: string -> bool)
    returns (ds: seq<Definition>)
    requires Lists(names, files)
    ensures ds == Listed(files, names, payloadOk)
  {
    hide Validate;
    ds := [];
    for i := 0 to |names|
      invariant ds == Collected(files, names[..i], payloadOk)
    {
      assert names[..i + 1][..i] == names[..i];
      var d := Validate(files[names[i]], payloadOk);
      if d.Some? {
        ds := ds + [d.value];
      }
    }
    assert names[..|names|] == names;
    ds := SortBy(ds, ById);
  }

  /** The definitions directory. */
  class DefinitionStore {
    var files: map<string, Record>

    constructor ()
      ensures files == map[]
    {
      files := map[];
    }

    /** `writable` says whether writing the file succeeds; the write is atomic. */
    method Save(d: Definition, now: Option<int>, clock: int, writable: bool) returns (ok: bool)
      modifies this
      ensures ok <==> writable && TouchUpdated(d, now, clock).Some?
      ensures files == if ok then old(files)[d.id := Dump(TouchUpdated(d, now, clock).value)] else old(files)
    {
      var touched := TouchUpdated(d, now, clock);
      if touched.None? || !writable {
        return false;
      }
      files := files[d.id := Dump(touched.value)];
      return true;
    }

    method Load(id: string, payloadOk: string -> bool) returns (r: Option<Definition>)
      ensures r == if LegalId(Strip(id)) && Strip(id) in files then Validate(files[Strip(id)], payloadOk) else None
    {
      var key := Strip(id);
      if !LegalId(key) || key !in files {
        return None;
      }
      return Validate(files[key], payloadOk);
    }

    method List(names: seq<string>, payloadOk: string -> bool) returns (ds: seq<Definition>)
      requires Lists(names, files)
      ensures ds == Listed(files, names, payloadOk)
    {
      ds := ListAutomationDefinitions(files, names, payloadOk);
    }
  }
}
