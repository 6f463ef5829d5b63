/**
 Interleaved runner passes: open, try the lock, load, emit, record, save, release, crash
 (src/voxera/automation/runner.py, src/voxera/automation/lock.py).
 */
module RunnerPasses {
  import opened AutomationModels
  import opened AutomationRunner
  import opened Wrappers

  /** Where a process stands in a locked pass; `i` is the definition it is at. */
  datatype Pc =
    | Idle
    | Opened
    | Holding
    | Walking(snapshot: seq<Definition>, i: nat, now: int)
    | Emitted(snapshot: seq<Definition>, i: nat, now: int)
    | Recorded(snapshot: seq<Definition>, i: nat, now: int)
    | Leaving
  {
    predicate Critical()
    {
      !Idle? && !Opened?
    }

    predicate InFlight()
    {
      Emitted? || Recorded?
    }
  }

  datatype Event = Fired(id: string, forced: bool) | Completed(id: string, forced: bool) | Lost(id: string, forced: bool)

  /** `lock` is the process whose descriptor holds the exclusive lock. */
  datatype System = System(procs: map<nat, Pc>, lock: Option<nat>, disk: map<string, Definition>, log: seq<Event>)
  {
    function At(p: nat): Pc
    {
      if p in procs then procs[p] else Idle
    }

    function Go(p: nat, pc: Pc): System
    {
      this.(procs := procs[p := pc])
    }

    function Note(e: Event): System
    {
      this.(log := log + [e])
    }

    function Put(d: Definition): System
    {
      this.(disk := disk[d.id := d])
    }
  }

  datatype Action =
    | Open(p: nat)
    | TryLock(p: nat)
    | LoadAll(p: nat, snapshot: seq<Definition>, now: int)
    | Skip(p: nat)
    | Emit(p: nat, ok: bool, raises: bool)
    | WriteHistory(p: nat, ok: bool)
    | SaveDefinition(p: nat, digest: string, ok: bool, raises: bool)
    | EndWalk(p: nat)
    | Release(p: nat)
    | Crash(p: nat)
    | Toggle(id: string, on: bool, clock: int)
    | FireOnce(id: string, forced: bool, now: int, digest: string, ok: bool)
    | Remove(id: string)

  /** Valid files only, one entry an id, in ascending order (so no id twice). */
  ghost predicate Listing(disk: map<string, Definition>, ds: seq<Definition>)
  {
    && (forall k :: 0 <= k < |ds| ==> ds[k].id in disk && disk[ds[k].id] == ds[k])
    && (forall j, k :: 0 <= j < k < |ds| ==> ds[j].id != ds[k].id)
  }

  ghost function Act(s: System, a: Action): System
  {
    match a
    case Open(p) => if s.At(p).Idle? then s.Go(p, Opened) else s
    case TryLock(p) =>
      if !s.At(p).Opened? then s
      else if s.lock.None? then s.Go(p, Holding).(lock := Some(p))
      else s.Go(p, Idle)
    case LoadAll(p, snapshot, now) =>
      if s.At(p).Holding? && Listing(s.disk, snapshot) then s.Go(p, Walking(snapshot, 0, now)) else s
    case Skip(p) =>
      (match s.At(p)
       case Walking(ds, i, now) =>
         if i < |ds| && Evaluate(ds[i], now, false) != Due then s.Go(p, Walking(ds, i + 1, now)) else s
       case _ => s)
    case Emit(p, ok, raises) =>
      (match s.At(p)
       case Walking(ds, i, now) =>
         if i < |ds| && Evaluate(ds[i], now, false) == Due then
           if ok then s.Go(p, Emitted(ds, i, now)).Note(Fired(ds[i].id, false))
           else if raises then s.Go(p, Leaving)
           else s.Go(p, Walking(ds, i + 1, now))
         else s
       case _ => s)
    case WriteHistory(p, ok) =>
      (match s.At(p)
       case Emitted(ds, i, now) =>
         if i >= |ds| then s
         else if ok then s.Go(p, Recorded(ds, i, now))
         else s.Go(p, Leaving).Note(Lost(ds[i].id, false))
       case _ => s)
    case SaveDefinition(p, digest, ok, raises) =>
      (match s.At(p)
       case Recorded(ds, i, now) =>
         if i >= |ds| then s
         else if ok && now > 0 then
           s.Go(p, Walking(ds, i + 1, now)).Put(Saved(ds[i], now, digest)).Note(Completed(ds[i].id, false))
         else s.Go(p, if raises then Leaving else Walking(ds, i + 1, now)).Note(Lost(ds[i].id, false))
       case _ => s)
    case EndWalk(p) =>
      (match s.At(p)
       case Walking(ds, i, _) => if i >= |ds| then s.Go(p, Leaving) else s
       case _ => s)
    case Release(p) => if s.At(p).Leaving? then s.Go(p, Idle).(lock := None) else s
    case Crash(p) =>
      var pc := s.At(p);
      var t := s.Go(p, Idle).(lock := if s.lock == Some(p) then None else s.lock);
      if pc.InFlight() && pc.i < |pc.snapshot| then t.Note(Lost(pc.snapshot[pc.i].id, false)) else t
    case Toggle(id, on, clock) =>
      if id in s.disk && s.disk[id].enabled != on
      then s.Put(TouchUpdated(s.disk[id].(enabled := on), None, clock).value)
      else s
    case FireOnce(id, forced, now, digest, ok) =>
      if id in s.disk && Evaluate(s.disk[id], now, forced) == Due then
        if ok && now > 0 then
          s.Put(Saved(s.disk[id], now, digest)).Note(Fired(id, forced)).Note(Completed(id, forced))
        else s.Note(Fired(id, forced)).Note(Lost(id, forced))
      else s
    case Remove(id) => s.(disk := s.disk - {id})
  }

  ghost function Run(s: System, actions: seq<Action>): System
    decreases |actions|
  {
    if actions == [] then s else Run(Act(s, actions[0]), actions[1..])
  }

  // ----- counting fires

  function Count(log: seq<Event>, e: Event): nat
  {
    if log == [] then 0 else Count(log[..|log| - 1], e) + if log[|log| - 1] == e then 1 else 0
  }

  // ----- the invariant

  ghost predicate MutualExclusion(s: System)
  {
    forall p: nat :: s.At(p).Critical() ==> s.lock == Some(p)
  }

  /** A one-shot definition with a positive stamp, as the store's validation demands; it is due at positive times only. */
  predicate Stamped(d: Definition)
  {
    OneShot(d.trigger) && d.createdAtMs > 0
  }

  predicate HasSnapshot(pc: Pc)
  {
    pc.Walking? || pc.InFlight()
  }

  /** The definition a process is about to record or save is `id`. */
  predicate Firing(pc: Pc, id: string)
  {
    pc.InFlight() && pc.i < |pc.snapshot| && pc.snapshot[pc.i].id == id
  }

  predicate OwesAt(pc: Pc, id: string, k: nat)
  {
    && HasSnapshot(pc) && pc.i <= k < |pc.snapshot|
    && pc.snapshot[k].id == id && Evaluate(pc.snapshot[k], pc.now, false) == Due
  }

  /** The process still has a copy of `id` to fire, from before it last looked at the disk. */
  ghost predicate Owes(pc: Pc, id: string)
  {
    exists k: nat :: OwesAt(pc, id, k)
  }

  ghost predicate PcOk(pc: Pc, id: string)
  {
    HasSnapshot(pc) ==>
      && (forall k :: 0 <= k < |pc.snapshot| && pc.snapshot[k].id == id ==> Stamped(pc.snapshot[k]))
      && (forall j, k :: 0 <= j < k < |pc.snapshot| ==> pc.snapshot[j].id != pc.snapshot[k].id)
      && (pc.InFlight() ==> pc.i < |pc.snapshot| && Evaluate(pc.snapshot[pc.i], pc.now, false) == Due)
  }

  ghost predicate DiskOk(s: System, id: string)
  {
    && (forall x :: x in s.disk ==> s.disk[x].id == x)
    && (id in s.disk ==> Stamped(s.disk[id]))
    && (id in s.disk && Done(s, id) > 0 ==> s.disk[id].lastRunAtMs.Some?)
  }

  /** Unforced fires of `id` whose definition was saved. */
  function Done(s: System, id: string): nat
  {
    Count(s.log, Completed(id, false))
  }

  ghost predicate CountsOk(s: System, id: string)
  {
    && Done(s, id) <= 1
    && Count(s.log, Fired(id, false)) == Done(s, id) + Count(s.log, Lost(id, false)) + InFlightNow(s, id)
  }

  /** Only the lock holder can be in the middle of a fire. */
  function InFlightNow(s: System, id: string): nat
  {
    if s.lock.Some? && Firing(s.At(s.lock.value), id) then 1 else 0
  }

  ghost predicate Inv(s: System, id: string)
  {
    && MutualExclusion(s)
    && DiskOk(s, id)
    && CountsOk(s, id)
    && (forall p: nat :: PcOk(s.At(p), id))
    && (forall p: nat :: Owes(s.At(p), id) ==> Done(s, id) == 0)
  }

  /** An unlocked, unforced fire of `id` comes while no process owes one. */
  ghost predicate Quiet(s: System, a: Action, id: string)
  {
    a.FireOnce? && a.id == id && !a.forced ==> forall p: nat :: !Owes(s.At(p), id)
  }

  // ----- every step keeps the invariant

  /** A move of the process `p` that leaves the log, the disk and the lock alone. */
  lemma MoveKeeps(s: System, p: nat, pc: Pc, id: string)
    requires Inv(s, id)
    requires PcOk(pc, id) && (Owes(pc, id) ==> Done(s, id) == 0)
    requires pc.Critical() ==> s.At(p).Critical()
    requires Firing(pc, id) == Firing(s.At(p), id)
    ensures Inv(s.Go(p, pc), id)
  {
    var t := s.Go(p, pc);
    forall q: nat ensures t.At(q) == if q == p then pc else s.At(q) {
    }
    assert forall q: nat :: PcOk(t.At(q), id);
  }

  lemma TryLockKeeps(s: System, p: nat, id: string)
    requires Inv(s, id)
    ensures Inv(Act(s, TryLock(p)), id)
  {
    hide Count, Evaluate;
    var t := Act(s, TryLock(p));
    forall q: nat ensures t.At(q) == s.At(q) || t.At(q) in {Idle, Holding} {
    }
  }

  lemma LoadKeeps(s: System, p: nat, snapshot: seq<Definition>, now: int, id: string)
    requires Inv(s, id)
    ensures Inv(Act(s, LoadAll(p, snapshot, now)), id)
  {
    if s.At(p).Holding? && Listing(s.disk, snapshot) {
      MoveKeeps(s, p, Walking(snapshot, 0, now), id);
    }
  }

  lemma Advance(ds: seq<Definition>, i: nat, now: int, pc: Pc, id: string)
    requires i < |ds| && HasSnapshot(pc) && pc.snapshot == ds && pc.i == i && pc.now == now
    ensures Owes(Walking(ds, i + 1, now), id) ==> Owes(pc, id)
    ensures PcOk(pc, id) ==> PcOk(Walking(ds, i + 1, now), id)
    ensures PcOk(pc, id) && ds[i].id == id ==> !Owes(Walking(ds, i + 1, now), id)
  {
    var next := Walking(ds, i + 1, now);
    if Owes(next, id) {
      var k: nat :| OwesAt(next, id, k);
      assert OwesAt(pc, id, k);
    }
  }

  lemma SkipKeeps(s: System, p: nat, id: string)
    requires Inv(s, id)
    ensures Inv(Act(s, Skip(p)), id)
  {
    var pc := s.At(p);
    if pc.Walking? && pc.i < |pc.snapshot| {
      Advance(pc.snapshot, pc.i, pc.now, pc, id);
      MoveKeeps(s, p, Walking(pc.snapshot, pc.i + 1, pc.now), id);
    }
  }

  lemma EmittedKeeps(s: System, p: nat, id: string)
    requires Inv(s, id) && s.At(p).Walking? && s.At(p).i < |s.At(p).snapshot|
    requires Evaluate(s.At(p).snapshot[s.At(p).i], s.At(p).now, false) == Due
    ensures Inv(Act(s, Emit(p, true, false)), id)
  {
    hide Count, Evaluate;
    var pc := s.At(p);
    var next := Emitted(pc.snapshot, pc.i, pc.now);
    var e := Fired(pc.snapshot[pc.i].id, false);
    NoteCounts(s.Go(p, next), e, id);
    if Owes(next, id) {
      var k: nat :| OwesAt(next, id, k);
      assert OwesAt(pc, id, k);
    }
    var t := s.Go(p, next).Note(e);
    forall q: nat ensures t.At(q) == if q == p then next else s.At(q) {
    }
  }

  lemma EmitKeeps(s: System, p: nat, ok: bool, raises: bool, id: string)
    requires Inv(s, id)
    ensures Inv(Act(s, Emit(p, ok, raises)), id)
  {
    hide Count, Evaluate, MutualExclusion, DiskOk, CountsOk;
    var pc := s.At(p);
    if pc.Walking? && pc.i < |pc.snapshot| && Evaluate(pc.snapshot[pc.i], pc.now, false) == Due {
      if ok {
        EmittedKeeps(s, p, id);
      } else {
        Advance(pc.snapshot, pc.i, pc.now, pc, id);
        MoveKeeps(s, p, if raises then Leaving else Walking(pc.snapshot, pc.i + 1, pc.now), id);
      }
    }
  }

  lemma NoteCounts(s: System, e: Event, id: string)
    ensures Done(s.Note(e), id) == Done(s, id) + if e == Completed(id, false) then 1 else 0
    ensures Count(s.Note(e).log, Fired(id, false)) == Count(s.log, Fired(id, false)) + if e == Fired(id, false) then 1 else 0
    ensures Count(s.Note(e).log, Lost(id, false)) == Count(s.log, Lost(id, false)) + if e == Lost(id, false) then 1 else 0
  {
  }

  lemma WriteHistoryKeeps(s: System, p: nat, ok: bool, id: string)
    requires Inv(s, id)
    ensures Inv(Act(s, WriteHistory(p, ok)), id)
  {
    hide Count, Evaluate;
    var pc := s.At(p);
    if pc.Emitted? {
      if ok {
        var next := Recorded(pc.snapshot, pc.i, pc.now);
        if Owes(next, id) {
          var k: nat :| OwesAt(next, id, k);
          assert OwesAt(pc, id, k);
        }
        MoveKeeps(s, p, next, id);
      } else {
        GiveUpKeeps(s, p, Leaving, id);
      }
    }
  }

  /** A fire that is not saved: the process goes on, and the fire is counted as lost. */
  lemma GiveUpKeeps(s: System, p: nat, next: Pc, id: string)
    requires Inv(s, id) && s.At(p).InFlight()
    requires !next.InFlight() && PcOk(next, id) && (Owes(next, id) ==> Owes(s.At(p), id))
    requires next.Critical() || s.lock == Some(p)
    ensures Inv(s.Go(p, next).Note(Lost(s.At(p).snapshot[s.At(p).i].id, false)), id)
  {
    hide Count, Evaluate;
    var e := Lost(s.At(p).snapshot[s.At(p).i].id, false);
    NoteCounts(s.Go(p, next), e, id);
    var t := s.Go(p, next).Note(e);
    forall q: nat ensures t.At(q) == if q == p then next else s.At(q) {
    }
  }

  lemma SaveKeeps(s: System, p: nat, digest: string, ok: bool, raises: bool, id: string)
    requires Inv(s, id)
    ensures Inv(Act(s, SaveDefinition(p, digest, ok, raises)), id)
  {
    hide Count, Evaluate, Saved, MutualExclusion, DiskOk, CountsOk;
    var pc := s.At(p);
    if pc.Recorded? {
      var next := Walking(pc.snapshot, pc.i + 1, pc.now);
      Advance(pc.snapshot, pc.i, pc.now, pc, id);
      if ok && pc.now > 0 {
        SavedKeeps(s, p, digest, id);
      } else {
        GiveUpKeeps(s, p, if raises then Leaving else next, id);
      }
    }
  }

  lemma SavedFields(d: Definition, now: int, digest: string)
    ensures var f := Saved(d, now, digest);
            && f.id == d.id && f.trigger == d.trigger && f.createdAtMs == d.createdAtMs
            && f.lastRunAtMs == Some(now) && Stamped(f) == Stamped(d)
  {
  }

  lemma PutKeepsDisk(s: System, d: Definition, t: System, id: string)
    requires forall x :: x in s.disk ==> s.disk[x].id == x
    requires id in s.disk ==> Stamped(s.disk[id])
    requires d.id == id ==> Stamped(d) && d.lastRunAtMs.Some?
    requires id in s.disk && d.id != id && Done(t, id) > 0 ==> s.disk[id].lastRunAtMs.Some?
    requires t.disk == s.disk[d.id := d]
    ensures DiskOk(t, id)
  {
  }

  /** Only the lock holder owes anything. */
  lemma OthersOweNothing(s: System, p: nat, q: nat, id: string)
    requires MutualExclusion(s) && s.At(p).Critical() && q != p
    ensures !Owes(s.At(q), id)
  {
  }

  lemma SavedKeeps(s: System, p: nat, digest: string, id: string)
    requires Inv(s, id) && s.At(p).Recorded? && s.At(p).now > 0
    ensures Inv(Act(s, SaveDefinition(p, digest, true, false)), id)
  {
    hide Count, Evaluate, Saved, Stamped, Owes, Done;
    var pc := s.At(p);
    var d := pc.snapshot[pc.i];
    var f := Saved(d, pc.now, digest);
    var next := Walking(pc.snapshot, pc.i + 1, pc.now);
    Advance(pc.snapshot, pc.i, pc.now, pc, id);
    SavedFields(d, pc.now, digest);
    var u := s.Go(p, next).Put(f);
    var t := u.Note(Completed(d.id, false));
    NoteCounts(u, Completed(d.id, false), id);
    SameLog(s, u, id);
    if d.id == id {
      OwesWhenInFlight(pc, id);
    }
    PutKeepsDisk(s, f, t, id);
    forall q: nat ensures t.At(q) == if q == p then next else s.At(q) {
    }
    forall q: nat | Owes(t.At(q), id) ensures Done(t, id) == 0 {
      if q != p { OthersOweNothing(s, p, q, id); }
    }
  }

  lemma SameLog(s: System, t: System, id: string)
    requires s.log == t.log
    ensures Done(s, id) == Done(t, id)
  {
  }

  lemma OwesWhenInFlight(pc: Pc, id: string)
    requires pc.InFlight() && pc.i < |pc.snapshot| && pc.snapshot[pc.i].id == id
    requires Evaluate(pc.snapshot[pc.i], pc.now, false) == Due
    ensures Owes(pc, id)
  {
    assert OwesAt(pc, id, pc.i);
  }

  lemma LeaveKeeps(s: System, p: nat, id: string)
    requires Inv(s, id)
    ensures Inv(Act(s, EndWalk(p)), id) && Inv(Act(s, Release(p)), id) && Inv(Act(s, Open(p)), id)
  {
    hide Count, Evaluate;
    if s.At(p).Walking? {
      MoveKeeps(s, p, Leaving, id);
    }
    if s.At(p).Idle? {
      MoveKeeps(s, p, Opened, id);
    }
    if s.At(p).Leaving? {
      UnlockKeeps(s, p, id);
    }
  }

  /** The process leaves and, if it held the lock, the lock is free. */
  lemma UnlockKeeps(s: System, p: nat, id: string)
    requires Inv(s, id) && !s.At(p).InFlight()
    ensures Inv(s.Go(p, Idle).(lock := if s.lock == Some(p) then None else s.lock), id)
  {
    hide Count, Evaluate;
    var t := s.Go(p, Idle).(lock := if s.lock == Some(p) then None else s.lock);
    forall q: nat ensures t.At(q) == if q == p then Idle else s.At(q) {
    }
  }

  lemma CrashKeeps(s: System, p: nat, id: string)
    requires Inv(s, id)
    ensures Inv(Act(s, Crash(p)), id)
  {
    hide Count, Evaluate;
    var pc := s.At(p);
    if pc.InFlight() {
      var e := Lost(pc.snapshot[pc.i].id, false);
      GiveUpKeeps(s, p, Leaving, id);
      var u := s.Go(p, Leaving).Note(e);
      UnlockKeeps(u, p, id);
      assert u.Go(p, Idle).procs == s.Go(p, Idle).procs;
    } else {
      UnlockKeeps(s, p, id);
    }
  }

  lemma SwitchKeeps(s: System, x: string, on: bool, clock: int, id: string)
    requires Inv(s, id)
    ensures Inv(Act(s, Toggle(x, on, clock)), id)
    ensures Inv(Act(s, Remove(x)), id)
  {
    hide Count, Evaluate;
    var t, u := Act(s, Toggle(x, on, clock)), Act(s, Remove(x));
    forall q: nat ensures t.At(q) == s.At(q) && u.At(q) == s.At(q) {
    }
  }

  lemma FireKeeps(s: System, x: string, forced: bool, now: int, digest: string, ok: bool, id: string)
    requires Inv(s, id) && Quiet(s, FireOnce(x, forced, now, digest, ok), id)
    ensures Inv(Act(s, FireOnce(x, forced, now, digest, ok)), id)
  {
    hide Count, Saved, Owes, Done;
    if x in s.disk && Evaluate(s.disk[x], now, forced) == Due {
      var t := Act(s, FireOnce(x, forced, now, digest, ok));
      forall q: nat ensures t.At(q) == s.At(q) {
      }
      if ok && now > 0 {
        var d := Saved(s.disk[x], now, digest);
        var u := s.Put(d);
        SavedFields(s.disk[x], now, digest);
        SameLog(s, u, id);
        NoteCounts(u, Fired(x, forced), id);
        NoteCounts(u.Note(Fired(x, forced)), Completed(x, forced), id);
        PutKeepsDisk(s, d, t, id);
      } else {
        NoteCounts(s, Fired(x, forced), id);
        NoteCounts(s.Note(Fired(x, forced)), Lost(x, forced), id);
      }
    }
  }

  lemma StepKeeps(s: System, a: Action, id: string)
    requires Inv(s, id) && Quiet(s, a, id)
    ensures Inv(Act(s, a), id)
  {
    hide *;
    match a
    case Open(p) => LeaveKeeps(s, p, id);
    case TryLock(p) => TryLockKeeps(s, p, id);
    case LoadAll(p, snapshot, now) => LoadKeeps(s, p, snapshot, now, id);
    case Skip(p) => SkipKeeps(s, p, id);
    case Emit(p, ok, raises) => EmitKeeps(s, p, ok, raises, id);
    case WriteHistory(p, ok) => WriteHistoryKeeps(s, p, ok, id);
    case SaveDefinition(p, digest, ok, raises) => SaveKeeps(s, p, digest, ok, raises, id);
    case EndWalk(p) => LeaveKeeps(s, p, id);
    case Release(p) => LeaveKeeps(s, p, id);
    case Crash(p) => CrashKeeps(s, p, id);
    case Toggle(x, on, clock) => SwitchKeeps(s, x, on, clock, id);
    case FireOnce(x, forced, now, digest, ok) => FireKeeps(s, x, forced, now, digest, ok, id);
    case Remove(x) => SwitchKeeps(s, x, true, 0, id);
  }

  // ----- whole runs

  ghost predicate QuietRun(s: System, actions: seq<Action>, id: string)
    decreases |actions|
  {
    actions != [] ==> Quiet(s, actions[0], id) && QuietRun(Act(s, actions[0]), actions[1..], id)
  }

  lemma {:induction false} RunKeeps(s: System, actions: seq<Action>, id: string)
    requires Inv(s, id) && QuietRun(s, actions, id)
    ensures Inv(Run(s, actions), id)
    decreases |actions|
  {
    if actions != [] {
      StepKeeps(s, actions[0], id);
      RunKeeps(Act(s, actions[0]), actions[1..], id);
    }
  }

  lemma StepKeepsExclusion(s: System, a: Action)
    requires MutualExclusion(s)
    ensures MutualExclusion(Act(s, a))
  {
  }

  lemma {:induction false} RunKeepsExclusion(s: System, actions: seq<Action>)
    requires MutualExclusion(s)
    ensures MutualExclusion(Run(s, actions))
    decreases |actions|
  {
    if actions != [] {
      StepKeepsExclusion(s, actions[0]);
      RunKeepsExclusion(Act(s, actions[0]), actions[1..]);
    }
  }

  /** Nothing has happened yet: no process is in a pass, no fire is logged. */
  ghost predicate Fresh(s: System)
  {
    && s.procs == map[] && s.lock.None? && s.log == []
    && forall x :: x in s.disk ==> s.disk[x].id == x
  }

  /** Under every interleaving, at most one process is between taking the lock and giving it up. */
  lemma AtMostOneCriticalPass(s: System, actions: seq<Action>, p: nat, q: nat)
    requires Fresh(s)
    requires Run(s, actions).At(p).Critical() && Run(s, actions).At(q).Critical()
    ensures p == q
  {
    RunKeepsExclusion(s, actions);
  }

  predicate Locked(actions: seq<Action>, id: string)
  {
    forall k :: 0 <= k < |actions| && actions[k].FireOnce? ==> actions[k].id == id ==> actions[k].forced
  }

  lemma {:induction false} LockedRunsAreQuiet(s: System, actions: seq<Action>, id: string)
    requires Locked(actions, id)
    ensures QuietRun(s, actions, id)
    decreases |actions|
  {
    if actions != [] {
      LockedRunsAreQuiet(Act(s, actions[0]), actions[1..], id);
    }
  }

  /**
   A one-shot automation gets at most one unforced job, plus one for each fire whose follow-up was lost.
   The operator may switch it, force it or remove it in the middle of any pass.
   */
  lemma OneShotFiresOnce(s: System, actions: seq<Action>, id: string)
    requires Fresh(s) && (id in s.disk ==> Stamped(s.disk[id]))
    requires QuietRun(s, actions, id)
    ensures var log := Run(s, actions).log;
            && Count(log, Completed(id, false)) <= 1
            && Count(log, Fired(id, false)) <= 1 + Count(log, Lost(id, false))
  {
    assert forall p: nat :: s.At(p) == Idle;
    RunKeeps(s, actions, id);
    var t := Run(s, actions);
    if InFlightNow(t, id) == 1 {
      OwesWhenInFlight(t.At(t.lock.value), id);
    }
  }

  // ----- the steps of a pass and the method that makes them

  lemma RunAppend(s: System, a: seq<Action>, b: seq<Action>)
    ensures Run(s, a + b) == Run(Run(s, a), b)
    decreases |a|
  {
    if a == [] {
      assert a + b == b;
    } else {
      assert (a + b)[0] == a[0] && (a + b)[1..] == a[1..] + b;
      RunAppend(Act(s, a[0]), a[1..], b);
    }
  }

  lemma OneStep(s: System, a: Action)
    ensures Run(s, [a]) == Act(s, a)
  {
  }

  lemma TwoSteps(s: System, a: Action, b: Action)
    ensures Run(s, [a, b]) == Act(Act(s, a), b)
  {
    assert [a, b][1..] == [b];
    OneStep(Act(s, a), b);
  }

  lemma ThreeSteps(s: System, a: Action, b: Action, c: Action)
    ensures Run(s, [a, b, c]) == Act(Act(Act(s, a), b), c)
  {
    assert [a, b, c][1..] == [b, c];
    TwoSteps(Act(s, a), b, c);
  }

  /** The files of the definitions on the disk. */
  function Dumped(disk: map<string, Definition>): map<string, Record>
  {
    map x | x in disk :: AutomationModels.Dump(disk[x])
  }

  /** The steps that a process makes for one definition under given faults. */
  function StepsFor(p: nat, d: Definition, now: int, digest: string, disk: Disk, faults: Faults): seq<Action>
  {
    if Evaluate(d, now, false) != Due then [Skip(p)]
    else if !Emits(disk, now, digest, faults) then [Emit(p, false, faults.errorHistory)]
    else if faults.history then [Emit(p, true, false), WriteHistory(p, false)]
    else [Emit(p, true, false), WriteHistory(p, true), SaveDefinition(p, digest, !faults.save, faults.errorHistory)]
  }

  /** A fire is logged exactly when a job is emitted, and completed exactly when the method says submitted. */
  function EventsFor(d: Definition, now: int, digest: string, disk: Disk, faults: Faults): seq<Event>
  {
    if Evaluate(d, now, false) != Due || !Emits(disk, now, digest, faults) then []
    else
      [Fired(d.id, false),
       if Process(disk, d, now, false, digest, faults).1.Submitted? then Completed(d.id, false) else Lost(d.id, false)]
  }

  /** What the system shows when the method has left `disk` and returned `r`. */
  ghost predicate Matches(s: System, p: nat, t: System, disk: Disk, r: Result, events: seq<Event>)
  {
    var pc := s.At(p);
    && disk.definitions == Dumped(t.disk) && t.log == s.log + events
    && pc.Walking? && t.At(p) == (if r.Raised? then Leaving else Walking(pc.snapshot, pc.i + 1, pc.now))
  }

  lemma EmitOutcomes(s: System, p: nat, digest: string, disk: Disk, faults: Faults)
    requires s.At(p).Walking? && s.At(p).i < |s.At(p).snapshot| && disk.definitions == Dumped(s.disk)
    requires var d := s.At(p).snapshot[s.At(p).i];
             Evaluate(d, s.At(p).now, false) != Due || !Emits(disk, s.At(p).now, digest, faults)
    ensures var d := s.At(p).snapshot[s.At(p).i];
            var (disk', r) := Process(disk, d, s.At(p).now, false, digest, faults);
            Matches(s, p, Run(s, StepsFor(p, d, s.At(p).now, digest, disk, faults)), disk', r,
                    EventsFor(d, s.At(p).now, digest, disk, faults))
  {
    hide Evaluate, Dumped, Emits;
    OneStep(s, Skip(p));
    OneStep(s, Emit(p, false, faults.errorHistory));
    assert s.log + [] == s.log;
  }

  lemma HistoryOutcome(s: System, p: nat, digest: string, disk: Disk, faults: Faults)
    requires s.At(p).Walking? && s.At(p).i < |s.At(p).snapshot| && disk.definitions == Dumped(s.disk)
    requires var d := s.At(p).snapshot[s.At(p).i];
             Evaluate(d, s.At(p).now, false) == Due && Emits(disk, s.At(p).now, digest, faults) && faults.history
    ensures var d := s.At(p).snapshot[s.At(p).i];
            var (disk', r) := Process(disk, d, s.At(p).now, false, digest, faults);
            Matches(s, p, Run(s, StepsFor(p, d, s.At(p).now, digest, disk, faults)), disk', r,
                    EventsFor(d, s.At(p).now, digest, disk, faults))
  {
    hide Evaluate, Dumped, Emits;
    var id := s.At(p).snapshot[s.At(p).i].id;
    TwoSteps(s, Emit(p, true, false), WriteHistory(p, false));
    var t := Act(Act(s, Emit(p, true, false)), WriteHistory(p, false));
    assert t.log == s.log + [Fired(id, false), Lost(id, false)];
  }

  /** A fire made without interruption, up to the save. */
  lemma FireSteps(s: System, p: nat, digest: string, ok: bool, raises: bool)
    requires s.At(p).Walking? && s.At(p).i < |s.At(p).snapshot|
    requires Evaluate(s.At(p).snapshot[s.At(p).i], s.At(p).now, false) == Due
    ensures var pc := s.At(p);
            var d := pc.snapshot[pc.i];
            var t := Run(s, [Emit(p, true, false), WriteHistory(p, true), SaveDefinition(p, digest, ok, raises)]);
            var saved := ok && pc.now > 0;
            && t.log == s.log + [Fired(d.id, false), if saved then Completed(d.id, false) else Lost(d.id, false)]
            && t.disk == (if saved then s.disk[d.id := Saved(d, pc.now, digest)] else s.disk)
            && t.At(p) == if !saved && raises then Leaving else Walking(pc.snapshot, pc.i + 1, pc.now)
  {
    hide Evaluate, Saved, Run;
    var pc := s.At(p);
    var d := pc.snapshot[pc.i];
    ThreeSteps(s, Emit(p, true, false), WriteHistory(p, true), SaveDefinition(p, digest, ok, raises));
    SavedFields(d, pc.now, digest);
    var emitted := Act(s, Emit(p, true, false));
    assert emitted.At(p) == Emitted(pc.snapshot, pc.i, pc.now) && emitted.log == s.log + [Fired(d.id, false)];
    var recorded := Act(emitted, WriteHistory(p, true));
    assert recorded.At(p) == Recorded(pc.snapshot, pc.i, pc.now) && recorded.log == emitted.log;
  }

  lemma SaveOutcomes(s: System, p: nat, digest: string, disk: Disk, faults: Faults)
    requires s.At(p).Walking? && s.At(p).i < |s.At(p).snapshot| && disk.definitions == Dumped(s.disk)
    requires var d := s.At(p).snapshot[s.At(p).i];
             Evaluate(d, s.At(p).now, false) == Due && Emits(disk, s.At(p).now, digest, faults) && !faults.history
    ensures var d := s.At(p).snapshot[s.At(p).i];
            var (disk', r) := Process(disk, d, s.At(p).now, false, digest, faults);
            Matches(s, p, Run(s, StepsFor(p, d, s.At(p).now, digest, disk, faults)), disk', r,
                    EventsFor(d, s.At(p).now, digest, disk, faults))
  {
    hide Evaluate, Dumped, Emits, Saved, AutomationModels.Dump, Run, Act;
    var d := s.At(p).snapshot[s.At(p).i];
    FireSteps(s, p, digest, !faults.save, faults.errorHistory);
    SavedFields(d, s.At(p).now, digest);
    DumpedPut(s.disk, Saved(d, s.At(p).now, digest));
  }

  /**
   Uninterrupted, the steps for one definition do what the method for one definition does: the same
   files, the same fires, and on to the next definition unless it raised.
   */
  lemma StepsRefineProcess(s: System, p: nat, digest: string, disk: Disk, faults: Faults)
    requires s.At(p).Walking? && s.At(p).i < |s.At(p).snapshot| && disk.definitions == Dumped(s.disk)
    ensures var d := s.At(p).snapshot[s.At(p).i];
            var (disk', r) := Process(disk, d, s.At(p).now, false, digest, faults);
            Matches(s, p, Run(s, StepsFor(p, d, s.At(p).now, digest, disk, faults)), disk', r,
                    EventsFor(d, s.At(p).now, digest, disk, faults))
  {
    hide *;
    var d := s.At(p).snapshot[s.At(p).i];
    if Evaluate(d, s.At(p).now, false) != Due || !Emits(disk, s.At(p).now, digest, faults) {
      EmitOutcomes(s, p, digest, disk, faults);
    } else if faults.history {
      HistoryOutcome(s, p, digest, disk, faults);
    } else {
      SaveOutcomes(s, p, digest, disk, faults);
    }
  }

  lemma DumpedPut(disk: map<string, Definition>, d: Definition)
    ensures Dumped(disk[d.id := d]) == Dumped(disk)[d.id := AutomationModels.Dump(d)]
  {
    hide AutomationModels.Dump;
  }

  // ----- a fire that does not take the lock

  /** From a fire in flight, the process can complete it and step on, saving whatever it holds. */
  lemma FinishFire(s: System, p: nat) returns (actions: seq<Action>)
    requires s.At(p).InFlight() && s.At(p).i < |s.At(p).snapshot| && s.At(p).now > 0
    ensures var pc, t := s.At(p), Run(s, actions);
            && t.At(p) == Walking(pc.snapshot, pc.i + 1, pc.now)
            && t.log == s.log + [Completed(pc.snapshot[pc.i].id, false)]
            && t.disk == s.disk[pc.snapshot[pc.i].id := Saved(pc.snapshot[pc.i], pc.now, "")]
    ensures forall k :: 0 <= k < |actions| ==> !actions[k].FireOnce? && !actions[k].Toggle?
  {
    hide Saved;
    SavedFields(s.At(p).snapshot[s.At(p).i], s.At(p).now, "");
    var save := SaveDefinition(p, "", true, false);
    if s.At(p).Emitted? {
      var u := Act(s, WriteHistory(p, true));
      actions := [WriteHistory(p, true), save];
      assert actions[1..] == [save];
      assert Run(u, [save]) == Run(Act(u, save), []);
    } else {
      actions := [save];
      assert actions[1..] == [];
    }
  }

  /** A process that owes a fire of `id` can go on to complete it and save its copy, whatever has happened on the disk since. */
  lemma {:induction false} OwedFireCompletes(s: System, p: nat, k: nat, id: string) returns (actions: seq<Action>)
    requires OwesAt(s.At(p), id, k) && s.At(p).now > 0
    ensures Done(Run(s, actions), id) > Done(s, id)
    ensures id in Run(s, actions).disk && Run(s, actions).disk[id] == Saved(s.At(p).snapshot[k], s.At(p).now, "")
    ensures forall j :: 0 <= j < |actions| ==> !actions[j].FireOnce? && !actions[j].Toggle?
    decreases k - s.At(p).i, if s.At(p).Walking? then 1 else 0
  {
    hide Evaluate, Saved;
    var pc := s.At(p);
    var first: seq<Action>;
    if pc.InFlight() {
      first := FinishFire(s, p);
      var e := Completed(pc.snapshot[pc.i].id, false);
      SameLog(s.Note(e), Run(s, first), id);
      NoteCounts(s, e, id);
      if pc.i == k {
        return first;
      }
    } else {
      var a := if Evaluate(pc.snapshot[pc.i], pc.now, false) != Due then Skip(p) else Emit(p, true, false);
      first := [a];
      OneStep(s, a);
      if a.Emit? {
        var e := Fired(pc.snapshot[pc.i].id, false);
        NoteCounts(s, e, id);
        SameLog(s.Note(e), Act(s, a), id);
      } else {
        SameLog(s, Act(s, a), id);
      }
    }
    var t := Run(s, first);
    assert OwesAt(t.At(p), id, k);
    var rest := OwedFireCompletes(t, p, k, id);
    actions := first + rest;
    RunAppend(s, first, rest);
  }

  /** The bound of one completed unforced fire, over every continuation under the lock. */
  ghost predicate StaysOnce(s: System, id: string)
  {
    forall actions: seq<Action> :: Locked(actions, id) ==> Done(Run(s, actions), id) <= 1
  }

  lemma FireCompletes(s: System, id: string, now: int, digest: string)
    requires id in s.disk && s.disk[id].id == id && Evaluate(s.disk[id], now, false) == Due && now > 0
    ensures var t := Act(s, FireOnce(id, false, now, digest, true));
            Done(t, id) == Done(s, id) + 1 && t.procs == s.procs
  {
    hide Count, Evaluate;
    var u := s.Put(Saved(s.disk[id], now, digest));
    SameLog(s, u, id);
    NoteCounts(u, Fired(id, false), id);
    NoteCounts(u.Note(Fired(id, false)), Completed(id, false), id);
  }

  lemma OwedFireBreaksTheBound(s: System, p: nat, id: string)
    requires Owes(s.At(p), id) && s.At(p).now > 0 && Done(s, id) > 0
    ensures !StaysOnce(s, id)
  {
    var k: nat :| OwesAt(s.At(p), id, k);
    var actions := OwedFireCompletes(s, p, k, id);
    assert Locked(actions, id);
  }

  lemma StaysOnceWhenKept(s: System, id: string)
    requires Inv(s, id)
    ensures StaysOnce(s, id)
  {
    hide Inv, Run, QuietRun, Locked;
    forall actions: seq<Action> | Locked(actions, id) ensures Done(Run(s, actions), id) <= 1 {
      LockedRunsAreQuiet(s, actions, id);
      RunKeeps(s, actions, id);
      AtMostOneDone(Run(s, actions), id);
    }
  }

  lemma AtMostOneDone(s: System, id: string)
    requires Inv(s, id)
    ensures Done(s, id) <= 1
  {
  }

  lemma DueAtPositiveTimes(d: Definition, now: int)
    requires Stamped(d) && Evaluate(d, now, false) == Due
    ensures now > 0
  {
  }

  /** The unlocked entry point keeps the at-most-once bound exactly when no process owes a fire of its own. */
  lemma UnlockedFireIsSafeIffNobodyOwes(s: System, id: string, now: int, digest: string)
    requires Inv(s, id)
    requires id in s.disk && Evaluate(s.disk[id], now, false) == Due
    ensures StaysOnce(Act(s, FireOnce(id, false, now, digest, true)), id) <==> forall p: nat :: !Owes(s.At(p), id)
  {
    var a := FireOnce(id, false, now, digest, true);
    var t := Act(s, a);
    hide Evaluate, Run, Act, Count, StaysOnce, Done, Owes;
    DueAtPositiveTimes(s.disk[id], now);
    if p: nat :| Owes(s.At(p), id) {
      FireCompletes(s, id, now, digest);
      OwersAreTimed(s.At(p), id);
      assert t.At(p) == s.At(p);
      OwedFireBreaksTheBound(t, p, id);
    } else {
      StepKeeps(s, a, id);
      StaysOnceWhenKept(t, id);
    }
  }

  lemma OwersAreTimed(pc: Pc, id: string)
    requires PcOk(pc, id) && Owes(pc, id)
    ensures pc.now > 0
  {
  }

  /** One definition on the disk, and nothing going on. */
  function Alone(d: Definition): System
  {
    System(map[], None, map[d.id := d], [])
  }

  function Load(d: Definition, now: int): seq<Action>
  {
    [Open(0), TryLock(0), LoadAll(0, [d], now)]
  }

  const FINISH: seq<Action> := [Emit(0, true, false), WriteHistory(0, true), SaveDefinition(0, "x", true, false)]

  lemma LoadLeads(d: Definition, now: int)
    ensures Fresh(Alone(d))
    ensures var t := Run(Alone(d), Load(d, now));
            t.At(0) == Walking([d], 0, now) && t.disk == map[d.id := d] && t.log == []
  {
    ThreeSteps(Alone(d), Open(0), TryLock(0), LoadAll(0, [d], now));
  }

  lemma ThreePhases(s: System, a: seq<Action>, b: Action, c: seq<Action>)
    ensures Run(s, a + [b]) == Act(Run(s, a), b)
    ensures Run(s, a + [b] + c) == Run(Act(Run(s, a), b), c)
  {
    hide Act;
    RunAppend(s, a, [b]);
    OneStep(Run(s, a), b);
    RunAppend(s, a + [b], c);
  }

  /**
   Open, lock, load and, while the pass holds its copy, an unlocked fire: the pass fires the same one-shot
   again. The state before the fire is one that `UnlockedFireIsSafeIffNobodyOwes` speaks of.
   */
  lemma UnlockedFireFiresTwice()
    ensures var s, load := Alone(EXAMPLE), Load(EXAMPLE, 2000);
            var fire := FireOnce("a", false, 2001, "y", true);
            && Fresh(s) && Inv(Run(s, load), "a") && Owes(Run(s, load).At(0), "a")
            && Done(Run(s, load + [fire] + FINISH), "a") == 2
  {
    hide Saved, Run, Act;
    var s, load := Alone(EXAMPLE), Load(EXAMPLE, 2000);
    LockedRunsAreQuiet(s, load, "a");
    assert forall p: nat :: s.At(p) == Idle;
    RunKeeps(s, load, "a");
    hide Count, Inv;
    var fire := FireOnce("a", false, 2001, "y", true);
    var t := Run(s, load);
    LoadLeads(EXAMPLE, 2000);
    assert OwesAt(t.At(0), "a", 0);
    ThreePhases(s, load, fire, FINISH);
    FireCompletes(t, "a", 2001, "y");
    var u := Act(t, fire);
    FireSteps(u, 0, "x", true, false);
    var e, c := Fired("a", false), Completed("a", false);
    NoteCounts(u, e, "a");
    NoteCounts(u.Note(e), c, "a");
    assert u.Note(e).Note(c).log == u.log + [e, c];
    SameLog(u.Note(e).Note(c), Run(u, FINISH), "a");
  }
}
