/**
 Job files moving between the queue's buckets (src/voxera/core/queue_daemon.py,
 src/voxera/core/queue_paths.py).
 */
module QueueBuckets {
  import opened Text
  import opened Wrappers

  datatype Bucket = Root | Inbox | Pending | Done | Failed | Canceled

  /** A job file `<stem>.json` in a bucket. */
  datatype Place = Place(bucket: Bucket, stem: string)

  /** A document is told apart from a copy of it by its inode. */
  datatype Doc = Doc(inode: nat, text: string)

  /** The queue directory: job files, and side files named after a job's stem. */
  datatype Files = Files(
    jobs: map<Place, Doc>,          // <bucket>/<stem>.json
    states: map<Place, string>,     // <bucket>/<stem>.state.json
    metas: map<string, string>,     // pending/<stem>.pending.json
    approvals: map<string, string>, // pending/approvals/<stem>.approval.json
    errors: map<string, string>)    // failed/<stem>.error.json

  // ----- one move

  /** The job keeps its name unless the target bucket has one of that name; then the clock is appended. */
  function Destination(jobs: map<Place, Doc>, stem: string, to: Bucket, ts: nat): Place
  {
    if Place(to, stem) in jobs then Place(to, stem + "-" + Decimal(ts)) else Place(to, stem)
  }

  /** A rename replaces whatever has the new name. */
  function Renamed<T>(m: map<Place, T>, src: Place, dst: Place): map<Place, T>
    requires src in m
  {
    (m - {src})[dst := m[src]]
  }

  function Moved(f: Files, src: Place, to: Bucket, ts: nat): Files
  {
    if src !in f.jobs then f
    else
      var dst := Destination(f.jobs, src.stem, to, ts);
      f.(jobs := Renamed(f.jobs, src, dst),
         states := if src in f.states then Renamed(f.states, src, dst) else f.states)
  }

  // ----- operations

  /** Bare job references; `prefixed` says which of two matching names of one bucket is met first. */
  function InBucket(jobs: map<Place, Doc>, bucket: Bucket, ref: string, prefixed: bool): Option<Place>
  {
    var plain, long := Place(bucket, ref), Place(bucket, "job-" + ref);
    if plain in jobs && !(prefixed && long in jobs) then Some(plain)
    else if long in jobs then Some(long)
    else None
  }

  function Resolve(jobs: map<Place, Doc>, first: Bucket, second: Bucket, ref: string, prefixed: bool): Option<Place>
  {
    var hit := InBucket(jobs, first, ref, prefixed);
    if hit.Some? then hit else InBucket(jobs, second, ref, prefixed)
  }

  datatype Op =
    | Submit(stem: string, doc: Doc)
    | Gate(stem: string, ts: nat, approval: string)
    | Pause(stem: string, ts: nat, meta: string, approval: string)
    | Finish(src: Place, ok: bool, ts: nat, error: string)
    | Cancel(ref: string, prefixed: bool, ts: nat)
    | Retry(ref: string, prefixed: bool, ts: nat)
    | Delete(ref: string, prefixed: bool, confirm: string)
    | RelocateLegacy(stem: string, ts: nat)
    | RelocateMisplaced(stem: string, ts: nat)

  function Submitted(f: Files, stem: string, doc: Doc): Files
  {
    if Place(Inbox, stem) in f.jobs then f else f.(jobs := f.jobs[Place(Inbox, stem) := doc])
  }

  /** The hard approval gate: into pending/, an approval but no resumable state. */
  function Gated(f: Files, stem: string, ts: nat, approval: string): Files
  {
    if Place(Inbox, stem) !in f.jobs then f
    else
      var dst := Destination(f.jobs, stem, Pending, ts);
      var g := Moved(f, Place(Inbox, stem), Pending, ts);
      g.(approvals := if dst.stem in g.approvals then g.approvals else g.approvals[dst.stem := approval],
         metas := g.metas - {dst.stem})
  }

  function Paused(f: Files, stem: string, ts: nat, meta: string, approval: string): Files
  {
    if Place(Inbox, stem) !in f.jobs then f
    else
      var dst := Destination(f.jobs, stem, Pending, ts);
      var g := Moved(f, Place(Inbox, stem), Pending, ts);
      g.(approvals := g.approvals[dst.stem := approval], metas := g.metas[dst.stem := meta])
  }

  /** A run or a resolved approval ends a job in done/ or failed/. */
  function Finished(f: Files, src: Place, ok: bool, ts: nat, error: string): Files
  {
    if src !in f.jobs || !(src.bucket.Inbox? || src.bucket.Pending?) then f
    else
      var to := if ok then Done else Failed;
      var dst := Destination(f.jobs, src.stem, to, ts);
      var g := Moved(f, src, to, ts);
      var h := if ok then g else g.(errors := g.errors[dst.stem := error]);
      if src.bucket.Pending? then h.(metas := h.metas - {src.stem}, approvals := h.approvals - {src.stem}) else h
  }

  function Cancelled(f: Files, ref: string, prefixed: bool, ts: nat): Files
  {
    match Resolve(f.jobs, Inbox, Pending, ref, prefixed)
    case None => f
    case Some(src) =>
      var dst := Destination(f.jobs, src.stem, Canceled, ts);
      var g := Moved(f, src, Canceled, ts);
      g.(metas := g.metas - {dst.stem}, approvals := g.approvals - {dst.stem}, errors := g.errors - {dst.stem})
  }

  function Retried(f: Files, ref: string, prefixed: bool, ts: nat): Files
  {
    match Resolve(f.jobs, Failed, Canceled, ref, prefixed)
    case None => f
    case Some(src) =>
      var g := if src.bucket.Failed? then f.(errors := f.errors - {src.stem}) else f;
      Moved(g, src, Inbox, ts)
  }

  function ResolveTerminal(jobs: map<Place, Doc>, ref: string, prefixed: bool): Option<Place>
  {
    var hit := InBucket(jobs, Done, ref, prefixed);
    if hit.Some? then hit else Resolve(jobs, Failed, Canceled, ref, prefixed)
  }

  function Deleted(f: Files, ref: string, prefixed: bool, confirm: string): Files
  {
    match ResolveTerminal(f.jobs, ref, prefixed)
    case None => f
    case Some(src) =>
      if confirm != src.stem then f
      else f.(jobs := f.jobs - {src},
              errors := if src.bucket.Failed? then f.errors - {src.stem} else f.errors,
              metas := f.metas - {src.stem},
              approvals := f.approvals - {src.stem})
  }

  function RelocatedMisplaced(f: Files, stem: string, ts: nat): Files
  {
    if stem in f.metas then f else Moved(f, Place(Pending, stem), Inbox, ts)
  }

  function Apply(f: Files, op: Op): Files
  {
    match op
    case Submit(stem, doc) => Submitted(f, stem, doc)
    case Gate(stem, ts, approval) => Gated(f, stem, ts, approval)
    case Pause(stem, ts, meta, approval) => Paused(f, stem, ts, meta, approval)
    case Finish(src, ok, ts, error) => Finished(f, src, ok, ts, error)
    case Cancel(ref, prefixed, ts) => Cancelled(f, ref, prefixed, ts)
    case Retry(ref, prefixed, ts) => Retried(f, ref, prefixed, ts)
    case Delete(ref, prefixed, confirm) => Deleted(f, ref, prefixed, confirm)
    case RelocateLegacy(stem, ts) => Moved(f, Place(Root, stem), Inbox, ts)
    case RelocateMisplaced(stem, ts) => RelocatedMisplaced(f, stem, ts)
  }

  function Run(f: Files, ops: seq<Op>): Files
    decreases |ops|
  {
    if ops == [] then f else Run(Apply(f, ops[0]), ops[1..])
  }

  // ----- where jobs and their side files go

  function Order(b: Bucket): nat
  {
    match b
    case Root => 0
    case Inbox => 1
    case Pending => 2
    case Done => 3
    case Failed => 4
    case Canceled => 5
  }

  /** A bare reference fits a job of that name, or of that name after "job-". */
  predicate Fits(jobs: map<Place, Doc>, buckets: set<Bucket>, ref: string, p: Place)
  {
    p in jobs && p.bucket in buckets && (p.stem == ref || p.stem == "job-" + ref)
  }

  /** The job it means in those buckets: one in the first of them, and of two there the one that is met first. */
  ghost predicate Refers(jobs: map<Place, Doc>, buckets: set<Bucket>, ref: string, prefixed: bool, p: Place)
  {
    && Fits(jobs, buckets, ref, p)
    && forall q :: Fits(jobs, buckets, ref, q) && q != p ==>
         Order(p.bucket) < Order(q.bucket) || (p.bucket == q.bucket && (p.stem == "job-" + ref <==> prefixed))
  }

  lemma InBucketFinds(jobs: map<Place, Doc>, bucket: Bucket, ref: string, prefixed: bool)
    ensures var r := InBucket(jobs, bucket, ref, prefixed);
            if r.Some? then Refers(jobs, {bucket}, ref, prefixed, r.value)
            else forall p :: !Fits(jobs, {bucket}, ref, p)
  {
    assert |"job-" + ref| != |ref|;
  }

  lemma ResolveRefers(jobs: map<Place, Doc>, first: Bucket, second: Bucket, ref: string, prefixed: bool)
    requires Order(first) < Order(second)
    ensures var r := Resolve(jobs, first, second, ref, prefixed);
            if r.Some? then Refers(jobs, {first, second}, ref, prefixed, r.value)
            else forall p :: !Fits(jobs, {first, second}, ref, p)
  {
    hide InBucket;
    InBucketFinds(jobs, first, ref, prefixed);
    InBucketFinds(jobs, second, ref, prefixed);
    assert forall p :: Fits(jobs, {first, second}, ref, p) <==> Fits(jobs, {first}, ref, p) || Fits(jobs, {second}, ref, p);
  }

  lemma ResolveTerminalRefers(jobs: map<Place, Doc>, ref: string, prefixed: bool)
    ensures var r := ResolveTerminal(jobs, ref, prefixed);
            if r.Some? then Refers(jobs, {Done, Failed, Canceled}, ref, prefixed, r.value)
            else forall p :: !Fits(jobs, {Done, Failed, Canceled}, ref, p)
  {
    hide InBucket, Resolve;
    InBucketFinds(jobs, Done, ref, prefixed);
    ResolveRefers(jobs, Failed, Canceled, ref, prefixed);
    assert forall p :: Fits(jobs, {Done, Failed, Canceled}, ref, p) <==>
                       Fits(jobs, {Done}, ref, p) || Fits(jobs, {Failed, Canceled}, ref, p);
  }

  lemma OneIsReferredTo(jobs: map<Place, Doc>, buckets: set<Bucket>, ref: string, prefixed: bool, p: Place, q: Place)
    requires Refers(jobs, buckets, ref, prefixed, p) && Refers(jobs, buckets, ref, prefixed, q)
    ensures p == q
  {
  }

  /** The first job that the reference fits, in the order inbox/, pending/ or done/, failed/, canceled/. */
  lemma ReferencesFindJobs(jobs: map<Place, Doc>, ref: string, prefixed: bool, p: Place)
    ensures Resolve(jobs, Inbox, Pending, ref, prefixed) == Some(p) <==> Refers(jobs, {Inbox, Pending}, ref, prefixed, p)
    ensures Resolve(jobs, Failed, Canceled, ref, prefixed) == Some(p) <==> Refers(jobs, {Failed, Canceled}, ref, prefixed, p)
    ensures ResolveTerminal(jobs, ref, prefixed) == Some(p) <==> Refers(jobs, {Done, Failed, Canceled}, ref, prefixed, p)
  {
    ResolveRefers(jobs, Inbox, Pending, ref, prefixed);
    ResolveRefers(jobs, Failed, Canceled, ref, prefixed);
    ResolveTerminalRefers(jobs, ref, prefixed);
    hide Resolve, ResolveTerminal;
    var r, s, t := Resolve(jobs, Inbox, Pending, ref, prefixed), Resolve(jobs, Failed, Canceled, ref, prefixed),
                   ResolveTerminal(jobs, ref, prefixed);
    if Refers(jobs, {Inbox, Pending}, ref, prefixed, p) {
      OneIsReferredTo(jobs, {Inbox, Pending}, ref, prefixed, p, r.value);
    }
    if Refers(jobs, {Failed, Canceled}, ref, prefixed, p) {
      OneIsReferredTo(jobs, {Failed, Canceled}, ref, prefixed, p, s.value);
    }
    if Refers(jobs, {Done, Failed, Canceled}, ref, prefixed, p) {
      OneIsReferredTo(jobs, {Done, Failed, Canceled}, ref, prefixed, p, t.value);
    }
  }

  /** The job keeps its name, or gets the clock appended if the bucket has a job of that name. */
  function NameIn(f: Files, bucket: Bucket, stem: string, ts: nat): string
  {
    if Place(bucket, stem) in f.jobs then stem + "-" + Decimal(ts) else stem
  }

  predicate Went(f: Files, g: Files, src: Place, to: Bucket, ts: nat)
  {
    src in f.jobs && g.jobs == (f.jobs - {src})[Place(to, NameIn(f, to, src.stem, ts)) := f.jobs[src]]
  }

  /** Every operation takes the job it names to its bucket, and no other; without such a job it changes nothing. */
  lemma JobsGoWhereTheyAreSent(f: Files, op: Op, src: Place)
    ensures var g := Apply(f, op);
            match op
            case Submit(stem, doc) =>
              g == if Place(Inbox, stem) in f.jobs then f else f.(jobs := f.jobs[Place(Inbox, stem) := doc])
            case Gate(stem, ts, _) =>
              if Place(Inbox, stem) in f.jobs then Went(f, g, Place(Inbox, stem), Pending, ts) else g == f
            case Pause(stem, ts, _, _) =>
              if Place(Inbox, stem) in f.jobs then Went(f, g, Place(Inbox, stem), Pending, ts) else g == f
            case Finish(p, ok, ts, _) =>
              if p in f.jobs && p.bucket in [Inbox, Pending] then Went(f, g, p, if ok then Done else Failed, ts) else g == f
            case Cancel(ref, prefixed, ts) =>
              && (Refers(f.jobs, {Inbox, Pending}, ref, prefixed, src) ==> Went(f, g, src, Canceled, ts))
              && ((forall p :: !Refers(f.jobs, {Inbox, Pending}, ref, prefixed, p)) ==> g == f)
            case Retry(ref, prefixed, ts) =>
              && (Refers(f.jobs, {Failed, Canceled}, ref, prefixed, src) ==> Went(f, g, src, Inbox, ts))
              && ((forall p :: !Refers(f.jobs, {Failed, Canceled}, ref, prefixed, p)) ==> g == f)
            case Delete(ref, prefixed, confirm) =>
              && (Refers(f.jobs, {Done, Failed, Canceled}, ref, prefixed, src) ==>
                    if confirm == src.stem then g.jobs == f.jobs - {src} else g == f)
              && ((forall p :: !Refers(f.jobs, {Done, Failed, Canceled}, ref, prefixed, p)) ==> g == f)
            case RelocateLegacy(stem, ts) =>
              if Place(Root, stem) in f.jobs then Went(f, g, Place(Root, stem), Inbox, ts) else g == f
            case RelocateMisplaced(stem, ts) =>
              if Place(Pending, stem) in f.jobs && stem !in f.metas then Went(f, g, Place(Pending, stem), Inbox, ts) else g == f
  {
    hide Moved, Resolve, ResolveTerminal, Refers, Went, Renamed;
    match op
    case Gate(stem, ts, _) => MovedWent(f, Place(Inbox, stem), Pending, ts);
    case Pause(stem, ts, _, _) => MovedWent(f, Place(Inbox, stem), Pending, ts);
    case Finish(p, ok, ts, _) => MovedWent(f, p, if ok then Done else Failed, ts);
    case Cancel(ref, prefixed, ts) =>
      ReferencesFindJobs(f.jobs, ref, prefixed, src);
      var r := Resolve(f.jobs, Inbox, Pending, ref, prefixed);
      if r.Some? {
        ReferencesFindJobs(f.jobs, ref, prefixed, r.value);
        ResolveFinds(f.jobs, Inbox, Pending, ref, prefixed);
        MovedWent(f, r.value, Canceled, ts);
      }
    case Retry(ref, prefixed, ts) =>
      ReferencesFindJobs(f.jobs, ref, prefixed, src);
      var r := Resolve(f.jobs, Failed, Canceled, ref, prefixed);
      if r.Some? {
        ReferencesFindJobs(f.jobs, ref, prefixed, r.value);
        ResolveFinds(f.jobs, Failed, Canceled, ref, prefixed);
        MovedWent(f, r.value, Inbox, ts);
        MovedIgnoresErrors(f, f.errors - {r.value.stem}, r.value, Inbox, ts);
      }
    case Delete(ref, prefixed, _) =>
      ReferencesFindJobs(f.jobs, ref, prefixed, src);
      var r := ResolveTerminal(f.jobs, ref, prefixed);
      if r.Some? { ReferencesFindJobs(f.jobs, ref, prefixed, r.value); }
    case RelocateLegacy(stem, ts) => MovedWent(f, Place(Root, stem), Inbox, ts);
    case RelocateMisplaced(stem, ts) => MovedWent(f, Place(Pending, stem), Inbox, ts);
    case _ =>
  }

  lemma MovedWent(f: Files, src: Place, to: Bucket, ts: nat)
    ensures var g := Moved(f, src, to, ts);
            if src in f.jobs then forall h: Files :: h.jobs == g.jobs ==> Went(f, h, src, to, ts) else g == f
  {
  }

  /**
   A job that waits has its approval under its new name, and its resume state exactly if it stopped between two
   steps; a failed one has its error, and one that leaves failed/ loses it.
   */
  lemma SideFilesFollowTheJob(f: Files, op: Op, src: Place)
    requires src in f.jobs
    ensures var g := Apply(f, op);
            match op
            case Gate(stem, ts, approval) => src == Place(Inbox, stem) ==>
              var name := NameIn(f, Pending, stem, ts);
              && g.metas == f.metas - {name} && g.errors == f.errors
              && g.approvals == if name in f.approvals then f.approvals else f.approvals[name := approval]
            case Pause(stem, ts, meta, approval) => src == Place(Inbox, stem) ==>
              var name := NameIn(f, Pending, stem, ts);
              g.metas == f.metas[name := meta] && g.approvals == f.approvals[name := approval] && g.errors == f.errors
            case Finish(p, ok, ts, error) => src == p && src.bucket in [Inbox, Pending] ==>
              && g.errors == (if ok then f.errors else f.errors[NameIn(f, Failed, src.stem, ts) := error])
              && g.metas == (if src.bucket.Pending? then f.metas - {src.stem} else f.metas)
              && g.approvals == (if src.bucket.Pending? then f.approvals - {src.stem} else f.approvals)
            case Cancel(ref, prefixed, ts) => Refers(f.jobs, {Inbox, Pending}, ref, prefixed, src) ==>
              var name := NameIn(f, Canceled, src.stem, ts);
              g.metas == f.metas - {name} && g.approvals == f.approvals - {name} && g.errors == f.errors - {name}
            case Retry(ref, prefixed, _) => Refers(f.jobs, {Failed, Canceled}, ref, prefixed, src) ==>
              && g.metas == f.metas && g.approvals == f.approvals
              && g.errors == if src.bucket.Failed? then f.errors - {src.stem} else f.errors
            case Delete(ref, prefixed, confirm) =>
              Refers(f.jobs, {Done, Failed, Canceled}, ref, prefixed, src) && confirm == src.stem ==>
              && g.states == f.states && g.metas == f.metas - {src.stem} && g.approvals == f.approvals - {src.stem}
              && g.errors == if src.bucket.Failed? then f.errors - {src.stem} else f.errors
            case _ => g.metas == f.metas && g.approvals == f.approvals && g.errors == f.errors
  {
    hide Resolve, ResolveTerminal, Refers, Moved, Destination, NameIn;
    match op
    case Gate(stem, ts, _) => MovedKeepsSideFiles(f, src, Pending, ts);
    case Pause(stem, ts, _, _) => MovedKeepsSideFiles(f, src, Pending, ts);
    case Finish(p, ok, ts, _) => MovedKeepsSideFiles(f, src, if ok then Done else Failed, ts);
    case Cancel(ref, prefixed, ts) =>
      ReferencesFindJobs(f.jobs, ref, prefixed, src);
      MovedKeepsSideFiles(f, src, Canceled, ts);
    case Retry(ref, prefixed, ts) =>
      ReferencesFindJobs(f.jobs, ref, prefixed, src);
      MovedKeepsSideFiles(f.(errors := f.errors - {src.stem}), src, Inbox, ts);
      MovedKeepsSideFiles(f, src, Inbox, ts);
    case Delete(ref, prefixed, _) => ReferencesFindJobs(f.jobs, ref, prefixed, src);
    case RelocateLegacy(stem, ts) => MovedKeepsSideFiles(f, Place(Root, stem), Inbox, ts);
    case RelocateMisplaced(stem, ts) => MovedKeepsSideFiles(f, Place(Pending, stem), Inbox, ts);
    case _ =>
  }

  lemma MovedKeepsSideFiles(f: Files, src: Place, to: Bucket, ts: nat)
    ensures var g := Moved(f, src, to, ts);
            g.metas == f.metas && g.approvals == f.approvals && g.errors == f.errors
    ensures Destination(f.jobs, src.stem, to, ts).stem == NameIn(f, to, src.stem, ts)
  {
  }

  // ----- conservation

  ghost predicate Injective(jobs: map<Place, Doc>)
  {
    forall p, q :: p in jobs && q in jobs && jobs[p] == jobs[q] ==> p == q
  }

  /** The move an operation makes, if it makes one. */
  function MoveOf(f: Files, op: Op): Option<(Place, Bucket, nat)>
  {
    match op
    case Submit(_, _) => None
    case Gate(stem, ts, _) => Some((Place(Inbox, stem), Pending, ts))
    case Pause(stem, ts, _, _) => Some((Place(Inbox, stem), Pending, ts))
    case Finish(src, ok, ts, _) =>
      if src.bucket.Inbox? || src.bucket.Pending? then Some((src, if ok then Done else Failed, ts)) else None
    case Cancel(ref, prefixed, ts) =>
      (match Resolve(f.jobs, Inbox, Pending, ref, prefixed) case None => None case Some(src) => Some((src, Canceled, ts)))
    case Retry(ref, prefixed, ts) =>
      (match Resolve(f.jobs, Failed, Canceled, ref, prefixed) case None => None case Some(src) => Some((src, Inbox, ts)))
    case Delete(_, _, _) => None
    case RelocateLegacy(stem, ts) => Some((Place(Root, stem), Inbox, ts))
    case RelocateMisplaced(stem, ts) => if stem in f.metas then None else Some((Place(Pending, stem), Inbox, ts))
  }

  /** The name with the clock appended is free, which the source does not check. */
  predicate Free(f: Files, src: Place, to: Bucket, ts: nat)
  {
    src in f.jobs ==> Destination(f.jobs, src.stem, to, ts) !in f.jobs
  }

  /** A move keeps every document exactly when the name it moves to is free. */
  lemma MoveConservesIffFree(f: Files, src: Place, to: Bucket, ts: nat)
    requires Injective(f.jobs) && src in f.jobs && Destination(f.jobs, src.stem, to, ts) != src
    ensures Free(f, src, to, ts) <==> Moved(f, src, to, ts).jobs.Values == f.jobs.Values
    ensures Injective(Moved(f, src, to, ts).jobs)
  {
    var dst := Destination(f.jobs, src.stem, to, ts);
    var jobs' := Moved(f, src, to, ts).jobs;
    assert jobs'[dst] == f.jobs[src];
    forall p, q | p in jobs' && q in jobs' && jobs'[p] == jobs'[q] ensures p == q {
      assert jobs'[p] == f.jobs[if p == dst then src else p];
      assert jobs'[q] == f.jobs[if q == dst then src else q];
    }
    if dst in f.jobs {
      var lost := f.jobs[dst];
      assert lost in f.jobs.Values && lost !in jobs'.Values;
    } else {
      forall d | d in f.jobs.Values ensures d in jobs'.Values {
        var p :| p in f.jobs && f.jobs[p] == d;
        assert jobs'[if p == src then dst else p] == d;
      }
      forall d | d in jobs'.Values ensures d in f.jobs.Values {
        var p :| p in jobs' && jobs'[p] == d;
        assert f.jobs[if p == dst then src else p] == d;
      }
    }
  }

  /** The state sidecar beside a job moves with it, under the job's new stem. */
  lemma StateTravelsWithJob(f: Files, src: Place, to: Bucket, ts: nat)
    requires src in f.jobs && Destination(f.jobs, src.stem, to, ts) != src
    ensures var g, dst := Moved(f, src, to, ts), Destination(f.jobs, src.stem, to, ts);
            && g.jobs[dst] == f.jobs[src] && src !in g.jobs
            && (src in f.states ==> dst in g.states && g.states[dst] == f.states[src] && src !in g.states)
            && (forall p :: p != src && p != dst ==> (p in g.states <==> p in f.states))
            && (forall p :: p != src && p != dst && p in f.states ==> g.states[p] == f.states[p])
            && (forall p :: p != src && p != dst ==> (p in g.jobs <==> p in f.jobs))
            && (forall p :: p != src && p != dst && p in f.jobs ==> g.jobs[p] == f.jobs[p])
  {
  }

  /** What an operation adds to or takes from the documents in the queue. */
  function LedgerStep(f: Files, op: Op, docs: set<Doc>): set<Doc>
  {
    match op
    case Submit(stem, doc) => if Place(Inbox, stem) in f.jobs then docs else docs + {doc}
    case Delete(ref, prefixed, confirm) =>
      (match ResolveTerminal(f.jobs, ref, prefixed)
       case None => docs
       case Some(src) => if confirm == src.stem then docs - {f.jobs[src]} else docs)
    case _ => docs
  }

  /** Documents that have been submitted and not deleted. */
  function Ledger(f: Files, ops: seq<Op>, docs: set<Doc>): set<Doc>
    decreases |ops|
  {
    if ops == [] then docs else Ledger(Apply(f, ops[0]), ops[1..], LedgerStep(f, ops[0], docs))
  }

  /** A submitted document is a new file; a moved one finds its name free. */
  ghost predicate ProperStep(f: Files, op: Op)
  {
    match op
    case Submit(_, doc) => doc !in f.jobs.Values
    case _ =>
      (match MoveOf(f, op)
       case None => true
       case Some((src, to, ts)) => Free(f, src, to, ts))
  }

  ghost predicate Proper(f: Files, ops: seq<Op>)
    decreases |ops|
  {
    ops == [] || (ProperStep(f, ops[0]) && Proper(Apply(f, ops[0]), ops[1..]))
  }

  lemma ResolveFinds(jobs: map<Place, Doc>, first: Bucket, second: Bucket, ref: string, prefixed: bool)
    ensures var r := Resolve(jobs, first, second, ref, prefixed);
            r.Some? ==> r.value in jobs && (r.value.bucket == first || r.value.bucket == second)
  {
  }

  lemma MovedNothing(f: Files, src: Place, to: Bucket, ts: nat)
    ensures src !in f.jobs ==> Moved(f, src, to, ts) == f
  {
  }

  lemma MovedIgnoresErrors(f: Files, errors: map<string, string>, src: Place, to: Bucket, ts: nat)
    ensures Moved(f.(errors := errors), src, to, ts) == Moved(f, src, to, ts).(errors := errors)
  {
  }

  /** One operation moves at most one document, and only along `MoveOf`. */
  lemma ApplyMoves(f: Files, op: Op)
    requires !op.Submit? && !op.Delete?
    ensures Apply(f, op).jobs ==
      match MoveOf(f, op)
      case None => f.jobs
      case Some((src, to, ts)) => Moved(f, src, to, ts).jobs
    ensures Apply(f, op).states ==
      match MoveOf(f, op)
      case None => f.states
      case Some((src, to, ts)) => Moved(f, src, to, ts).states
    ensures MoveOf(f, op).Some? ==> MoveOf(f, op).value.0.bucket != MoveOf(f, op).value.1
  {
    hide Moved, Resolve;
    match op
    case Gate(stem, ts, _) => MovedNothing(f, Place(Inbox, stem), Pending, ts);
    case Pause(stem, ts, _, _) => MovedNothing(f, Place(Inbox, stem), Pending, ts);
    case Finish(src, ok, ts, _) => MovedNothing(f, src, if ok then Done else Failed, ts);
    case Cancel(ref, prefixed, ts) => ResolveFinds(f.jobs, Inbox, Pending, ref, prefixed);
    case Retry(ref, prefixed, ts) =>
      var src := Resolve(f.jobs, Failed, Canceled, ref, prefixed);
      ResolveFinds(f.jobs, Failed, Canceled, ref, prefixed);
      if src.Some? {
        MovedIgnoresErrors(f, f.errors - {src.value.stem}, src.value, Inbox, ts);
      }
    case _ =>
  }

  lemma AddConserves(jobs: map<Place, Doc>, p: Place, doc: Doc)
    requires Injective(jobs) && p !in jobs && doc !in jobs.Values
    ensures Injective(jobs[p := doc]) && jobs[p := doc].Values == jobs.Values + {doc}
  {
    var more := jobs[p := doc];
    forall d | d in jobs.Values + {doc} ensures d in more.Values {
      if d == doc {
        assert more[p] == d;
      } else {
        var q :| q in jobs && jobs[q] == d;
        assert more[q] == d;
      }
    }
  }

  lemma RemoveConserves(jobs: map<Place, Doc>, p: Place)
    requires Injective(jobs) && p in jobs
    ensures Injective(jobs - {p}) && (jobs - {p}).Values == jobs.Values - {jobs[p]}
  {
    var less := jobs - {p};
    forall d | d in jobs.Values - {jobs[p]} ensures d in less.Values {
      var q :| q in jobs && jobs[q] == d;
      assert less[q] == d;
    }
    forall d | d in less.Values ensures d in jobs.Values - {jobs[p]} {
      var q :| q in less && less[q] == d;
      assert jobs[q] == d;
    }
  }

  lemma StepConservesDocuments(f: Files, op: Op)
    requires Injective(f.jobs) && ProperStep(f, op)
    ensures Injective(Apply(f, op).jobs)
    ensures Apply(f, op).jobs.Values == LedgerStep(f, op, f.jobs.Values)
  {
    match op {
      case Submit(stem, doc) =>
        if Place(Inbox, stem) !in f.jobs { AddConserves(f.jobs, Place(Inbox, stem), doc); }
      case Delete(ref, prefixed, confirm) =>
        var r := ResolveTerminal(f.jobs, ref, prefixed);
        if r.Some? && confirm == r.value.stem { RemoveConserves(f.jobs, r.value); }
      case _ =>
        ApplyMoves(f, op);
        match MoveOf(f, op) {
          case None =>
          case Some((src, to, ts)) => if src in f.jobs { MoveConservesIffFree(f, src, to, ts); }
        }
    }
  }

  /**
   Over every run each document is in exactly one place with unchanged content, and only deletion
   removes one.
   */
  lemma {:induction false} RunConservesDocuments(f: Files, ops: seq<Op>)
    requires Injective(f.jobs) && Proper(f, ops)
    ensures Injective(Run(f, ops).jobs)
    ensures Run(f, ops).jobs.Values == Ledger(f, ops, f.jobs.Values)
    decreases |ops|
  {
    if ops != [] {
      StepConservesDocuments(f, ops[0]);
      RunConservesDocuments(Apply(f, ops[0]), ops[1..]);
    }
  }

  // ----- state sidecars

  predicate Holds(f: Files, p: Place, d: Doc)
  {
    p in f.jobs && f.jobs[p] == d
  }

  /** The state sidecar beside a place. */
  function Beside(f: Files, p: Place): Option<string>
  {
    if p in f.states then Some(f.states[p]) else None
  }

  lemma MoveKeepsSidecars(f: Files, src: Place, to: Bucket, ts: nat, d: Doc, p: Place, q: Place)
    requires Injective(f.jobs) && Free(f, src, to, ts) && src.bucket != to
    requires Holds(f, p, d) && Holds(Moved(f, src, to, ts), q, d)
    ensures Beside(Moved(f, src, to, ts), q) == if Beside(f, p).Some? || p == q then Beside(f, p) else Beside(f, q)
    ensures p != q <==> p == src
    ensures p != q ==> q == Destination(f.jobs, src.stem, to, ts)
  {
    if src in f.jobs {
      StateTravelsWithJob(f, src, to, ts);
      var dst := Destination(f.jobs, src.stem, to, ts);
      assert q != dst ==> f.jobs[q] == d;
    }
  }

  /**
   In one operation a document keeps the sidecar it had, at its new place. One that had none stays without
   one, unless it is moved to a place where a state file lies already.
   */
  lemma StepKeepsSidecars(f: Files, op: Op, d: Doc, p: Place, q: Place)
    requires Injective(f.jobs) && ProperStep(f, op)
    requires Holds(f, p, d) && Holds(Apply(f, op), q, d)
    ensures Beside(Apply(f, op), q) == if Beside(f, p).Some? || p == q then Beside(f, p) else Beside(f, q)
    ensures PicksUp(f, op, d) <==> p != q && Beside(f, p).None? && Beside(f, q).Some?
  {
    hide Moved, Resolve, Destination, Gated, Paused, Finished, Cancelled, Retried, RelocatedMisplaced;
    match op {
      case Submit(_, _) => assert Holds(f, q, d);
      case Delete(ref, prefixed, confirm) => assert Holds(f, q, d);
      case _ =>
        ApplyMoves(f, op);
        match MoveOf(f, op) {
          case None =>
          case Some((src, to, ts)) => MoveKeepsSidecars(f, src, to, ts, d, p, q);
        }
    }
  }

  /** The operation moves the document, which has no sidecar, to a place where a state file lies. */
  predicate PicksUp(f: Files, op: Op, d: Doc)
  {
    match MoveOf(f, op)
    case None => false
    case Some((src, to, ts)) => Holds(f, src, d) && src !in f.states && Destination(f.jobs, src.stem, to, ts) in f.states
  }

  predicate EverPicksUp(f: Files, ops: seq<Op>, d: Doc)
    decreases |ops|
  {
    ops != [] && (PicksUp(f, ops[0], d) || EverPicksUp(Apply(f, ops[0]), ops[1..], d))
  }

  /** The document is not deleted on the way. */
  predicate Survives(f: Files, ops: seq<Op>, d: Doc)
    decreases |ops|
  {
    d in f.jobs.Values && (ops != [] ==> Survives(Apply(f, ops[0]), ops[1..], d))
  }

  /**
   Over every run a document keeps its sidecar wherever it is moved; and one without a sidecar stays without
   exactly if it is never moved to a place where a state file lies.
   */
  lemma {:induction false} RunKeepsSidecars(f: Files, ops: seq<Op>, d: Doc, p: Place, q: Place)
    requires Injective(f.jobs) && Proper(f, ops) && Survives(f, ops, d)
    requires Holds(f, p, d) && Holds(Run(f, ops), q, d)
    ensures Beside(f, p).Some? ==> Beside(Run(f, ops), q) == Beside(f, p)
    ensures Beside(f, p).None? ==> (Beside(Run(f, ops), q).None? <==> !EverPicksUp(f, ops, d))
    decreases |ops|
  {
    hide Apply, ProperStep, PicksUp;
    if ops != [] {
      var g := Apply(f, ops[0]);
      StepConservesDocuments(f, ops[0]);
      assert d in g.jobs.Values;
      var m :| m in g.jobs && g.jobs[m] == d;
      StepKeepsSidecars(f, ops[0], d, p, m);
      RunKeepsSidecars(g, ops[1..], d, m, q);
    }
  }

  // ----- state files without a job

  /** No state file lies about without a job beside it. */
  ghost predicate Tidy(f: Files)
  {
    forall p :: p in f.states ==> p in f.jobs
  }

  /** A confirmed deletion of a finished job that has a sidecar, which deletion does not remove. */
  predicate LeavesOrphan(f: Files, op: Op)
  {
    op.Delete? &&
    var src := ResolveTerminal(f.jobs, op.ref, op.prefixed);
    src.Some? && op.confirm == src.value.stem && src.value in f.states
  }

  /** Deletion is the one operation that leaves a state file without a job. */
  lemma StepStaysTidyIffNoOrphan(f: Files, op: Op)
    requires Tidy(f)
    ensures Tidy(Apply(f, op)) <==> !LeavesOrphan(f, op)
  {
    match op {
      case Submit(_, _) =>
      case Delete(_, _, _) =>
      case _ =>
        ApplyMoves(f, op);
        match MoveOf(f, op) {
          case None =>
          case Some((src, to, ts)) => if src in f.jobs { StateTravelsWithJob(f, src, to, ts); }
        }
    }
  }

  ghost predicate NoOrphans(f: Files, ops: seq<Op>)
    decreases |ops|
  {
    ops != [] ==> !LeavesOrphan(f, ops[0]) && NoOrphans(Apply(f, ops[0]), ops[1..])
  }

  /** While no deletion leaves a state file, no document ever takes one over from another. */
  lemma {:induction false} NothingIsPickedUpInTidyRuns(f: Files, ops: seq<Op>, d: Doc)
    requires Tidy(f) && Proper(f, ops) && NoOrphans(f, ops)
    ensures Tidy(Run(f, ops)) && !EverPicksUp(f, ops, d)
    decreases |ops|
  {
    hide Apply;
    if ops != [] {
      StepStaysTidyIffNoOrphan(f, ops[0]);
      NothingIsPickedUpInTidyRuns(Apply(f, ops[0]), ops[1..], d);
    }
  }

  /** A deleted job's state ends up beside a later job of its name, which never had one. */
  lemma DeletedStateIsPickedUp(first: Doc, second: Doc, state: string)
    requires first != second
    ensures var place := Place(Canceled, "a");
            var f := Files(map[place := first], map[place := state], map[], map[], map[]);
            var ops := [Delete("a", false, "a"), Submit("a", second), Cancel("a", false, 0)];
            Proper(f, ops) && Holds(Run(f, ops), place, second) && Beside(Run(f, ops), place) == Some(state)
  {
    var place := Place(Canceled, "a");
    var f := Files(map[place := first], map[place := state], map[], map[], map[]);
    var ops := [Delete("a", false, "a"), Submit("a", second), Cancel("a", false, 0)];
    assert ops[1..] == [ops[1], ops[2]] && ops[1..][1..] == [ops[2]] && ops[1..][1..][1..] == [];
    var f1 := Apply(f, ops[0]);
    var f2 := Apply(f1, ops[1]);
    var f3 := Apply(f2, ops[2]);
    assert Run(f2, [ops[2]]) == Run(f3, []);
    assert Proper(f3, []) && Proper(f2, [ops[2]]);
  }

  // ----- where a job's state is written

  const STATE_BUCKETS: seq<Bucket> := [Inbox, Pending, Done, Failed, Canceled]

  function FirstStateFile(states: map<Place, string>, stem: string, buckets: seq<Bucket>): Option<Place>
  {
    if buckets == [] then None
    else if Place(buckets[0], stem) in states then Some(Place(buckets[0], stem))
    else FirstStateFile(states, stem, buckets[1..])
  }

  /** The first state file of the job's name in any bucket; if there is none, the place beside the job. */
  function StatePath(states: map<Place, string>, job: Place): Place
  {
    var found := FirstStateFile(states, job.stem, STATE_BUCKETS);
    if found.Some? then found.value
    else if job.bucket in STATE_BUCKETS then job
    else Place(Pending, job.stem)
  }

  predicate HasState(states: map<Place, string>, stem: string, k: nat)
  {
    k < |STATE_BUCKETS| && Place(STATE_BUCKETS[k], stem) in states
  }

  lemma {:induction false} FirstStateFileIsFirst(states: map<Place, string>, stem: string, k: nat)
    requires k <= |STATE_BUCKETS|
    ensures var found := FirstStateFile(states, stem, STATE_BUCKETS[k..]);
            if found.Some?
            then exists i: nat :: k <= i && HasState(states, stem, i) && found.value == Place(STATE_BUCKETS[i], stem) &&
                                  forall j: nat :: k <= j < i ==> !HasState(states, stem, j)
            else forall i: nat :: k <= i ==> !HasState(states, stem, i)
    decreases |STATE_BUCKETS| - k
  {
    hide STATE_BUCKETS;
    if k < |STATE_BUCKETS| {
      FirstStateFileIsFirst(states, stem, k + 1);
      assert STATE_BUCKETS[k..][0] == STATE_BUCKETS[k] && STATE_BUCKETS[k..][1..] == STATE_BUCKETS[k + 1..];
      if HasState(states, stem, k) {
      }
    }
  }

  /**
   The state of the job in the n-th bucket is written beside it exactly if no bucket before has a state file
   of its name, and none after has one that it lacks itself. Otherwise a namesake's state is overwritten.
   */
  lemma StateIsWrittenBesideItsJobIff(states: map<Place, string>, stem: string, n: nat)
    requires n < |STATE_BUCKETS|
    ensures StatePath(states, Place(STATE_BUCKETS[n], stem)) == Place(STATE_BUCKETS[n], stem) <==>
              (forall i: nat :: i < n ==> !HasState(states, stem, i)) &&
              (HasState(states, stem, n) || forall i: nat :: i > n ==> !HasState(states, stem, i))
  {
    FirstStateFileIsFirst(states, stem, 0);
    assert STATE_BUCKETS[0..] == STATE_BUCKETS;
    var found := FirstStateFile(states, stem, STATE_BUCKETS);
    if found.Some? {
      var i: nat :| HasState(states, stem, i) && found.value == Place(STATE_BUCKETS[i], stem) &&
                    forall j: nat :: j < i ==> !HasState(states, stem, j);
    }
  }

  // ----- side files that outlive or lose their job

  lemma AppendedDiffers(stem: string, ts: nat)
    ensures stem + "-" + Decimal(ts) != stem
  {
  }

  /** Cancelling removes the resume state of a pending job exactly when canceled/ has no job of its name. */
  lemma CancelCleansUpIffNoCollision(f: Files, ref: string, prefixed: bool, ts: nat)
    requires var r := Resolve(f.jobs, Inbox, Pending, ref, prefixed);
             r.Some? && r.value.bucket.Pending? && r.value.stem in f.metas
    ensures var stem := Resolve(f.jobs, Inbox, Pending, ref, prefixed).value.stem;
            stem !in Cancelled(f, ref, prefixed, ts).metas <==> Place(Canceled, stem) !in f.jobs
  {
  }

  /**
   Deleting a finished job drops the resume state of a job still waiting in pending/ exactly when the
   two have the same name; the daemon's next tick then sends the waiting job back to inbox/.
   */
  lemma DeleteDropsResumeStateOfNamesake(f: Files, ref: string, prefixed: bool, waiting: string, ts: nat)
    requires ResolveTerminal(f.jobs, ref, prefixed).Some?
    requires Place(Pending, waiting) in f.jobs && waiting in f.metas
    ensures var src := ResolveTerminal(f.jobs, ref, prefixed).value;
            var g := Deleted(f, ref, prefixed, src.stem);
            && (waiting in g.metas <==> waiting != src.stem)
            && (waiting in g.metas <==> Place(Pending, waiting) in RelocatedMisplaced(g, waiting, ts).jobs)
  {
  }

  /** No operation but these two touches the resume state of a waiting job it does not move. */
  lemma {:induction false} OthersKeepResumeState(f: Files, op: Op, waiting: string)
    requires !op.Delete? && !op.Cancel?
    requires Place(Pending, waiting) in f.jobs && waiting in f.metas
    requires MoveOf(f, op).Some? ==>
      var (src, to, ts) := MoveOf(f, op).value; src != Place(Pending, waiting) && Free(f, src, to, ts)
    ensures waiting in Apply(f, op).metas && Apply(f, op).metas[waiting] == f.metas[waiting]
    ensures Place(Pending, waiting) in Apply(f, op).jobs
  {
    match op
    case Gate(stem, ts, _) => AppendedDiffers(stem, ts);
    case Pause(stem, ts, _, _) => AppendedDiffers(stem, ts);
    case _ =>
  }

  // ----- the daemon's methods

  lemma {:induction false} RunSnoc(f: Files, ops: seq<Op>, op: Op)
    ensures Run(f, ops + [op]) == Apply(Run(f, ops), op)
    decreases |ops|
  {
    if ops == [] {
      assert [op][1..] == [];
    } else {
      assert (ops + [op])[1..] == ops[1..] + [op];
      RunSnoc(Apply(f, ops[0]), ops[1..], op);
    }
  }

  class Queue {
    var jobs: map<Place, Doc>
    var states: map<Place, string>
    var metas: map<string, string>
    var approvals: map<string, string>
    var errors: map<string, string>

    constructor (f: Files)
      ensures Contents() == f
    {
      jobs, states, metas, approvals, errors := f.jobs, f.states, f.metas, f.approvals, f.errors;
    }

    ghost function Contents(): Files
      reads this
    {
      Files(jobs, states, metas, approvals, errors)
    }

    method AddInboxPayload(stem: string, doc: Doc) returns (ok: bool)
      modifies this
      ensures ok <==> Place(Inbox, stem) !in old(jobs)
      ensures Contents() == Apply(old(Contents()), Submit(stem, doc))
    {
      ok := Place(Inbox, stem) !in jobs;
      if ok {
        jobs := jobs[Place(Inbox, stem) := doc];
      }
    }

    method MoveJobWithSidecar(src: Place, to: Bucket, ts: nat) returns (moved: Option<Place>)
      modifies this
      ensures moved == if src in old(jobs) then Some(Destination(old(jobs), src.stem, to, ts)) else None
      ensures Contents() == Moved(old(Contents()), src, to, ts)
    {
      var target := Place(to, src.stem);
      if target in jobs {
        target := Place(to, src.stem + "-" + Decimal(ts));
      }
      if src !in jobs {
        return None;
      }
      jobs := (jobs - {src})[target := jobs[src]];
      if src in states {
        states := (states - {src})[target := states[src]];
      }
      return Some(target);
    }

    method CancelJob(ref: string, prefixed: bool, ts: nat) returns (moved: Option<Place>)
      modifies this
      ensures moved.None? <==> Resolve(old(jobs), Inbox, Pending, ref, prefixed).None?
      ensures Contents() == Apply(old(Contents()), Cancel(ref, prefixed, ts))
    {
      var job := Resolve(jobs, Inbox, Pending, ref, prefixed);
      ResolveFinds(jobs, Inbox, Pending, ref, prefixed);
      if job.None? {
        return None;
      }
      moved := MoveJobWithSidecar(job.value, Canceled, ts);
      metas := metas - {moved.value.stem};
      approvals := approvals - {moved.value.stem};
      errors := errors - {moved.value.stem};
    }

    method RetryJob(ref: string, prefixed: bool, ts: nat) returns (moved: Option<Place>)
      modifies this
      ensures moved.None? <==> Resolve(old(jobs), Failed, Canceled, ref, prefixed).None?
      ensures Contents() == Apply(old(Contents()), Retry(ref, prefixed, ts))
    {
      var job := Resolve(jobs, Failed, Canceled, ref, prefixed);
      ResolveFinds(jobs, Failed, Canceled, ref, prefixed);
      if job.None? {
        return None;
      }
      if job.value.bucket.Failed? {
        errors := errors - {job.value.stem};
      }
      moved := MoveJobWithSidecar(job.value, Inbox, ts);
    }

    method DeleteTerminalJob(ref: string, prefixed: bool, confirm: string) returns (ok: bool)
      modifies this
      ensures Contents() == Apply(old(Contents()), Delete(ref, prefixed, confirm))
      ensures ok <==> ResolveTerminal(old(jobs), ref, prefixed).Some? &&
                      ResolveTerminal(old(jobs), ref, prefixed).value.stem == confirm
    {
      var job := ResolveTerminal(jobs, ref, prefixed);
      if job.None? || confirm != job.value.stem {
        return false;
      }
      jobs := jobs - {job.value};
      if job.value.bucket.Failed? {
        errors := errors - {job.value.stem};
      }
      metas := metas - {job.value.stem};
      approvals := approvals - {job.value.stem};
      return true;
    }

    /** `listing` is the sorted directory listing, `clock` the time of each move. */
    method AutoRelocateLegacyJobs(listing: seq<string>, clock: seq<nat>)
      requires |listing| == |clock|
      modifies this
      ensures Contents() ==
              Run(old(Contents()), seq(|listing|, i requires 0 <= i < |listing| => RelocateLegacy(listing[i], clock[i])))
      ensures forall j :: 0 <= j < |listing| ==> Place(Root, listing[j]) !in jobs
    {
      ghost var ops: seq<Op> := [];
      for i := 0 to |listing|
        invariant |ops| == i && forall j :: 0 <= j < i ==> ops[j] == RelocateLegacy(listing[j], clock[j])
        invariant Contents() == Run(old(Contents()), ops) && metas == old(metas)
        invariant forall j :: 0 <= j < i ==> Place(Root, listing[j]) !in jobs
      {
        RunSnoc(old(Contents()), ops, RelocateLegacy(listing[i], clock[i]));
        ops := ops + [RelocateLegacy(listing[i], clock[i])];
        var _ := MoveJobWithSidecar(Place(Root, listing[i]), Inbox, clock[i]);
      }
      assert ops == seq(|listing|, i requires 0 <= i < |listing| => RelocateLegacy(listing[i], clock[i]));
    }

    method AutoRelocateMisplacedPendingJobs(listing: seq<string>, clock: seq<nat>)
      requires |listing| == |clock|
      modifies this
      ensures Contents() ==
              Run(old(Contents()), seq(|listing|, i requires 0 <= i < |listing| => RelocateMisplaced(listing[i], clock[i])))
      ensures metas == old(metas) && forall j :: 0 <= j < |listing| ==> listing[j] in metas || Place(Pending, listing[j]) !in jobs
    {
      ghost var ops: seq<Op> := [];
      for i := 0 to |listing|
        invariant |ops| == i && forall j :: 0 <= j < i ==> ops[j] == RelocateMisplaced(listing[j], clock[j])
        invariant Contents() == Run(old(Contents()), ops) && metas == old(metas)
        invariant forall j :: 0 <= j < i ==> listing[j] in metas || Place(Pending, listing[j]) !in jobs
      {
        RunSnoc(old(Contents()), ops, RelocateMisplaced(listing[i], clock[i]));
        ops := ops + [RelocateMisplaced(listing[i], clock[i])];
        if listing[i] in metas {
          continue;
        }
        var _ := MoveJobWithSidecar(Place(Pending, listing[i]), Inbox, clock[i]);
      }
      assert ops == seq(|listing|, i requires 0 <= i < |listing| => RelocateMisplaced(listing[i], clock[i]));
    }
  }
}
