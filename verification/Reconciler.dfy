/**
 One complete reconcile, apply or revert: parse, inspect, commit, with a bounded retry.
 */
module Reconciling {
  import opened Models
  import opened PatchEngine
  import opened LineEndings
  import opened PatchParser
  import opened Backups
  import opened Outside
  import opened Transaction

  datatype ReconcileResult = ReconcileResult(
    inspection: PatchInspection,
    sourceSha: string,
    targetSha: Option<string>,
    mutated: bool,
    serviceError: Option<Reason>)

  /** What an action writes, given an inspection. */
  function OutputForAction(d: PatchDefinition, inspection: PatchInspection, action: Action): Option<string> {
    if action == Revert then inspection.reverse
    else if action == Apply || (action == Reconcile && d.autoApply) then inspection.forward
    else None
  }

  function BackupRequired(d: PatchDefinition, action: Action): bool {
    action == Revert || d.backupBeforeApply
  }

  function ErrorResult(e: PatchError): PatchInspection {
    PatchInspection(e.status, Some(e.reason), None, None)
  }

  /** What is written is within the limit. */
  lemma OutputFits(d: PatchDefinition, hunks: seq<Hunk>, raw: string, action: Action)
    ensures
      var output := OutputForAction(d, Inspection(hunks, raw), action);
      output.Some? ==> ByteLen(output.value) <= MAX_TARGET_BYTES && ByteLen(raw) <= MAX_TARGET_BYTES
  {
    hide Rewrite, Render;
  }

  lemma ApplicableIsNotReversed(hunks: seq<Hunk>, raw: string)
    ensures Inspection(hunks, raw).status == Applicable ==> Inspection(hunks, raw).reverse.None?
  {
    hide Rewrite, Render;
  }

  // ----- Reasons the engine can give

  predicate EngineReason(r: Reason) {
    r != DurabilityUnconfirmed && r != TargetChanged
  }

  lemma {:induction false} BodyReason(lines: seq<string>, b: Body)
    ensures ReadBody(lines, b).Failure? ==> EngineReason(ReadBody(lines, b).error.reason)
    decreases |lines| - b.next
  {
    if InBody(lines, b.next) && ReadLine(lines, b).Success? {
      BodyReason(lines, ReadLine(lines, b).value);
    }
  }

  lemma {:induction false} HunksReason(lines: seq<string>, index: nat, done: Hunks)
    ensures ReadHunks(lines, index, done).Failure? ==> EngineReason(ReadHunks(lines, index, done).error.reason)
    decreases |lines| - index
  {
    hide HunkHeader, ReadBody;
    if index < |lines| {
      HeaderReason(lines[index]);
      BodyReason(lines, Body([], [], [], index + 1));
      if NextHunk(lines, index, done).Success? {
        HunksReason(lines, NextHunk(lines, index, done).value.1, NextHunk(lines, index, done).value.0);
      }
    }
  }

  lemma HeaderReason(line: string)
    ensures HunkHeader(line).Failure? ==> EngineReason(HunkHeader(line).error.reason)
  {
    hide ReadRange;
  }

  lemma HeadersReason(lines: seq<string>, target: string)
    ensures Headers(lines, target).Failure? ==> EngineReason(Headers(lines, target).error.reason)
  {
    hide StripPair, UpTo, IsIndexLine, Split;
  }

  lemma ParseReason(raw: string, target: string, accepts: Oracle)
    ensures Parsed(raw, target, accepts).Failure? ==> EngineReason(Parsed(raw, target, accepts).error.reason)
  {
    hide Headers, ReadHunks, Split;
    var n := LineEndings.Normalize(raw, MAX_PATCH_BYTES);
    if n.Success? && EndsLine(n.value.text) {
      var text := n.value.text;
      var lines := Split(text[..|text| - 1], '\n');
      HeadersReason(lines, target);
      if Headers(lines, target).Success? {
        HunksReason(lines, Headers(lines, target).value, NoHunksYet);
      }
    }
  }

  lemma InspectionReason(hunks: seq<Hunk>, raw: string)
    ensures var r := Inspection(hunks, raw).reason; r.Some? ==> EngineReason(r.value)
  {
    hide Rewrite;
  }

  // ----- One attempt

  /** Observed mutation and durability, kept across attempts. */
  class Progress {
    const source: string
    var pending: bool
    var targetSha: Option<string>
    var mutated: bool

    constructor (source: string, pending: bool)
      ensures this.source == source && this.pending == pending && !mutated && targetSha == None
    {
      this.source, this.pending, this.targetSha, this.mutated := source, pending, None, false;
    }

    function Result(inspection: PatchInspection, error: Option<Reason>): ReconcileResult
      reads this
    {
      ReconcileResult(inspection, source, targetSha, mutated, error)
    }

    function Conclusion(attempted: Attempted): ReconcileResult
      reads this
    {
      ReportOf(attempted, source, targetSha, mutated, pending)
    }
  }

  datatype Attempted = Done(result: ReconcileResult) | Raised(error: PatchError) | OsRaised

  /** What is reported of an attempt that is not tried again. */
  function ReportOf(attempted: Attempted, source: string, targetSha: Option<string>, mutated: bool, pending: bool): ReconcileResult {
    match attempted
    case Done(result) => result
    case Raised(error) =>
      var inspection :=
        if pending && error.status != SecurityError then PatchInspection(ApplyError, Some(DurabilityUnconfirmed), None, None)
        else ErrorResult(error);
      ReconcileResult(inspection, source, targetSha, mutated, inspection.reason)
    case OsRaised =>
      ReconcileResult(PatchInspection(ApplyError, Some(FilesystemError), None, None), source, targetSha, mutated, Some(FilesystemError))
  }

  /** When no call fails, an attempt gets to its result, or the target is gone, too long, or was changed meanwhile. */
  predicate Concludes(r: Attempted, mutated: bool, visited: bool) {
    r.Done? || (r.Raised? && Outdated(r.error, visited && !mutated))
  }

  /** What one attempt leaves owed, done and noted, from what was owed and done before. */
  ghost predicate Durable(r: Attempted, mutated: bool, wasPending: bool, pending: bool, wasSynced: bool, synced: bool, added: seq<Event>) {
    && (!mutated ==> NoReplace(added) && (wasSynced ==> synced))
    && (!mutated && wasPending && !pending ==> synced && Synced in added)
    && (!mutated && !wasPending ==> synced == wasSynced)
    && (mutated || !wasPending ==> !pending)
    && (r.Done? ==> !pending && r.result.mutated == mutated && (mutated || wasPending || wasSynced ==> synced))
    && (r.Raised? && !pending && (mutated || wasPending || wasSynced) ==> (r.error.reason == DurabilityUnconfirmed <==> !synced))
    && (r.Raised? && r.error.reason == DurabilityUnconfirmed ==> r.error.status == ApplyError && (pending || mutated))
    && (r.OsRaised? ==> !mutated && !pending)
  }

  /** The same of attempts that wrote nothing and are followed by another one. */
  ghost predicate Waiting(wasPending: bool, pending: bool, wasSynced: bool, synced: bool, added: seq<Event>) {
    && NoReplace(added) && (pending ==> wasPending) && (wasSynced ==> synced)
    && (wasPending && !pending ==> synced && Synced in added)
    && (!wasPending ==> synced == wasSynced)
  }

  /** Where a run began, and what the outside has in store for it. */
  datatype Beginning = Beginning(
    target: Option<File>, log: seq<Event>, synced: bool, pending: bool, moment: nat, storeMoment: nat,
    trouble: nat -> bool, visits: nat -> bool, storeTrouble: nat -> bool)
  {
    /** No call has failed up to these moments. */
    ghost predicate Steady(now: nat, storeNow: nat) {
      Quiet(trouble, moment, now) && Quiet(storeTrouble, storeMoment, storeNow)
    }

    ghost predicate Calm(now: nat, storeNow: nat) {
      Steady(now, storeNow) && Quiet(visits, moment, now)
    }

    /** It has all it needs to be carried out at once. */
    predicate Ready(d: PatchDefinition, accepts: Oracle, source: string) {
      target.Some? && Fits(target.value) && Parsed(source, d.targetPath, accepts).Success?
    }

    /** It has all it needs to try. */
    predicate Able(d: PatchDefinition, accepts: Oracle, source: string) {
      !pending && Parsed(source, d.targetPath, accepts).Success?
    }

    /** The attempts so far were all interfered with. */
    ghost predicate Unlucky(attempt: nat, ready: bool, able: bool, now: nat, storeNow: nat)
      requires now >= moment
    {
      && (attempt > 0 ==> !(ready && Calm(now, storeNow)))
      && (able && Steady(now, storeNow) ==> Marks(visits, moment, now) >= attempt)
    }

    /** What the run comes to if nothing, or no call, went wrong. */
    ghost predicate Lucky(r: Attempted, mutated: bool, carriedOut: bool, ready: bool, able: bool, now: nat, storeNow: nat)
      requires now >= moment
    {
      && (ready && Calm(now, storeNow) ==> carriedOut)
      && (able && Steady(now, storeNow) ==> Concludes(r, mutated, Marks(visits, moment, now) >= 3))
    }
  }

  /** The one write of a run, among the events the run added. */
  datatype Account = Account(opening: seq<Event>, snapshot: File, write: Write, output: string)

  /**
   The output is what the action calls for on the snapshot read just before; the snapshot held from that
   read to the check; the backup came first; an outstanding sync was settled first; nothing else replaced.
   */
  ghost predicate Honest(added: seq<Event>, a: Account, d: PatchDefinition, hunks: seq<Hunk>, action: Action, owed: bool) {
    && added == a.opening + [Observed(a.snapshot)] + Events(a.write, a.snapshot, a.output)
    && NoReplace(a.opening) && Permitted in a.opening
    && Guarded(a.write, a.snapshot, BackupRequired(d, action))
    && OutputForAction(d, Inspection(hunks, a.snapshot.data), action) == Some(a.output)
    && (owed ==> Synced in a.opening + a.write.pre)
  }

  /**
   What a run says about durability, whatever happened: an owed sync is reported as `durability_unconfirmed`,
   or access was denied to a run that had been told about it and changed nothing. A run that changes nothing
   leaves nothing newly owed.
   */
  predicate Reports(pending: bool, wasSynced: bool, r: ReconcileResult, synced: bool) {
    && (!synced ==> (r.inspection.status == ApplyError && r.inspection.reason == Some(DurabilityUnconfirmed)) ||
                    (r.inspection.status == SecurityError && pending && !r.mutated))
    && (r.inspection.reason == Some(DurabilityUnconfirmed) ==> !synced || (pending && !r.mutated))
    && (!r.mutated && wasSynced ==> synced)
  }

  /** The error a run reports once it got as far as its inspection. */
  function ReportedError(action: Action, r: ReconcileResult): Option<Reason> {
    if r.mutated then r.inspection.reason
    else if action == Revert && r.inspection.status == Applicable then Some(NotApplied)
    else if r.inspection.status == Applied || r.inspection.status == Applicable then None
    else r.inspection.reason
  }

  /** A run that looked at the target and left it as it was had nothing to write. */
  predicate Fulfilled(d: PatchDefinition, action: Action, r: ReconcileResult) {
    && (!r.mutated ==> OutputForAction(d, r.inspection, action).None?)
    && r.serviceError == ReportedError(action, r)
  }

  /** The action was carried out on these bytes: what it calls for is there now, and what is reported is true of it. */
  ghost predicate CarriedOut(d: PatchDefinition, hunks: seq<Hunk>, action: Action, was: string, r: ReconcileResult, now: Option<File>) {
    var output := OutputForAction(d, Inspection(hunks, was), action);
    && r.mutated == output.Some? && now.Some?
    && now.value.data == (if output.Some? then output.value else was)
    && r.inspection == Inspection(hunks, now.value.data)
  }

  /** The reported status and hash are those of bytes observed in this run. */
  ghost predicate Truthful(r: ReconcileResult, hunks: seq<Hunk>, seen: Option<File>, added: seq<Event>) {
    && seen.Some? && Observed(seen.value) in added
    && r.inspection == Inspection(hunks, seen.value.data) && r.targetSha == Some(seen.value.data)
  }

  lemma StillTruthful(r: Attempted, hunks: seq<Hunk>, seen: Option<File>, before: seq<Event>, more: seq<Event>)
    requires r.Done? ==> Truthful(r.result, hunks, seen, more)
    ensures r.Done? ==> Truthful(r.result, hunks, seen, before + more)
  {
    hide Inspection;
  }

  /** Events after the rename belong to the write as well. */
  lemma LaterEvents(w: Write, snapshot: File, output: string, backedUp: bool, more: seq<Event>)
    returns (w': Write, added: seq<Event>)
    requires Guarded(w, snapshot, backedUp) && NoReplace(more)
    ensures added == Events(w', snapshot, output) == Events(w, snapshot, output) + more
    ensures Guarded(w', snapshot, backedUp)
  {
    w' := w.(post := w.post + more);
    added := Events(w', snapshot, output);
    SeqAssociative(w.pre + [Checked(snapshot, w.stored)] + w.gap + [Replaced(w.lost, output)], w.post, more);
  }

  class Reconciler {
    const disk: Disk
    const store: BackupStore
    const accepts: Oracle

    constructor (disk: Disk, store: BackupStore, accepts: Oracle)
      ensures this.disk == disk && this.store == store && this.accepts == accepts
    {
      this.disk, this.store, this.accepts := disk, store, accepts;
    }

    ghost predicate Ready() reads this, disk, store {
      disk.Valid() && store.Recorded()
    }

    /** Settle an outstanding directory sync before anything else is written. */
    method ConfirmDurability(snapshot: File) returns (e: Option<PatchError>, ghost added: seq<Event>)
      requires disk.Valid() && snapshot.stamp < disk.nextStamp
      modifies disk
      ensures disk.Valid() && disk.nextStamp >= old(disk.nextStamp) && disk.temps == old(disk.temps)
      ensures disk.log == old(disk.log) + added && NoReplace(added)
      ensures e.None? ==> disk.synced && disk.target == Some(snapshot) && added == [Synced]
      ensures disk.moments >= old(disk.moments)
      ensures Fits(snapshot) && old(disk.target) == Some(snapshot) && disk.Calm(old(disk.moments)) ==> e.None?
      ensures e.Some? ==> disk.synced == old(disk.synced)
      ensures e.Some? && e.value.reason == DurabilityUnconfirmed ==> e.value.status == ApplyError
    {
      e, added := VerifySnapshot(disk, snapshot);
      if e.None? {
        var ok;
        ok, added := SyncDirectory(disk);
        if !ok {
          e := Some(PatchError(DurabilityUnconfirmed, ApplyError));
        }
      }
    }

    /** After a replace of unknown durability: note what the target holds now, if it can be read. */
    method ObserveReplacedTarget(progress: Progress) returns (ghost more: seq<Event>)
      requires Ready()
      modifies disk`target, disk`nextStamp, disk`log, disk`moments, progress`targetSha
      ensures Ready() && disk.nextStamp >= old(disk.nextStamp) && disk.moments >= old(disk.moments)
      ensures disk.log == old(disk.log) + more && NoReplace(more)
      ensures progress.targetSha.Some? ==> disk.target.Some? && progress.targetSha.value == disk.target.value.data
      ensures disk.Steady(old(disk.moments)) && disk.target.Some? && Fits(disk.target.value) ==> progress.targetSha.Some?
    {
      hide BackupStore.Recorded;
      var current;
      current, more := disk.Read();
      progress.targetSha := if current.Success? then Some(current.value.data) else None;
    }

    /** Commit, and record honestly what happened to the target. */
    method Replace(d: PatchDefinition, patch: ParsedPatch, snapshot: File, output: string, action: Action,
                   retention: nat, progress: Progress)
      returns (r: Attempted, ghost w: Write, ghost added: seq<Event>, ghost seen: Option<File>)
      requires Ready() && snapshot.stamp < disk.nextStamp && retention >= 1
      requires !progress.mutated && !progress.pending
      modifies disk, store, progress
      ensures Ready() && disk.nextStamp >= old(disk.nextStamp) && old(store.history) <= store.history
      ensures disk.moments >= old(disk.moments) && store.moments >= old(store.moments)
      ensures Fits(snapshot) && ByteLen(output) <= MAX_TARGET_BYTES && old(disk.target) == Some(snapshot) &&
              disk.Calm(old(disk.moments)) && store.Calm(old(store.moments)) ==>
                r.Done? && disk.target.Some? && disk.target.value.data == output && r.result.inspection == Inspection(patch.hunks, output)
      ensures old(disk.target) == Some(snapshot) && disk.Steady(old(disk.moments)) && store.Calm(old(store.moments)) ==>
                Concludes(r, progress.mutated, disk.Visited(old(disk.moments)))
      ensures r.Done? ==> r.result.serviceError == r.result.inspection.reason
      ensures disk.log == old(disk.log) + added && !progress.pending
      ensures progress.mutated ==> added == Events(w, snapshot, output) && Guarded(w, snapshot, BackupRequired(d, action))
      ensures progress.mutated ==> old(disk.target) == Some(snapshot)
      ensures !progress.mutated ==> NoReplace(added) && disk.synced == old(disk.synced)
      ensures r.Done? ==> progress.mutated && disk.synced && r.result.mutated && Truthful(r.result, patch.hunks, seen, added)
      ensures r.Raised? && (progress.mutated || old(disk.synced)) ==> (r.error.reason == DurabilityUnconfirmed <==> !disk.synced)
      ensures r.Raised? && r.error.reason == DurabilityUnconfirmed ==> progress.mutated
      ensures r.Raised? && r.error.reason == DurabilityUnconfirmed ==> r.error.status == ApplyError
      ensures r.OsRaised? ==> !progress.mutated
      ensures !r.OsRaised? ==> disk.temps == old(disk.temps)
      ensures TempsKept(old(disk.temps), disk.temps)
    {
      hide Inspection, Guarded, Events, Spares, Retained, Truthful, Holds, BackupRequired, BackupStore.Recorded, TempsKept, StoredKept;
      AllKept(store.entries, disk.temps);
      seen := None;
      var outcome;
      ghost var name;
      outcome, w, added, name := Commit(disk, store, snapshot, output, BackupRequired(d, action));
      match outcome {
        case OsFailed => r := OsRaised;
        case Rejected(error) => r := Raised(error);
        case Committed =>
          r, w, added, seen := Landed(outcome, patch, retention, progress, w, snapshot, output, BackupRequired(d, action));
        case CommitError(error, afterReplace) =>
          if afterReplace {
            r, w, added, seen := Landed(outcome, patch, retention, progress, w, snapshot, output, BackupRequired(d, action));
          } else {
            r := Raised(error);
          }
      }
    }

    /** The target was replaced: that is noted first, whatever comes after. */
    method Landed(outcome: CommitOutcome, patch: ParsedPatch, retention: nat, progress: Progress, ghost done: Write,
                  ghost snapshot: File, ghost output: string, ghost backedUp: bool)
      returns (r: Attempted, ghost w: Write, ghost added: seq<Event>, ghost seen: Option<File>)
      requires Ready() && retention >= 1 && outcome.Wrote() && Guarded(done, snapshot, backedUp)
      requires outcome.CommitError? ==> outcome.error == PatchError(DurabilityUnconfirmed, ApplyError)
      modifies disk`target, disk`nextStamp, disk`log, disk`moments, store, progress`mutated, progress`targetSha
      ensures Ready() && disk.nextStamp >= old(disk.nextStamp) && old(store.history) <= store.history
      ensures disk.moments >= old(disk.moments) && store.moments >= old(store.moments)
      ensures outcome.Committed? && disk.Calm(old(disk.moments)) && store.Calm(old(store.moments)) &&
              old(disk.target).Some? && Fits(old(disk.target).value) ==>
                r.Done? && disk.target == old(disk.target) == seen && r.result.inspection == Inspection(patch.hunks, seen.value.data)
      ensures outcome.Committed? && disk.Steady(old(disk.moments)) && store.Calm(old(store.moments)) ==> Concludes(r, true, false)
      ensures r.Done? ==> r.result.serviceError == r.result.inspection.reason
      ensures progress.mutated && added == Events(w, snapshot, output) && Guarded(w, snapshot, backedUp)
      ensures forall before | old(disk.log) == before + Events(done, snapshot, output) :: disk.log == before + added
      ensures r.Done? ==> outcome.Committed? && r.result.mutated && Truthful(r.result, patch.hunks, seen, added)
      ensures r.Raised? ==> (r.error.reason == DurabilityUnconfirmed <==> !outcome.Committed?)
      ensures r.Raised? && r.error.reason == DurabilityUnconfirmed ==> r.error.status == ApplyError
      ensures !r.OsRaised?
    {
      hide Inspection, Guarded, Events, Spares, Retained, Truthful, BackupStore.Recorded;
      seen := None;
      progress.mutated := true;
      ghost var more;
      match outcome {
        case CommitError(error, _) =>
          more := ObserveReplacedTarget(progress);
          r := Raised(error);
        case Committed =>
          r, more, seen := Conclude(patch, retention, progress);
      }
      StillTruthful(r, patch.hunks, seen, Events(done, snapshot, output), more);
      w, added := LaterEvents(done, snapshot, output, backedUp, more);
      forall before | old(disk.log) == before + Events(done, snapshot, output) ensures disk.log == before + added {
        SeqAssociative(before, Events(done, snapshot, output), more);
      }
    }

    /** After a durable replace: look at the result and drop old backups. */
    method Conclude(patch: ParsedPatch, retention: nat, progress: Progress)
      returns (r: Attempted, ghost more: seq<Event>, ghost seen: Option<File>)
      requires Ready() && retention >= 1 && progress.mutated
      modifies disk`target, disk`nextStamp, disk`log, disk`moments, store, progress`targetSha
      ensures Ready() && disk.nextStamp >= old(disk.nextStamp) && old(store.history) <= store.history
      ensures disk.moments >= old(disk.moments) && store.moments >= old(store.moments)
      ensures disk.Calm(old(disk.moments)) && store.Calm(old(store.moments)) && old(disk.target).Some? && Fits(old(disk.target).value) ==>
                r.Done? && disk.target == old(disk.target) == seen && r.result.inspection == Inspection(patch.hunks, seen.value.data)
      ensures disk.Steady(old(disk.moments)) && store.Calm(old(store.moments)) ==> Concludes(r, true, false)
      ensures r.Done? ==> r.result.serviceError == r.result.inspection.reason
      ensures disk.log == old(disk.log) + more && NoReplace(more)
      ensures r.Done? ==> r.result.mutated && Truthful(r.result, patch.hunks, seen, more)
      ensures r.Raised? ==> r.error.reason != DurabilityUnconfirmed
      ensures !r.OsRaised?
    {
      hide Inspection, Spares, Retained;
      seen := None;
      var current;
      current, more := disk.Read();
      if current.Failure? {
        return Raised(current.error), more, seen;
      }
      disk.log := disk.log + [Observed(current.value)];
      more := more + [Observed(current.value)];
      progress.targetSha := Some(current.value.data);
      var inspection := Inspect(patch, current.value.data);
      var pruned := store.Prune(retention);
      if pruned {
        seen := Some(current.value);
        r := Done(progress.Result(inspection, inspection.reason));
      } else {
        var moved: bool := *;
        r := Raised(if moved then PatchError(DirectoryChanged, SecurityError) else PatchError(BackupPruneFailed, ApplyError));
      }
    }

    /** Read the target, and note what was seen. */
    method Look(progress: Progress) returns (problem: Option<PatchError>, file: File, ghost others: seq<Event>)
      requires Ready()
      modifies disk`target, disk`nextStamp, disk`log, disk`moments, progress`targetSha
      ensures Ready() && disk.nextStamp >= old(disk.nextStamp) && disk.moments >= old(disk.moments)
      ensures NoReplace(others)
      ensures problem.Some? ==> problem.value.reason != DurabilityUnconfirmed && disk.log == old(disk.log) + others
      ensures problem.None? ==> disk.log == old(disk.log) + others + [Observed(file)] && progress.targetSha == Some(file.data)
      ensures problem.None? ==> disk.target == Some(file) && file.stamp < disk.nextStamp
      ensures disk.Calm(old(disk.moments)) && old(disk.target).Some? && Fits(old(disk.target).value) ==>
                problem.None? && disk.target == old(disk.target)
      ensures disk.Steady(old(disk.moments)) && problem.Some? ==> Outdated(problem.value, false)
    {
      hide BackupStore.Recorded;
      var snapshot;
      snapshot, others := disk.Read();
      if snapshot.Success? {
        problem, file := None, snapshot.value;
        disk.log := disk.log + [Observed(file)];
        progress.targetSha := Some(file.data);
      } else {
        problem, file := Some(snapshot.error), File("", 0);
      }
    }

    lemma AfterPermission(log: seq<Event>, others: seq<Event>, file: File)
      requires NoReplace(others)
      ensures NoReplace([Permitted]) && NoReplace([Permitted] + others) && Permitted in [Permitted] + others
      ensures log + [Permitted] + others == log + ([Permitted] + others)
      ensures log + [Permitted] + others + [Observed(file)] == log + ([Permitted] + others) + [Observed(file)]
    {
    }

    /** Policy, parse and read, in that order. */
    method Observe(d: PatchDefinition, progress: Progress)
      returns (problem: Option<PatchError>, patch: ParsedPatch, file: File, ghost opening: seq<Event>)
      requires Ready()
      modifies disk`target, disk`nextStamp, disk`log, disk`moments, progress`targetSha
      ensures Ready() && disk.nextStamp >= old(disk.nextStamp) && disk.moments >= old(disk.moments)
      ensures NoReplace(opening)
      ensures problem.Some? ==> problem.value.reason != DurabilityUnconfirmed && disk.log == old(disk.log) + opening
      ensures problem.None? ==> disk.log == old(disk.log) + opening + [Observed(file)] && progress.targetSha == Some(file.data)
      ensures problem.None? ==> Permitted in opening
      ensures problem.None? ==> disk.target == Some(file) && file.stamp < disk.nextStamp
      ensures problem.None? ==> Parsed(progress.source, d.targetPath, accepts) == Success(patch)
      ensures disk.Calm(old(disk.moments)) && Parsed(progress.source, d.targetPath, accepts).Success? &&
              old(disk.target).Some? && Fits(old(disk.target).value) ==>
                problem.None? && disk.target == old(disk.target)
      ensures disk.Steady(old(disk.moments)) && Parsed(progress.source, d.targetPath, accepts).Success? && problem.Some? ==>
                Outdated(problem.value, false)
    {
      hide Parsed, NoReplace, Quiet, BackupStore.Recorded, Fits, Outdated;
      patch, file := ParsedPatch("", []), File("", 0);
      ghost var started := disk.moments;
      problem, opening := CheckPolicy(disk);
      NothingReplaced();
      AfterPermission(old(disk.log), [], file);
      if problem.None? {
        ParseReason(progress.source, d.targetPath, accepts);
        var parsed := Parse(progress.source, d.targetPath, accepts);
        if parsed.Failure? {
          problem := Some(parsed.error);
        } else {
          patch := parsed.value;
          ghost var others, asked := [], disk.moments;
          problem, file, others := Look(progress);
          AfterPermission(old(disk.log), others, file);
          opening := opening + others;
          QuietParts(disk.trouble, started, asked, disk.moments);
          QuietParts(disk.visits, started, asked, disk.moments);
        }
      }
    }

    /** Confirm durability if it is owed. */
    method Settle(file: File, progress: Progress) returns (e: Option<PatchError>, ghost settled: seq<Event>)
      requires disk.Valid() && file.stamp < disk.nextStamp && (progress.pending || disk.target == Some(file))
      modifies disk, progress`pending
      ensures disk.Valid() && disk.nextStamp >= old(disk.nextStamp) && disk.temps == old(disk.temps)
      ensures disk.log == old(disk.log) + settled && NoReplace(settled)
      ensures disk.moments >= old(disk.moments)
      ensures disk.Calm(old(disk.moments)) && Fits(file) && old(disk.target) == Some(file) ==> e.None? && disk.target == Some(file)
      ensures !old(progress.pending) ==> e.None? && disk.target == old(disk.target)
      ensures e.None? ==> disk.synced == (old(progress.pending) || old(disk.synced))
      ensures e.None? ==> !progress.pending && settled == if old(progress.pending) then [Synced] else []
      ensures e.Some? ==> old(progress.pending) && progress.pending && disk.synced == old(disk.synced)
      ensures e.Some? && e.value.reason == DurabilityUnconfirmed ==> e.value.status == ApplyError
    {
      e, settled := None, [];
      if progress.pending {
        e, settled := ConfirmDurability(file);
        if e.None? {
          progress.pending := false;
        }
      }
    }

    /** Inspect the observed bytes, and write if the action calls for it. */
    method Act(d: PatchDefinition, patch: ParsedPatch, file: File, action: Action, retention: nat, progress: Progress)
      returns (r: Attempted, ghost w: Write, ghost output: string, ghost commit: seq<Event>, ghost seen: Option<File>)
      requires Ready() && file.stamp < disk.nextStamp && retention >= 1
      requires !progress.mutated && !progress.pending && progress.targetSha == Some(file.data)
      modifies disk, store, progress
      ensures Ready() && disk.nextStamp >= old(disk.nextStamp) && old(store.history) <= store.history
      ensures disk.moments >= old(disk.moments) && store.moments >= old(store.moments)
      ensures Fits(file) && old(disk.target) == Some(file) && disk.Calm(old(disk.moments)) && store.Calm(old(store.moments)) ==>
                r.Done? && CarriedOut(d, patch.hunks, action, file.data, r.result, disk.target)
      ensures old(disk.target) == Some(file) && disk.Steady(old(disk.moments)) && store.Calm(old(store.moments)) ==>
                Concludes(r, progress.mutated, disk.Visited(old(disk.moments)))
      ensures r.Done? ==> Fulfilled(d, action, r.result)
      ensures disk.log == old(disk.log) + commit && !progress.pending
      ensures progress.mutated ==> commit == Events(w, file, output) && Guarded(w, file, BackupRequired(d, action)) &&
                                   OutputForAction(d, Inspection(patch.hunks, file.data), action) == Some(output)
      ensures !progress.mutated ==> NoReplace(commit) && disk.synced == old(disk.synced)
      ensures r.Done? && progress.mutated ==> disk.synced
      ensures r.Done? ==> r.result.mutated == progress.mutated &&
                          Truthful(r.result, patch.hunks, seen, [Observed(file)] + commit)
      ensures r.Raised? && (progress.mutated || old(disk.synced)) ==> (r.error.reason == DurabilityUnconfirmed <==> !disk.synced)
      ensures r.Raised? && r.error.reason == DurabilityUnconfirmed ==> progress.mutated
      ensures r.Raised? && r.error.reason == DurabilityUnconfirmed ==> r.error.status == ApplyError
      ensures r.OsRaised? ==> !progress.mutated
      ensures !r.OsRaised? ==> disk.temps == old(disk.temps)
      ensures TempsKept(old(disk.temps), disk.temps)
    {
      hide Inspection, Guarded, Events, BackupRequired, BackupStore.Recorded, TempsKept;
      AllKept(store.entries, disk.temps);
      w, output, commit, seen := Write([], map[], [], None, []), "", [], Some(file);
      var inspection := Inspect(patch, file.data);
      assert ([Observed(file)] + commit)[0] == Observed(file);
      ApplicableIsNotReversed(patch.hunks, file.data);
      if action == Revert && inspection.status == Applicable {
        return Done(progress.Result(inspection, Some(NotApplied))), w, output, commit, seen;
      }
      var toWrite := OutputForAction(d, inspection, action);
      if toWrite.None? {
        var error := if inspection.status == Applied || inspection.status == Applicable then None else inspection.reason;
        return Done(progress.Result(inspection, error)), w, output, commit, seen;
      }
      output := toWrite.value;
      OutputFits(d, patch.hunks, file.data, action);
      r, w, commit, seen := Replace(d, patch, file, toWrite.value, action, retention, progress);
      StillTruthful(r, patch.hunks, seen, [Observed(file)], commit);
    }

    /** One attempt: observe, settle durability, and act. */
    method Attempt(d: PatchDefinition, action: Action, retention: nat, progress: Progress)
      returns (r: Attempted, ghost patch: ParsedPatch, ghost a: Account, ghost added: seq<Event>, ghost seen: Option<File>)
      requires Ready() && retention >= 1 && !progress.mutated
      modifies disk, store, progress
      ensures Ready() && old(store.history) <= store.history
      ensures disk.moments >= old(disk.moments) && store.moments >= old(store.moments)
      ensures disk.Calm(old(disk.moments)) && store.Calm(old(store.moments)) && old(disk.target).Some? && Fits(old(disk.target).value) &&
              Parsed(progress.source, d.targetPath, accepts).Success? ==>
                r.Done? && CarriedOut(d, patch.hunks, action, old(disk.target).value.data, r.result, disk.target)
      ensures !old(progress.pending) && disk.Steady(old(disk.moments)) && store.Calm(old(store.moments)) &&
              Parsed(progress.source, d.targetPath, accepts).Success? ==>
                Concludes(r, progress.mutated, disk.Visited(old(disk.moments)))
      ensures r.Done? ==> Fulfilled(d, action, r.result)
      ensures disk.log == old(disk.log) + added
      ensures progress.mutated ==> Honest(added, a, d, patch.hunks, action, old(progress.pending))
      ensures r.Done? || progress.mutated ==> Parsed(progress.source, d.targetPath, accepts) == Success(patch)
      ensures Durable(r, progress.mutated, old(progress.pending), progress.pending, old(disk.synced), disk.synced, added)
      ensures r.Done? ==> Truthful(r.result, patch.hunks, seen, added)
      ensures r.Done? ==> Permitted in added
      ensures !r.OsRaised? ==> disk.temps == old(disk.temps)
      ensures TempsKept(old(disk.temps), disk.temps)
    {
      hide Inspection, Guarded, Events, Parsed, BackupRequired, BackupStore.Recorded, Honest, Truthful, TempsKept, Fulfilled, CarriedOut,
        Disk.Valid, Fits, NoReplace, Quiet;
      AllKept(store.entries, disk.temps);
      a, seen := Account([], File("", 0), Write([], map[], [], None, []), ""), None;
      var problem, parsed, file;
      ghost var opening;
      ghost var started := disk.moments;
      problem, parsed, file, opening := Observe(d, progress);
      ghost var observed := disk.moments;
      patch := parsed;
      if problem.Some? {
        r, added := Raised(problem.value), opening;
      } else {
        var unsettled;
        ghost var settled;
        unsettled, settled := Settle(file, progress);
        ghost var decided := disk.moments;
        if unsettled.Some? {
          r, added := Raised(unsettled.value), opening + [Observed(file)] + settled;
          NoneReplace(old(disk.log), opening, file, settled);
        } else {
          ghost var w, commit, output;
          r, w, output, commit, seen := Act(d, parsed, file, action, retention, progress);
          a, added := Combine(old(disk.log), opening, file, settled, w, commit, output, d, parsed.hunks, action, progress.mutated,
                              old(progress.pending));
          LaterTruthful(r, parsed.hunks, seen, opening, file, settled, commit);
        }
        QuietParts(disk.trouble, started, observed, disk.moments);
        QuietParts(disk.trouble, observed, decided, disk.moments);
        QuietParts(disk.visits, started, observed, disk.moments);
        QuietParts(disk.visits, observed, decided, disk.moments);
      }
    }

    lemma NoneReplace(log: seq<Event>, opening: seq<Event>, file: File, settled: seq<Event>)
      requires NoReplace(opening) && NoReplace(settled)
      ensures NoReplace(opening + [Observed(file)] + settled)
      ensures log + opening + [Observed(file)] + settled == log + (opening + [Observed(file)] + settled)
    {
    }

    lemma LaterTruthful(r: Attempted, hunks: seq<Hunk>, seen: Option<File>, opening: seq<Event>, file: File,
                        settled: seq<Event>, commit: seq<Event>)
      requires r.Done? ==> Truthful(r.result, hunks, seen, [Observed(file)] + commit)
      ensures r.Done? ==> Truthful(r.result, hunks, seen, opening + [Observed(file)] + settled + commit)
    {
      hide Inspection;
      assert forall e :: e in [Observed(file)] + commit ==> e in opening + [Observed(file)] + settled + commit;
    }

    /** The account of an attempt, from its parts. */
    lemma Combine(log: seq<Event>, opening: seq<Event>, file: File, settled: seq<Event>, w: Write, commit: seq<Event>,
                  output: string, d: PatchDefinition, hunks: seq<Hunk>, action: Action, mutated: bool, owed: bool)
      returns (a: Account, added: seq<Event>)
      requires NoReplace(opening) && Permitted in opening && (settled == [] || settled == [Synced])
      requires mutated ==> commit == Events(w, file, output) && Guarded(w, file, BackupRequired(d, action))
      requires mutated ==> OutputForAction(d, Inspection(hunks, file.data), action) == Some(output)
      requires owed ==> settled == [Synced]
      ensures added == opening + [Observed(file)] + settled + commit
      ensures log + opening + [Observed(file)] + settled + commit == log + added
      ensures mutated ==> Honest(added, a, d, hunks, action, owed)
      ensures !mutated && NoReplace(commit) ==> NoReplace(added)
      ensures owed ==> Synced in added
      ensures Permitted in added
    {
      hide Inspection;
      assert owed ==> settled[0] == Synced && (opening + [Observed(file)] + settled + commit)[|opening| + 1] == Synced;
      added := opening + [Observed(file)] + settled + commit;
      a := Account(opening, file, w, output);
      if mutated {
        var w' := SettledEvents(settled, w, file, output, BackupRequired(d, action));
        a := Account(opening, file, w', output);
        SeqAssociative(opening + [Observed(file)], settled, commit);
      }
    }

    lemma SettledEvents(settled: seq<Event>, w: Write, snapshot: File, output: string, backedUp: bool) returns (w': Write)
      requires Guarded(w, snapshot, backedUp) && NoReplace(settled) && NoExternal(settled)
      ensures Events(w', snapshot, output) == settled + Events(w, snapshot, output)
      ensures Guarded(w', snapshot, backedUp) && w'.pre == settled + w.pre
    {
      w' := w.(pre := settled + w.pre);
    }

    lemma DurableAgain(r: Attempted, mutated: bool, told: bool, owed: bool, pending: bool, wasSynced: bool, mid: bool, synced: bool,
                       before: seq<Event>, more: seq<Event>)
      requires Waiting(told, owed, wasSynced, mid, before) && Durable(r, mutated, owed, pending, mid, synced, more)
      ensures Durable(r, mutated, told, pending, wasSynced, synced, before + more)
      ensures !mutated ==> Waiting(told, pending, wasSynced, synced, before + more)
      ensures !told ==> !owed && !pending
    {
    }

    /** What the attempts so far and one more come to. */
    lemma OneMoreAttempt(start: Beginning, attempt: nat, ready: bool, able: bool, middle: nat, storeMiddle: nat, now: nat, storeNow: nat,
                         r: Attempted, mutated: bool, carriedOut: bool)
      requires start.moment <= middle <= now && start.storeMoment <= storeMiddle <= storeNow && attempt < 3
      requires start.Unlucky(attempt, ready, able, middle, storeMiddle)
      requires attempt == 0 ==> middle == start.moment && storeMiddle == start.storeMoment
      requires attempt == 0 && ready && start.Calm(now, storeNow) ==> r.Done? && carriedOut
      requires able && Quiet(start.trouble, middle, now) && Quiet(start.storeTrouble, storeMiddle, storeNow) ==>
                 Concludes(r, mutated, !Quiet(start.visits, middle, now))
      ensures r.Raised? ==> start.Unlucky(if r.error.reason == TargetChanged && !mutated then attempt + 1 else 0, ready, able, now, storeNow)
      ensures attempt == 2 || !r.Raised? || r.error.reason != TargetChanged || mutated || !able ==>
                start.Lucky(r, mutated, carriedOut, ready, able, now, storeNow)
    {
      QuietParts(start.trouble, start.moment, middle, now);
      QuietParts(start.visits, start.moment, middle, now);
      QuietParts(start.storeTrouble, start.storeMoment, storeMiddle, storeNow);
      MarksSplit(start.visits, start.moment, middle, now);
      hide Quiet, Marks;
      if !Quiet(start.visits, middle, now) {
        NotQuietIsMarked(start.visits, middle, now);
      }
    }

    lemma NothingWaits(pending: bool, synced: bool)
      ensures Waiting(pending, pending, synced, synced, [])
    {
    }

    /**
     One attempt after others that wrote nothing. It is followed by another one exactly if others changed the target
     before anything was written, and it was not the third.
     */
    method Again(d: PatchDefinition, action: Action, retention: nat, progress: Progress, attempt: nat, ghost start: Beginning,
                 ghost before: seq<Event>)
      returns (r: Attempted, again: bool, ghost patch: ParsedPatch, ghost a: Account, ghost added: seq<Event>, ghost seen: Option<File>)
      requires Ready() && retention >= 1 && attempt < 3 && !progress.mutated && disk.log == start.log + before
      requires Waiting(start.pending, progress.pending, start.synced, disk.synced, before)
      requires disk.moments >= start.moment && store.moments >= start.storeMoment
      requires attempt == 0 ==> disk.target == start.target && disk.moments == start.moment && store.moments == start.storeMoment
      requires start.Unlucky(attempt, start.Ready(d, accepts, progress.source), start.Able(d, accepts, progress.source),
                             disk.moments, store.moments)
      requires start.trouble == disk.trouble && start.visits == disk.visits && start.storeTrouble == store.trouble
      modifies disk, store, progress
      ensures Ready() && old(store.history) <= store.history
      ensures disk.moments >= start.moment && store.moments >= start.storeMoment
      ensures again <==> attempt < 2 && !progress.mutated && r.Raised? && r.error.reason == TargetChanged &&
                         (progress.pending ==> r.error.status == SecurityError)
      ensures again ==> Waiting(start.pending, progress.pending, start.synced, disk.synced, added)
      ensures again ==>
                start.Unlucky(attempt + 1, start.Ready(d, accepts, progress.source), start.Able(d, accepts, progress.source),
                              disk.moments, store.moments)
      ensures !again ==> Comes(r, progress, start, d, action, patch.hunks)
      ensures disk.log == start.log + added
      ensures Durable(r, progress.mutated, start.pending, progress.pending, start.synced, disk.synced, added)
      ensures progress.mutated ==> Honest(added, a, d, patch.hunks, action, start.pending)
      ensures r.Done? || progress.mutated ==> Parsed(progress.source, d.targetPath, accepts) == Success(patch)
      ensures r.Done? ==> Fulfilled(d, action, r.result) && Truthful(r.result, patch.hunks, seen, added) && Permitted in added
      ensures !r.OsRaised? ==> disk.temps == old(disk.temps)
      ensures TempsKept(old(disk.temps), disk.temps)
    {
      hide Inspection, Parsed, Honest, BackupStore.Recorded, TempsKept, Fulfilled, CarriedOut, Disk.Valid, Fits, NoReplace, Quiet,
        Truthful, Durable, Waiting, Concludes, Beginning.Unlucky, Beginning.Lucky;
      ghost var owed, synced, moment, storeMoment := progress.pending, disk.synced, disk.moments, store.moments;
      ghost var more, account;
      r, patch, account, more, seen := Attempt(d, action, retention, progress);
      DurableAgain(r, progress.mutated, start.pending, owed, progress.pending, start.synced, synced, disk.synced, before, more);
      a, added := Continue(start.log, before, account, more, d, patch.hunks, action, progress.mutated, start.pending, owed, start.synced,
                           synced);
      ghost var ready, able := start.Ready(d, accepts, progress.source), start.Able(d, accepts, progress.source);
      OneMoreAttempt(start, attempt, ready, able, moment, storeMoment, disk.moments, store.moments, r, progress.mutated,
                     r.Done? && start.target.Some? && CarriedOut(d, patch.hunks, action, start.target.value.data, r.result, disk.target));
      StillTruthful(r, patch.hunks, seen, before, more);
      again := attempt < 2 && !progress.mutated && r.Raised? && r.error.reason == TargetChanged &&
               (progress.pending ==> r.error.status == SecurityError);
    }

    /** What the run comes to from here. */
    ghost predicate Comes(r: Attempted, progress: Progress, start: Beginning, d: PatchDefinition, action: Action, hunks: seq<Hunk>)
      requires disk.moments >= start.moment
      reads disk, store, progress
    {
      start.Lucky(r, progress.mutated,
                  r.Done? && start.target.Some? && CarriedOut(d, hunks, action, start.target.value.data, r.result, disk.target),
                  start.Ready(d, accepts, progress.source), start.Able(d, accepts, progress.source), disk.moments, store.moments)
    }

    /** Up to three attempts, as long as the target is changed by others before anything is written. */
    method Attempts(d: PatchDefinition, action: Action, retention: nat, progress: Progress, ghost start: Beginning)
      returns (r: Attempted, ghost patch: ParsedPatch, ghost a: Account, ghost added: seq<Event>, ghost seen: Option<File>)
      requires Ready() && retention >= 1 && !progress.mutated
      requires start == Beginning(disk.target, disk.log, disk.synced, progress.pending, disk.moments, store.moments,
                                  disk.trouble, disk.visits, store.trouble)
      modifies disk, store, progress
      ensures Ready() && old(store.history) <= store.history && disk.moments >= start.moment
      ensures Comes(r, progress, start, d, action, patch.hunks)
      ensures disk.log == start.log + added
      ensures Durable(r, progress.mutated, start.pending, progress.pending, start.synced, disk.synced, added)
      ensures progress.mutated ==> Honest(added, a, d, patch.hunks, action, start.pending)
      ensures r.Done? || progress.mutated ==> Parsed(progress.source, d.targetPath, accepts) == Success(patch)
      ensures r.Done? ==> Fulfilled(d, action, r.result) && Truthful(r.result, patch.hunks, seen, added) && Permitted in added
      ensures !r.OsRaised? ==> disk.temps == old(disk.temps)
      ensures TempsKept(old(disk.temps), disk.temps)
    {
      hide Parsed, Honest, BackupStore.Recorded, TempsKept, Fulfilled, Disk.Valid, Quiet, Truthful, Durable, Waiting, Comes;
      NothingWaits(progress.pending, disk.synced);
      r, patch, a, added, seen := OsRaised, ParsedPatch("", []), Account([], File("", 0), Write([], map[], [], None, []), ""), [], None;
      for attempt := 0 to 3
        invariant attempt < 3 && Ready() && disk.temps == old(disk.temps) && old(store.history) <= store.history
        invariant disk.log == start.log + added && !progress.mutated
        invariant Waiting(start.pending, progress.pending, start.synced, disk.synced, added)
        invariant disk.moments >= start.moment && store.moments >= start.storeMoment
        invariant attempt == 0 ==> disk.target == start.target && disk.moments == start.moment && store.moments == start.storeMoment
        invariant start.Unlucky(attempt, start.Ready(d, accepts, progress.source), start.Able(d, accepts, progress.source),
                                disk.moments, store.moments)
      {
        var again;
        r, again, patch, a, added, seen := Again(d, action, retention, progress, attempt, start, added);
        if !again {
          return;
        }
      }
      assert false;
    }

    /** What a run reports is what it leaves. */
    lemma Durably(attempted: Attempted, source: string, targetSha: Option<string>, mutated: bool, told: bool, pending: bool,
                  wasSynced: bool, synced: bool, added: seq<Event>, hunks: seq<Hunk>, seen: Option<File>)
      requires Durable(attempted, mutated, told, pending, wasSynced, synced, added)
      requires attempted.Done? ==> seen.Some? && attempted.result.inspection == Inspection(hunks, seen.value.data)
      ensures
        var r := ReportOf(attempted, source, targetSha, mutated, pending);
        && r.mutated == mutated
        && (told || wasSynced ==> Reports(told, wasSynced, r, synced))
        && (mutated ==> Reports(told, true, r, synced))
        && (!told ==> !pending) && (!mutated ==> NoReplace(added) && (wasSynced ==> synced) && (!told ==> synced == wasSynced))
        && (if attempted.Done? then r == attempted.result else r.serviceError.Some? && r.inspection.reason == r.serviceError)
        && (attempted.OsRaised? ==> r.serviceError == Some(FilesystemError))
        && (attempted.Raised? && !pending ==> r.serviceError == Some(attempted.error.reason))
    {
      hide NoReplace, Inspection;
      if attempted.Done? {
        InspectionReason(hunks, seen.value.data);
      }
    }

    /**
     A whole run: up to three attempts. It replaces the target at most once and reports `mutated` exactly
     when it did; the one write is honest; a run that owes a sync settles it before writing; and the result
     says `durability_unconfirmed` whenever a sync is owed, unless access was denied. A run that looked at the target
     and wrote nothing had nothing to write; and when nothing goes wrong, the action is carried out. When no call fails,
     outside writers alone keep a run from its end only by removing the target, making it too long, or writing to it
     three times.
     */
    method Run(d: PatchDefinition, source: string, action: Action, retention: nat, pending: bool)
      returns (r: ReconcileResult, ghost patch: ParsedPatch, ghost a: Account, ghost added: seq<Event>, ghost seen: Option<File>)
      requires Ready() && retention >= 1
      modifies disk, store
      ensures Ready() && old(store.history) <= store.history
      ensures d.enabled && disk.Calm(old(disk.moments)) && store.Calm(old(store.moments)) && old(disk.target).Some? &&
              Fits(old(disk.target).value) && Parsed(source, d.targetPath, accepts).Success? ==>
                seen.Some? && CarriedOut(d, patch.hunks, action, old(disk.target).value.data, r, disk.target)
      ensures disk.moments >= old(disk.moments)
      ensures d.enabled && !pending && disk.Steady(old(disk.moments)) && store.Calm(old(store.moments)) &&
              Parsed(source, d.targetPath, accepts).Success? ==>
                seen.Some? || r.serviceError in {Some(TargetMissing), Some(SizeLimit)} ||
                (r.serviceError == Some(TargetChanged) && !r.mutated && Marks(disk.visits, old(disk.moments), disk.moments) >= 3)
      ensures seen.Some? ==> Fulfilled(d, action, r)
      ensures disk.log == old(disk.log) + added
      ensures !r.mutated ==> NoReplace(added)
      ensures r.mutated ==> Parsed(source, d.targetPath, accepts) == Success(patch) &&
                            Honest(added, a, d, patch.hunks, action, pending)
      ensures !d.enabled ==> added == [] && r.inspection.status == Disabled
      ensures d.enabled && (pending || old(disk.synced)) ==> Reports(pending, old(disk.synced), r, disk.synced)
      ensures r.mutated ==> Reports(pending, true, r, disk.synced)
      ensures !r.mutated ==> (old(disk.synced) ==> disk.synced) && (!pending ==> disk.synced == old(disk.synced))
      ensures seen.Some? ==> Parsed(source, d.targetPath, accepts) == Success(patch) && Truthful(r, patch.hunks, seen, added)
      ensures seen.Some? ==> Permitted in added
      ensures seen.None? ==> r.serviceError.Some? && (d.enabled ==> r.inspection.reason == r.serviceError)
      ensures r.serviceError != Some(FilesystemError) ==> disk.temps == old(disk.temps)
      ensures TempsKept(old(disk.temps), disk.temps)
    {
      hide Inspection, Parsed, Honest, BackupStore.Recorded, TempsKept, Fulfilled, CarriedOut, Disk.Valid, Fits, NoReplace, Quiet,
        Truthful, Durable, Reports, ReportOf;
      AllKept(store.entries, disk.temps);
      NothingReplaced();
      patch, a, added, seen := ParsedPatch("", []), Account([], File("", 0), Write([], map[], [], None, []), ""), [], None;
      var progress := new Progress(source, pending);
      if !d.enabled {
        r := progress.Result(PatchInspection(Disabled, None, None, None), Some(DisabledPatch));
      } else {
        var attempted;
        ghost var start := Beginning(disk.target, disk.log, disk.synced, pending, disk.moments, store.moments,
                                     disk.trouble, disk.visits, store.trouble);
        attempted, patch, a, added, seen := Attempts(d, action, retention, progress, start);
        IsOfSeen(attempted, patch.hunks, seen, added);
        r := progress.Conclusion(attempted);
        Durably(attempted, source, progress.targetSha, progress.mutated, pending, progress.pending, old(disk.synced), disk.synced, added,
          patch.hunks, seen);
        seen := if attempted.Done? then seen else None;
      }
    }

    lemma IsOfSeen(attempted: Attempted, hunks: seq<Hunk>, seen: Option<File>, added: seq<Event>)
      requires attempted.Done? ==> Truthful(attempted.result, hunks, seen, added)
      ensures attempted.Done? ==> seen.Some? && attempted.result.inspection == Inspection(hunks, seen.value.data)
    {
      hide Inspection;
    }

    lemma NothingReplaced()
      ensures NoReplace([])
    {
    }

    /** The account of a run whose last attempt came after others that wrote nothing. */
    lemma Continue(log: seq<Event>, before: seq<Event>, account: Account, more: seq<Event>, d: PatchDefinition, hunks: seq<Hunk>,
                   action: Action, mutated: bool, told: bool, owed: bool, wasSynced: bool, mid: bool)
      returns (a: Account, added: seq<Event>)
      requires Waiting(told, owed, wasSynced, mid, before)
      requires mutated ==> Honest(more, account, d, hunks, action, owed)
      ensures added == before + more && log + before + more == log + added && (Permitted in more ==> Permitted in added)
      ensures mutated ==> Honest(added, a, d, hunks, action, told)
    {
      hide Inspection, Guarded, Events;
      added := before + more;
      a := account.(opening := before + account.opening);
      if mutated {
        SeqAssociative(before, account.opening + [Observed(account.snapshot)], Events(account.write, account.snapshot, account.output));
        SeqAssociative(before, account.opening, [Observed(account.snapshot)]);
        assert forall e :: e in account.opening + account.write.pre ==> e in a.opening + a.write.pre;
      }
    }
  }
}
