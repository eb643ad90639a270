/**
 The guarded write: one inspect-and-commit operation over a disk that others write to.

 Any system call may fail, and an outside writer may act before each of them, also between the last
 snapshot check and the rename, a gap the code documents. The disk keeps a log of what happened; the
 contracts speak about the part of the log an operation adds. Contents stand for their own hashes. At which
 moments something goes wrong is fixed from outside, so what holds in calm moments is not up to the code.
 */
module Transaction {
  import opened Models
  import opened PatchEngine
  import opened Outside
  import opened LineEndings
  import opened PatchParser
  import opened Backups

  datatype File = File(data: string, stamp: nat)

  datatype Event =
    | External(now: Option<File>)
    | Observed(snapshot: File)
    | Permitted
    | BackedUp(data: string)
    | Checked(snapshot: File, stored: Entries)
    | Replaced(lost: Option<File>, output: string)
    | Synced

  predicate NoReplace(log: seq<Event>) {
    forall i | 0 <= i < |log| :: !log[i].Replaced?
  }

  predicate OnlyExternal(log: seq<Event>) {
    forall i | 0 <= i < |log| :: log[i].External?
  }

  predicate NoExternal(log: seq<Event>) {
    forall i | 0 <= i < |log| :: !log[i].External?
  }

  /** What reading a file gives when nothing goes wrong. */
  function Reading(target: Option<File>): Result<File> {
    if target.None? then Failure(PatchError(TargetMissing, MissingTarget))
    else if ByteLen(target.value.data) > MAX_TARGET_BYTES then Failure(Invalid(SizeLimit))
    else Success(target.value)
  }

  class Disk {
    /** When a call fails or is refused, when an outside writer acts, and how many such moments there were. */
    const trouble: nat -> bool
    const visits: nat -> bool
    var moments: nat
    var target: Option<File>
    var nextStamp: nat
    /** Temporary files beside the target, those of earlier writes included. */
    var temps: map<nat, string>
    /** Whether the latest rename is known to be on stable storage. */
    var synced: bool
    ghost var log: seq<Event>

    constructor (trouble: nat -> bool, visits: nat -> bool, target: Option<File>, synced: bool)
      ensures this.trouble == trouble && this.visits == visits && this.synced == synced && temps == map[] && log == [] && Valid()
      ensures this.target.Some? == target.Some? && (target.Some? ==> this.target.value.data == target.value.data)
    {
      this.trouble, this.visits, moments, temps, this.synced, log := trouble, visits, 0, map[], synced, [];
      this.target, nextStamp := if target.Some? then Some(File(target.value.data, 0)) else None, 1;
    }

    ghost predicate Valid() reads this {
      target.Some? ==> target.value.stamp < nextStamp
    }

    /** No call failed since. */
    ghost predicate Steady(since: nat) reads this {
      Quiet(trouble, since, moments)
    }

    /** Outside writers acted since. */
    ghost predicate Visited(since: nat) reads this {
      !Quiet(visits, since, moments)
    }

    /** Nothing went wrong since, and nobody else wrote. */
    ghost predicate Calm(since: nat) reads this {
      Steady(since) && !Visited(since)
    }

    method Succeeds() returns (ok: bool)
      modifies this`moments
      ensures moments == old(moments) + 1 && ok == !trouble(old(moments))
    {
      ok := !trouble(moments);
      moments := moments + 1;
    }

    /** The target is not the file of this snapshot. */
    predicate Moved(snapshot: File) reads this {
      target.None? || target.value.stamp != snapshot.stamp
    }

    /** Outside writers: any number of rewrites and deletions, each rewrite with a fresh stamp. */
    method Interfere() returns (ghost added: seq<Event>)
      requires Valid()
      modifies this`target, this`nextStamp, this`log, this`moments
      ensures Valid() && nextStamp >= old(nextStamp)
      ensures log == old(log) + added && OnlyExternal(added)
      ensures added == [] ==> target == old(target)
      ensures added != [] ==> target.None? || target.value.stamp >= old(nextStamp)
      ensures moments == old(moments) + 1 && (added != [] ==> visits(old(moments)))
    {
      added := [];
      var rounds: nat := *;
      if !visits(moments) {
        rounds := 0;
      }
      moments := moments + 1;
      while rounds > 0
        invariant Valid() && nextStamp >= old(nextStamp)
        invariant log == old(log) + added && OnlyExternal(added)
        invariant added == [] ==> target == old(target)
        invariant added != [] ==> target.None? || target.value.stamp >= old(nextStamp)
        invariant moments == old(moments) + 1 && (!visits(old(moments)) ==> rounds == 0 && added == [])
      {
        var data: string := *;
        var deleted: bool := *;
        target := if deleted then None else Some(File(data, nextStamp));
        nextStamp := nextStamp + 1;
        log := log + [External(target)];
        added := added + [External(target)];
        rounds := rounds - 1;
      }
    }

    /** Read the named file under the limit and make sure it did not change while being read. */
    method Read() returns (r: Result<File>, ghost added: seq<Event>)
      requires Valid()
      modifies this`target, this`nextStamp, this`log, this`moments
      ensures Valid() && nextStamp >= old(nextStamp)
      ensures log == old(log) + added && OnlyExternal(added)
      ensures added == [] ==> target == old(target)
      ensures added != [] ==> target.None? || target.value.stamp >= old(nextStamp)
      ensures r.Success? ==> target == Some(r.value) && ByteLen(r.value.data) <= MAX_TARGET_BYTES
      ensures r.Failure? ==> r.error.reason != DurabilityUnconfirmed
      ensures moments > old(moments) && (added != [] ==> Visited(old(moments))) && (Steady(old(moments)) ==> r == Reading(target))
    {
      added := Interfere();
      var undisturbed := Succeeds();
      var failure: nat := *;
      if undisturbed || target.None? {
        r := Reading(target);
      } else if failure == 0 {
        r := Failure(PatchError(UnsafeFile, SecurityError));
      } else if failure == 1 {
        r := Failure(Invalid(SizeLimit));
      } else if failure == 2 {
        r := Failure(PatchError(TargetChanged, ApplyError));
      } else {
        r := Failure(PatchError(DirectoryChanged, SecurityError));
      }
    }
  }

  // ----- The atomic writer

  datatype CommitOutcome =
    | Committed
    | CommitError(error: PatchError, afterReplace: bool)
    | Rejected(error: PatchError)
    | OsFailed
  {
    predicate Wrote() {
      Committed? || (CommitError? && afterReplace)
    }
  }

  /** A complete, durable copy of these bytes is stored under the name. */
  predicate Holds(entries: Entries, name: nat, data: string) {
    name in entries && entries[name] == Entry(Some(data), Some(true), false, true)
  }

  /** Earlier backups and earlier temporary files are still there, as they were. */
  predicate StoredKept(before: Entries, after: Entries) {
    forall n | n in before :: n in after && after[n] == before[n]
  }

  predicate TempsKept(before: map<nat, string>, after: map<nat, string>) {
    forall n | n in before :: n in after && after[n] == before[n]
  }

  lemma AllKept(entries: Entries, temps: map<nat, string>)
    ensures StoredKept(entries, entries) && TempsKept(temps, temps)
  {
  }

  lemma TempLeft(before: map<nat, string>, after: map<nat, string>, temp: nat)
    requires after - {temp} == before
    ensures TempsKept(before, after)
  {
    assert forall n | n in before :: n in after - {temp} && after[n] == (after - {temp})[n];
  }

  /** The events of one write around its check and its rename; the check notes the backups stored by then. */
  datatype Write = Write(pre: seq<Event>, stored: Entries, gap: seq<Event>, lost: Option<File>, post: seq<Event>)

  function Events(w: Write, snapshot: File, output: string): seq<Event> {
    w.pre + [Checked(snapshot, w.stored)] + w.gap + [Replaced(w.lost, output)] + w.post
  }

  /**
   The snapshot held from the start to the check; after it the policy allowed the write, and then only outsiders acted
   before the rename. A backup that
   was called for was stored by then, complete and durable, and nothing touched the backups before the rename.
   */
  ghost predicate Guarded(w: Write, snapshot: File, backedUp: bool) {
    && NoReplace(w.pre) && NoExternal(w.pre) && NoReplace(w.post)
    && w.gap != [] && w.gap[0] == Permitted && OnlyExternal(w.gap[1..]) && (w.gap == [Permitted] ==> w.lost == Some(snapshot))
    && (backedUp ==> BackedUp(snapshot.data) in w.pre && exists name | name in w.stored :: Holds(w.stored, name, snapshot.data))
  }

  predicate Fits(file: File) {
    ByteLen(file.data) <= MAX_TARGET_BYTES
  }

  /** What is left to go wrong when no call fails: the target is gone or too long, or others changed it meanwhile. */
  predicate Outdated(e: PatchError, visited: bool) {
    e.reason == TargetMissing || e.reason == SizeLimit || (e.reason == TargetChanged && visited)
  }

  method VerifySnapshot(disk: Disk, snapshot: File) returns (e: Option<PatchError>, ghost added: seq<Event>)
    requires disk.Valid() && snapshot.stamp < disk.nextStamp
    modifies disk`target, disk`nextStamp, disk`log, disk`moments
    ensures disk.Valid() && disk.nextStamp >= old(disk.nextStamp) && disk.moments > old(disk.moments)
    ensures Fits(snapshot) && old(disk.target) == Some(snapshot) && disk.Calm(old(disk.moments)) ==> e.None?
    ensures old(disk.target) == Some(snapshot) && disk.Steady(old(disk.moments)) && e.Some? ==>
              Outdated(e.value, disk.Visited(old(disk.moments)))
    ensures disk.log == old(disk.log) + added && OnlyExternal(added)
    ensures e.None? ==> added == [] && disk.target == old(disk.target) == Some(snapshot)
    ensures added == [] ==> disk.target == old(disk.target)
    ensures added != [] ==> disk.Moved(snapshot)
    ensures e.Some? ==> e.value.reason != DurabilityUnconfirmed
  {
    var current;
    current, added := disk.Read();
    if current.Failure? {
      e := Some(current.error);
    } else if current.value != snapshot {
      e := Some(PatchError(TargetChanged, ApplyError));
    } else {
      e := None;
    }
  }

  /** A live permission decision. */
  method CheckPolicy(disk: Disk) returns (e: Option<PatchError>, ghost added: seq<Event>)
    modifies disk`log, disk`moments
    ensures e.Some? ==> e.value.status == SecurityError && e.value.reason != DurabilityUnconfirmed
    ensures e.Some? ==> e.value.reason != TargetChanged
    ensures disk.log == old(disk.log) + added && added == if e.None? then [Permitted] else []
    ensures disk.moments > old(disk.moments) && (disk.Steady(old(disk.moments)) ==> e.None?)
  {
    var permitted := disk.Succeeds();
    var verdict: nat := *;
    e := if permitted then None
         else if verdict == 0 then Some(PatchError(HaPathNotAllowed, SecurityError))
         else if verdict == 1 then Some(PatchError(ProtectedPath, SecurityError))
         else Some(PatchError(OtherReason, SecurityError));
    added := if permitted then [Permitted] else [];
    disk.log := disk.log + added;
  }

  method SyncDirectory(disk: Disk) returns (ok: bool, ghost added: seq<Event>)
    modifies disk`synced, disk`log, disk`moments
    ensures disk.log == old(disk.log) + added
    ensures ok ==> disk.synced && added == [Synced]
    ensures !ok ==> disk.synced == old(disk.synced) && added == []
    ensures disk.moments > old(disk.moments) && (disk.Steady(old(disk.moments)) ==> ok)
  {
    ok := disk.Succeeds();
    added := [];
    if ok {
      disk.synced := true;
      disk.log := disk.log + [Synced];
      added := [Synced];
    }
  }

  /** Back up the snapshot under a new name; the name may turn out to be taken. */
  method BackUp(disk: Disk, store: BackupStore, snapshot: File) returns (ok: bool, ghost name: nat)
    requires store.Recorded()
    modifies store, disk`log
    ensures store.Recorded() && old(store.history) <= store.history
    ensures StoredKept(old(store.entries), store.entries)
    ensures ok ==> disk.log == old(disk.log) + [BackedUp(snapshot.data)]
    ensures ok ==> Holds(store.entries, name, snapshot.data)
    ensures !ok ==> disk.log == old(disk.log)
    ensures store.moments > old(store.moments) && (store.Calm(old(store.moments)) ==> ok)
  {
    var lucky := store.Succeeds();
    var chosen: nat := *;
    if lucky && chosen in store.entries {
      chosen := Unused(store.entries.Keys);
    }
    name := chosen;
    if chosen in store.entries {
      return false, name;
    }
    ghost var was := store.entries;
    ok := store.Create(chosen, snapshot.data);
    forall n | n in was ensures n in store.entries && store.entries[n] == was[n] {
      assert ok || n in store.entries - {chosen};
    }
    if ok {
      disk.log := disk.log + [BackedUp(snapshot.data)];
    }
  }

  /** Create the temporary file under a new name, write it and sync it; a failure may leave part of the output. */
  method WriteTemp(disk: Disk, output: string) returns (ok: bool, created: bool, temp: nat)
    modifies disk`temps, disk`moments
    ensures ok ==> created && temp in disk.temps && disk.temps[temp] == output
    ensures created ==> temp !in old(disk.temps) && disk.temps - {temp} == old(disk.temps)
    ensures !created ==> disk.temps == old(disk.temps)
    ensures disk.moments > old(disk.moments) && (disk.Steady(old(disk.moments)) ==> ok)
  {
    temp := *;
    created := disk.Succeeds();
    ok := false;
    if created {
      if temp in disk.temps {
        temp := Unused(disk.temps.Keys);
      }
      var written: string := *;
      ok := disk.Succeeds();
      ghost var was := disk.temps;
      disk.temps := disk.temps[temp := if ok then output else written];
      assert disk.temps - {temp} == was;
    }
  }

  /** Unlink the temporary file; finding it gone is fine. */
  method RemoveTemp(disk: Disk, temp: nat) returns (ok: bool)
    modifies disk`temps, disk`moments
    ensures ok ==> disk.temps == old(disk.temps) - {temp}
    ensures !ok ==> disk.temps == old(disk.temps)
    ensures disk.moments > old(disk.moments) && (disk.Steady(old(disk.moments)) ==> ok)
  {
    ok := disk.Succeeds();
    if ok {
      disk.temps := disk.temps - {temp};
    }
  }

  /** Rename the temporary file over the target, whatever is there by now. */
  method Rename(disk: Disk, temp: nat) returns (ok: bool, ghost lost: Option<File>)
    requires disk.Valid() && temp in disk.temps
    modifies disk
    ensures disk.Valid() && disk.nextStamp >= old(disk.nextStamp) && lost == old(disk.target)
    ensures ok ==> disk.log == old(disk.log) + [Replaced(lost, old(disk.temps)[temp])] && !disk.synced
    ensures ok ==> disk.temps == old(disk.temps) - {temp}
    ensures ok ==> disk.target.Some? && disk.target.value.data == old(disk.temps)[temp]
    ensures !ok ==> disk.log == old(disk.log) && disk.synced == old(disk.synced) && disk.temps == old(disk.temps)
    ensures disk.moments > old(disk.moments) && (disk.Steady(old(disk.moments)) ==> ok)
  {
    lost := disk.target;
    ok := disk.Succeeds();
    if ok {
      var output := disk.temps[temp];
      disk.target := Some(File(output, disk.nextStamp));
      disk.nextStamp := disk.nextStamp + 1;
      disk.synced, disk.temps := false, disk.temps - {temp};
      disk.log := disk.log + [Replaced(lost, output)];
    }
  }

  /** Everything before the rename: two checks of the snapshot around the temporary file and the backup. */
  method Prepare(disk: Disk, store: BackupStore, snapshot: File, output: string, backup: bool)
    returns (problem: Option<CommitOutcome>, created: bool, temp: nat, ghost pre: seq<Event>, ghost name: nat)
    requires disk.Valid() && store.Recorded() && snapshot.stamp < disk.nextStamp
    modifies disk`target, disk`nextStamp, disk`log, disk`temps, disk`moments, store
    ensures disk.Valid() && disk.nextStamp >= old(disk.nextStamp)
    ensures disk.moments >= old(disk.moments) && store.moments >= old(store.moments)
    ensures Fits(snapshot) && old(disk.target) == Some(snapshot) && disk.Calm(old(disk.moments)) && store.Calm(old(store.moments)) ==>
              problem.None?
    ensures old(disk.target) == Some(snapshot) && disk.Steady(old(disk.moments)) && store.Calm(old(store.moments)) && problem.Some? ==>
              problem.value.Rejected? && Outdated(problem.value.error, disk.Visited(old(disk.moments)))
    ensures store.Recorded() && old(store.history) <= store.history
    ensures StoredKept(old(store.entries), store.entries)
    ensures disk.log == old(disk.log) + pre && NoReplace(pre)
    ensures problem.None? ==> disk.target == old(disk.target) == Some(snapshot)
    ensures problem.None? ==> NoExternal(pre) && created && temp in disk.temps && disk.temps[temp] == output
    ensures problem.None? && backup ==> BackedUp(snapshot.data) in pre && Holds(store.entries, name, snapshot.data)
    ensures created ==> disk.temps - {temp} == old(disk.temps)
    ensures !created ==> disk.temps == old(disk.temps)
    ensures problem.Some? ==> match problem.value
      case CommitError(error, afterReplace) =>
        !afterReplace && error.status == ApplyError && error.reason in {BackupFailed, CommitFailed}
      case Rejected(error) => error.reason != DurabilityUnconfirmed
      case _ => false
  {
    hide Holds, BackupStore.Recorded, StoredKept;
    AllKept(store.entries, disk.temps);
    created, temp, name := false, 0, 0;
    var changed;
    changed, pre := VerifySnapshot(disk, snapshot);
    if changed.Some? {
      problem := Some(Rejected(changed.value));
    } else {
      var written;
      written, created, temp := WriteTemp(disk, output);
      if !written {
        problem := Some(CommitError(PatchError(CommitFailed, ApplyError), false));
      } else {
        problem, pre, name := SaveAndCheck(disk, store, snapshot, backup);
      }
    }
  }

  lemma AfterBackup(log: seq<Event>, data: string, saved: bool, more: seq<Event>)
    requires OnlyExternal(more)
    ensures
      var pre := if saved then [BackedUp(data)] else [];
      && NoReplace(pre) && NoReplace(pre + more) && log + pre + more == log + (pre + more)
      && (more == [] ==> NoExternal(pre + more) && (saved ==> BackedUp(data) in pre + more))
  {
  }

  /** The backup, when one is called for, and the second check. */
  method SaveAndCheck(disk: Disk, store: BackupStore, snapshot: File, backup: bool)
    returns (problem: Option<CommitOutcome>, ghost pre: seq<Event>, ghost name: nat)
    requires disk.Valid() && store.Recorded() && disk.target == Some(snapshot)
    modifies disk`target, disk`nextStamp, disk`log, disk`moments, store
    ensures disk.Valid() && disk.nextStamp >= old(disk.nextStamp)
    ensures disk.moments >= old(disk.moments) && store.moments >= old(store.moments)
    ensures Fits(snapshot) && disk.Calm(old(disk.moments)) && store.Calm(old(store.moments)) ==> problem.None?
    ensures disk.Steady(old(disk.moments)) && store.Calm(old(store.moments)) && problem.Some? ==>
              problem.value.Rejected? && Outdated(problem.value.error, disk.Visited(old(disk.moments)))
    ensures store.Recorded() && old(store.history) <= store.history && StoredKept(old(store.entries), store.entries)
    ensures disk.log == old(disk.log) + pre && NoReplace(pre)
    ensures problem.None? ==> disk.target == Some(snapshot) && NoExternal(pre)
    ensures problem.None? && backup ==> BackedUp(snapshot.data) in pre && Holds(store.entries, name, snapshot.data)
    ensures problem.Some? ==> match problem.value
      case CommitError(error, afterReplace) => !afterReplace && error == PatchError(BackupFailed, ApplyError)
      case Rejected(error) => error.reason != DurabilityUnconfirmed
      case _ => false
  {
    hide Holds, BackupStore.Recorded, StoredKept, Quiet, Outdated, NoReplace, OnlyExternal, NoExternal;
    AllKept(store.entries, disk.temps);
    name := 0;
    var saved := true;
    if backup {
      saved, name := BackUp(disk, store, snapshot);
    }
    NothingYet();
    AfterBackup(old(disk.log), snapshot.data, saved && backup, []);
    pre := if saved && backup then [BackedUp(snapshot.data)] else [];
    if !saved {
      problem := Some(CommitError(PatchError(BackupFailed, ApplyError), false));
    } else {
      var changed;
      ghost var more;
      changed, more := VerifySnapshot(disk, snapshot);
      AfterBackup(old(disk.log), snapshot.data, backup, more);
      pre := pre + more;
      problem := if changed.Some? then Some(Rejected(changed.value)) else None;
    }
  }

  lemma NothingYet()
    ensures OnlyExternal([])
  {
  }

  /** The permission check and the gap after it. */
  method Permit(disk: Disk) returns (denied: Option<PatchError>, ghost gap: seq<Event>)
    requires disk.Valid()
    modifies disk`target, disk`nextStamp, disk`log, disk`moments
    ensures disk.Valid() && disk.nextStamp >= old(disk.nextStamp) && disk.moments >= old(disk.moments)
    ensures disk.log == old(disk.log) + gap && NoReplace(gap)
    ensures denied.None? ==> gap != [] && gap[0] == Permitted && OnlyExternal(gap[1..])
    ensures gap == [Permitted] ==> disk.target == old(disk.target)
    ensures denied.Some? ==> denied.value.reason != DurabilityUnconfirmed
    ensures disk.Steady(old(disk.moments)) ==> denied.None?
  {
    denied, gap := CheckPolicy(disk);
    if denied.None? {
      ghost var others := disk.Interfere();
      gap := gap + others;
      assert gap[1..] == others;
    }
  }

  /** The permission check, the gap and the rename. */
  method Publish(disk: Disk, ghost stored: Entries, snapshot: File, temp: nat, ghost output: string)
    returns (outcome: CommitOutcome, ghost gap: seq<Event>, ghost lost: Option<File>, ghost post: seq<Event>)
    requires disk.Valid() && disk.target == Some(snapshot) && temp in disk.temps && disk.temps[temp] == output
    modifies disk
    ensures disk.Valid() && disk.nextStamp >= old(disk.nextStamp) && NoReplace(gap) && NoReplace(post)
    ensures disk.moments >= old(disk.moments) && (disk.Steady(old(disk.moments)) ==> outcome.Committed?)
    ensures outcome.Wrote() ==> gap != [] && gap[0] == Permitted && OnlyExternal(gap[1..]) && (gap == [Permitted] ==> lost == Some(snapshot))
    ensures outcome.Wrote() ==> disk.log == old(disk.log) + [Checked(snapshot, stored)] + gap + [Replaced(lost, output)] + post
    ensures outcome.Wrote() ==> disk.target.Some? && disk.target.value.data == output
    ensures disk.temps == if outcome.Wrote() then old(disk.temps) - {temp} else old(disk.temps)
    ensures outcome.Wrote() ==> (disk.synced <==> outcome.Committed?)
    ensures !outcome.Wrote() ==> disk.log == old(disk.log) + [Checked(snapshot, stored)] + gap && disk.synced == old(disk.synced)
    ensures match outcome
      case Committed => true
      case CommitError(error, afterReplace) =>
        error == PatchError(if afterReplace then DurabilityUnconfirmed else CommitFailed, ApplyError)
      case Rejected(error) => error.reason != DurabilityUnconfirmed
      case OsFailed => false
  {
    lost, post := disk.target, [];
    disk.log := disk.log + [Checked(snapshot, stored)];
    var denied;
    denied, gap := Permit(disk);
    if denied.Some? {
      return Rejected(denied.value), gap, lost, post;
    }
    var renamed;
    renamed, lost := Rename(disk, temp);
    if !renamed {
      return CommitError(PatchError(CommitFailed, ApplyError), false), gap, lost, post;
    }
    var synced;
    synced, post := SyncDirectory(disk);
    outcome := if synced then Committed else CommitError(PatchError(DurabilityUnconfirmed, ApplyError), true);
  }

  /** Preparation and publication, with the temporary file still there if nothing was replaced. */
  method WriteOut(disk: Disk, store: BackupStore, snapshot: File, output: string, backup: bool)
    returns (outcome: CommitOutcome, created: bool, temp: nat, ghost w: Write, ghost added: seq<Event>, ghost name: nat)
    requires disk.Valid() && store.Recorded() && snapshot.stamp < disk.nextStamp
    modifies disk, store
    ensures disk.Valid() && disk.nextStamp >= old(disk.nextStamp)
    ensures disk.moments >= old(disk.moments) && store.moments >= old(store.moments)
    ensures Fits(snapshot) && old(disk.target) == Some(snapshot) && disk.Calm(old(disk.moments)) && store.Calm(old(store.moments)) ==>
              outcome.Committed?
    ensures old(disk.target) == Some(snapshot) && disk.Steady(old(disk.moments)) && store.Calm(old(store.moments)) && !outcome.Committed? ==>
              outcome.Rejected? && Outdated(outcome.error, disk.Visited(old(disk.moments)))
    ensures store.Recorded() && old(store.history) <= store.history
    ensures StoredKept(old(store.entries), store.entries)
    ensures disk.log == old(disk.log) + added
    ensures outcome.Wrote() ==> added == Events(w, snapshot, output) && Guarded(w, snapshot, backup)
    ensures outcome.Wrote() ==> old(disk.target) == Some(snapshot) && (disk.synced <==> outcome.Committed?)
    ensures outcome.Wrote() ==> disk.target.Some? && disk.target.value.data == output
    ensures outcome.Wrote() ==> w.stored == store.entries && (backup ==> Holds(store.entries, name, snapshot.data))
    ensures !outcome.Wrote() ==> NoReplace(added) && disk.synced == old(disk.synced)
    ensures outcome.Wrote() || !created ==> disk.temps == old(disk.temps)
    ensures !outcome.Wrote() && created ==> disk.temps - {temp} == old(disk.temps)
    ensures match outcome
      case Committed => true
      case CommitError(error, afterReplace) =>
        error.status == ApplyError && (error.reason == DurabilityUnconfirmed <==> afterReplace) && error.reason != TargetChanged
      case Rejected(error) => error.reason != DurabilityUnconfirmed
      case OsFailed => false
  {
    hide BackupStore.Recorded, StoredKept;
    AllKept(store.entries, disk.temps);
    var problem;
    ghost var pre;
    problem, created, temp, pre, name := Prepare(disk, store, snapshot, output, backup);
    ghost var stored := store.entries;
    w, added := Write(pre, stored, [], None, []), pre;
    if problem.Some? {
      outcome := problem.value;
    } else {
      ghost var gap, lost, post;
      outcome, gap, lost, post := Publish(disk, stored, snapshot, temp, output);
      w := Write(pre, stored, gap, lost, post);
      added := if outcome.Wrote() then Events(w, snapshot, output) else pre + [Checked(snapshot, stored)] + gap;
    }
  }

  /**
   Commit inspected bytes. The outcome says whether the target was replaced; if it was, the snapshot was
   still in place at the check, its backup existed when one was required, and the output was written once. When
   nothing goes wrong, it is.
   */
  method Commit(disk: Disk, store: BackupStore, snapshot: File, output: string, backup: bool)
    returns (outcome: CommitOutcome, ghost w: Write, ghost added: seq<Event>, ghost name: nat)
    requires disk.Valid() && store.Recorded() && snapshot.stamp < disk.nextStamp
    modifies disk, store
    ensures disk.Valid() && disk.nextStamp >= old(disk.nextStamp)
    ensures disk.moments >= old(disk.moments) && store.moments >= old(store.moments)
    ensures Fits(snapshot) && old(disk.target) == Some(snapshot) && disk.Calm(old(disk.moments)) && store.Calm(old(store.moments)) ==>
              outcome.Committed?
    ensures old(disk.target) == Some(snapshot) && disk.Steady(old(disk.moments)) && store.Calm(old(store.moments)) && !outcome.Committed? ==>
              outcome.Rejected? && Outdated(outcome.error, disk.Visited(old(disk.moments)))
    ensures store.Recorded() && old(store.history) <= store.history
    ensures StoredKept(old(store.entries), store.entries)
    ensures disk.log == old(disk.log) + added
    ensures outcome.Wrote() ==> added == Events(w, snapshot, output) && Guarded(w, snapshot, backup)
    ensures outcome.Wrote() ==> old(disk.target) == Some(snapshot) && (disk.synced <==> outcome.Committed?)
    ensures outcome.Wrote() ==> disk.target.Some? && disk.target.value.data == output
    ensures outcome.Wrote() ==> w.stored == store.entries && (backup ==> Holds(store.entries, name, snapshot.data))
    ensures !outcome.Wrote() ==> NoReplace(added) && disk.synced == old(disk.synced)
    ensures outcome.OsFailed? ==> TempsKept(old(disk.temps), disk.temps)
    ensures !outcome.OsFailed? ==> disk.temps == old(disk.temps)
    ensures match outcome
      case CommitError(error, afterReplace) =>
        error.status == ApplyError && (error.reason == DurabilityUnconfirmed <==> afterReplace) && error.reason != TargetChanged
      case Rejected(error) => error.reason != DurabilityUnconfirmed
      case _ => true
  {
    hide Events, Guarded, Holds, BackupStore.Recorded, TempsKept, StoredKept;
    AllKept(store.entries, disk.temps);
    var created, temp;
    outcome, created, temp, w, added, name := WriteOut(disk, store, snapshot, output, backup);
    if created && !outcome.Wrote() {
      TempLeft(old(disk.temps), disk.temps, temp);
      var removed := RemoveTemp(disk, temp);
      if !removed {
        outcome := OsFailed;
      }
    }
  }
}
