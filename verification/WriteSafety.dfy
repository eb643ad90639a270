/**
 What an honest account of a run means, and what repeated runs do.
 */
module WriteSafety {
  import opened Models
  import opened LineEndings
  import opened PatchEngine
  import opened PatchParser
  import opened PatchBuilder
  import opened Transaction
  import opened Reconciling
  import PatchRoundTrip
  import BuilderComplete

  /** Where the one rename of an account stands among the events. */
  function RenameIndex(a: Account): nat {
    |a.opening| + 1 + |a.write.pre| + 1 + |a.write.gap|
  }

  function CheckIndex(a: Account): nat {
    |a.opening| + 1 + |a.write.pre|
  }

  lemma AccountLength(added: seq<Event>, a: Account)
    requires added == a.opening + [Observed(a.snapshot)] + Events(a.write, a.snapshot, a.output)
    ensures |added| == RenameIndex(a) + 1 + |a.write.post|
  {
  }

  lemma EventAt(added: seq<Event>, a: Account, i: nat)
    requires added == a.opening + [Observed(a.snapshot)] + Events(a.write, a.snapshot, a.output) && i < |added|
    ensures added[i] ==
            if i < |a.opening| then a.opening[i]
            else if i == |a.opening| then Observed(a.snapshot)
            else if i < CheckIndex(a) then a.write.pre[i - |a.opening| - 1]
            else if i == CheckIndex(a) then Checked(a.snapshot, a.write.stored)
            else if i < RenameIndex(a) then a.write.gap[i - CheckIndex(a) - 1]
            else if i == RenameIndex(a) then Replaced(a.write.lost, a.output)
            else a.write.post[i - RenameIndex(a) - 1]
  {
    AccountLength(added, a);
    var w, events := a.write, Events(a.write, a.snapshot, a.output);
    var j := i - |a.opening| - 1;
    if j >= 0 {
      assert added[i] == events[j];
    }
  }

  /** At most one rename in a run, and exactly where the account says. */
  lemma RenamesOnce(added: seq<Event>, a: Account, d: PatchDefinition, hunks: seq<Hunk>, action: Action, owed: bool, i: nat)
    requires Honest(added, a, d, hunks, action, owed) && i < |added|
    ensures added[i].Replaced? <==> i == RenameIndex(a)
  {
    hide Inspection, Events;
    EventAt(added, a, i);
    var g, c, n := |a.opening|, CheckIndex(a), RenameIndex(a);
    AccountLength(added, a);
    if i < g {
      assert !a.opening[i].Replaced?;
    } else if g < i < c {
      assert !a.write.pre[i - g - 1].Replaced?;
    } else if c < i < n {
      assert i == c + 1 || a.write.gap[1..][i - c - 2].External?;
    } else if n < i {
      assert !a.write.post[i - n - 1].Replaced?;
    }
  }

  /**
   No outside change seen before the last check is overwritten: one that came earlier than the rename came
   either before the bytes were read or after the check, never in between. With none after the check, the bytes
   lost are the snapshot. A required backup of exactly those bytes came first, and when the rename happens it is
   among the stored backups, complete and durable: the check notes what is stored, and until the rename only
   outsiders act.
   */
  lemma OutsideChangesSurvive(added: seq<Event>, a: Account, d: PatchDefinition, hunks: seq<Hunk>, action: Action, owed: bool, k: nat)
    requires Honest(added, a, d, hunks, action, owed) && k < RenameIndex(a)
    ensures RenameIndex(a) < |added|
    ensures added[k].External? ==> k < |a.opening| || CheckIndex(a) < k
    ensures (forall j | CheckIndex(a) + 1 < j < RenameIndex(a) :: !added[j].External?) ==> a.write.lost == Some(a.snapshot)
    ensures action == Revert || d.backupBeforeApply ==>
            exists j | 0 <= j < CheckIndex(a) :: added[j] == BackedUp(a.snapshot.data)
    ensures action == Revert || d.backupBeforeApply ==>
            && added[CheckIndex(a)] == Checked(a.snapshot, a.write.stored)
            && exists name | name in a.write.stored :: Holds(a.write.stored, name, a.snapshot.data)
    ensures CheckIndex(a) + 1 < k ==> added[k].External?
  {
    hide Inspection, Events;
    AccountLength(added, a);
    EventAt(added, a, k);
    EventAt(added, a, CheckIndex(a));
    if |a.write.gap| > 1 {
      EventAt(added, a, CheckIndex(a) + 2);
      assert a.write.gap[1..][0].External?;
    }
    if CheckIndex(a) + 1 < k {
      assert a.write.gap[1..][k - CheckIndex(a) - 2].External?;
    }
    if BackupRequired(d, action) {
      var n :| 0 <= n < |a.write.pre| && a.write.pre[n] == BackedUp(a.snapshot.data);
      EventAt(added, a, |a.opening| + 1 + n);
    }
  }

  /** Nothing is replaced without permission: the policy was asked before anything else, and again after the last check. */
  lemma PermittedTwice(added: seq<Event>, a: Account, d: PatchDefinition, hunks: seq<Hunk>, action: Action, owed: bool)
    requires Honest(added, a, d, hunks, action, owed)
    ensures CheckIndex(a) + 1 < RenameIndex(a) < |added| && added[CheckIndex(a) + 1] == Permitted
    ensures exists j | 0 <= j < |a.opening| :: added[j] == Permitted
  {
    hide Inspection, Events;
    AccountLength(added, a);
    EventAt(added, a, CheckIndex(a) + 1);
    var n :| 0 <= n < |a.opening| && a.opening[n] == Permitted;
    EventAt(added, a, n);
  }

  lemma AccountOf(added: seq<Event>, a: Account, d: PatchDefinition, hunks: seq<Hunk>, action: Action, owed: bool)
    requires Honest(added, a, d, hunks, action, owed)
    ensures CheckIndex(a) < |added|
  {
    hide Inspection, Events, Guarded;
    AccountLength(added, a);
  }

  /** A run that owes a directory sync gets one before it renames anything. */
  lemma OwedSyncComesFirst(added: seq<Event>, a: Account, d: PatchDefinition, hunks: seq<Hunk>, action: Action)
    requires Honest(added, a, d, hunks, action, true)
    ensures exists j | 0 <= j < CheckIndex(a) :: added[j] == Synced
  {
    hide Inspection, Events;
    AccountLength(added, a);
    var before := a.opening + a.write.pre;
    var n :| 0 <= n < |before| && before[n] == Synced;
    if n < |a.opening| {
      EventAt(added, a, n);
    } else {
      EventAt(added, a, n + 1);
    }
  }

  // ----- Repeated runs

  /** An action other than revert writes only what applies, in the forward direction. */
  lemma WritesForward(d: PatchDefinition, hunks: seq<Hunk>, raw: string, action: Action, output: string)
    requires OutputForAction(d, Inspection(hunks, raw), action) == Some(output) && action != Revert
    ensures Inspection(hunks, raw).status == Applicable && Inspection(hunks, raw).forward == Some(output)
  {
    hide Rewrite;
  }

  /**
   No run writes over what an earlier one wrote. Whatever each run met, a run that is not a revert does not
   replace bytes that such a run put there, when every `after` occurs once in them.
   */
  lemma ReconcileIsIdempotent(d: PatchDefinition, hunks: seq<Hunk>,
                              first: Account, added: seq<Event>, action: Action, owed: bool,
                              second: Account, later: seq<Event>, again: Action, still: bool)
    requires Honest(added, first, d, hunks, action, owed) && action != Revert
    requires Honest(later, second, d, hunks, again, still) && again != Revert
    requires PatchRoundTrip.Clean(hunks) && Settles(hunks, first.snapshot.data)
    ensures second.snapshot.data != first.output
  {
    hide Inspection, Events, Guarded, Settles;
    WritesForward(d, hunks, first.snapshot.data, action, first.output);
    NothingToWrite(d, hunks, first.snapshot.data, again);
  }

  /** The patch applies to these bytes, and what it makes of them holds every `after` once. */
  ghost predicate Settles(hunks: seq<Hunk>, raw: string) {
    && Inspection(hunks, raw).status == Applicable
    && PatchRoundTrip.Anchored(Align(hunks, PatchRoundTrip.TextOf(raw).text, 0).value)
    && PatchRoundTrip.EachOnce(SwapAll(hunks), Rewrite(hunks, PatchRoundTrip.TextOf(raw).text).value)
  }

  lemma NothingToWrite(d: PatchDefinition, hunks: seq<Hunk>, raw: string, action: Action)
    requires PatchRoundTrip.Clean(hunks) && Settles(hunks, raw) && action != Revert
    ensures OutputForAction(d, Inspection(hunks, Inspection(hunks, raw).forward.value), action) == None
  {
    hide Inspection, Rewrite, Align, PatchRoundTrip.Anchored, PatchRoundTrip.EachOnce;
    PatchRoundTrip.AppliedIsStable(hunks, raw);
  }

  /**
   Runs with a patch built in the editor: one that replaces the original writes exactly the edit and is no
   revert; one that replaces the edit is a revert and writes exactly the original. Nothing else happens to either.
   */
  lemma EditorRoundTrip(d: PatchDefinition, job: Job, accepts: Oracle, patch: ParsedPatch,
                        added: seq<Event>, a: Account, action: Action, owed: bool)
    requires Built(job, accepts).Success?
    requires Parsed(Built(job, accepts).value, job.target, accepts) == Success(patch)
    requires Honest(added, a, d, patch.hunks, action, owed)
    ensures a.snapshot.data == job.original ==> action != Revert && a.output == job.edited
    ensures a.snapshot.data == job.edited ==> action == Revert && a.output == job.original
  {
    hide Inspection, Parsed, Events, Guarded;
    BuilderComplete.BuiltIsExact(job, accepts);
  }

  /** And such runs have something to write: an apply or an automatic reconcile on the original, a revert on the edit. */
  lemma EditorOutputs(d: PatchDefinition, job: Job, accepts: Oracle, patch: ParsedPatch)
    requires Built(job, accepts).Success?
    requires Parsed(Built(job, accepts).value, job.target, accepts) == Success(patch)
    ensures OutputForAction(d, Inspection(patch.hunks, job.original), Apply) == Some(job.edited)
    ensures OutputForAction(d, Inspection(patch.hunks, job.edited), Revert) == Some(job.original)
    ensures OutputForAction(d, Inspection(patch.hunks, job.original), Reconcile) == if d.autoApply then Some(job.edited) else None
    ensures OutputForAction(d, Inspection(patch.hunks, job.original), RefreshSource) == None
    ensures OutputForAction(d, Inspection(patch.hunks, job.edited), Apply) == None
    ensures OutputForAction(d, Inspection(patch.hunks, job.edited), Reconcile) == None
    ensures OutputForAction(d, Inspection(patch.hunks, job.original), Revert) == None
  {
    hide Inspection, Parsed;
    BuilderComplete.BuiltIsExact(job, accepts);
  }
}
