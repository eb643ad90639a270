/**
 Runs that show where the guarantees of the runtime end. Each starts from any new runtime with an enabled patch.
 */
module RuntimeLimits {
  import opened Models
  import opened Definitions
  import opened Reconciling
  import opened RuntimeSteps
  import opened RuntimeSafety
  import opened RuntimeTheorems
  import opened RuntimeEvents

  /** A run that changed the target and synced its directory. */
  const Changed := ReconcileResult(PatchInspection(Applicable, None, None, None), "", None, true, None)

  /** A run that changed the target and could not sync its directory. */
  const Unconfirmed :=
    ReconcileResult(PatchInspection(ApplyError, Some(DurabilityUnconfirmed), None, None), "", None, true, Some(DurabilityUnconfirmed))

  /** A new runtime whose patch p is enabled and under no safety gate. */
  ghost predicate Ready(s: State, p: Id) {
    Initial(s) && EnabledPatch(s, p) && !Gate(s.states[p].lastError)
  }

  /** An open runtime for the same entry, at rest but for its timers, its tasks and their lock, and what it owes. */
  ghost predicate Scene(s: State, t: State) {
    && SameConfig(s, t) && t.states.Keys == s.definitions.Keys && !t.closing && t.stage.Open?
    && t.watch.dirty == {} && !t.watch.closed && t.background == map[] && !t.facts.reopened
  }

  lemma ReadyIsValid(s: State, p: Id)
    requires Ready(s, p)
    ensures Scene(s, s.(stage := Open)) && Invalidity(s, p).None? && p in s.definitions && s.definitions[p].enabled && p !in s.suppressed
    ensures s.stage.Starting? && !s.closing && s.watch == Watch({}, map[], {}, false) && p in s.states && p in s.entry.patches
    ensures s.tasks == map[] && s.background == map[] && s.lock.None? && s.busy == {}
    ensures s.facts.unsynced == s.facts.forgotten == s.facts.unseen == s.facts.missed == {}
  {
    hide FromMapping, Restored;
    EnabledIsRead(p, s.entry.patches[p], s.checks);
  }

  lemma StillValid(s: State, t: State, p: Id)
    requires SameConfig(s, t) && Invalidity(s, p).None?
    ensures Invalidity(t, p).None?
  {
    hide Matches, Get;
  }

  lemma Stays(s: State)
    ensures Leads(s, [], s)
  {
  }

  // ----- Startup

  lemma {:induction false} Listed(ids: set<Id>) returns (order: seq<Id>)
    ensures forall p :: p in order <==> p in ids
  {
    order := [];
    if ids != {} {
      var p :| p in ids;
      order := Listed(ids - {p});
      order := [p] + order;
    }
  }

  lemma NothingToLose(s: State)
    requires s.facts.unseen == {}
    ensures Lose(s) == s
  {
    hide Current, Covered;
  }

  /** All that is under way are startup tasks that have not started yet. */
  ghost predicate StartsWith(s: State, t: State) {
    && t == s.(stage := Open, background := t.background, next := t.next)
    && (forall n | n in t.background :: n < t.next && t.background[n].call.Created? && EnabledPatch(s, t.background[n].id) &&
          t.background[n].id !in s.suppressed)
  }

  lemma {:induction false} OnlyStarts(s: State, t: State, order: seq<Id>)
    requires StartsWith(s, t) && !s.closing && forall q | q in order :: EnabledPatch(s, q)
    ensures StartsWith(s, ScheduleAll(t, order))
    decreases |order|
  {
    if order != [] {
      OneStarts(s, t, order[0]);
      hide StartsWith, EnabledPatch;
      OnlyStarts(s, Schedule(t, order[0]), order[1..]);
    }
  }

  lemma OneStarts(s: State, t: State, q: Id)
    requires StartsWith(s, t) && !s.closing && EnabledPatch(s, q)
    ensures StartsWith(s, Schedule(t, q))
  {
  }

  lemma OpensFirst(s: State, order: seq<Id>)
    ensures ScheduleAll(s, order).(stage := Open) == ScheduleAll(s.(stage := Open), order)
    decreases |order|
  {
    if order != [] {
      OpensFirst(Schedule(s, order[0]), order[1..]);
    }
  }

  lemma EnabledIsValid(s: State, p: Id)
    requires MatchesEntry(s) && EnabledPatch(s, p)
    ensures Invalidity(s, p).None?
  {
    hide FromMapping;
    EnabledIsRead(p, s.entry.patches[p], s.checks);
  }

  lemma InService(s: State, t: State, p: Id)
    requires MatchesEntry(s) && EnabledPatch(s, p) && SameConfig(s, t)
    ensures Invalidity(t, p).None?
  {
    EnabledIsValid(s, p);
    hide Invalidity;
    StillValid(s, t, p);
  }

  lemma StartsOne(s: State, t: State, n: nat)
    requires StartsWith(s, t) && n in t.background && Invalidity(t, t.background[n].id).None?
    requires s.tasks == map[] && s.lock.None? && !s.closing && s.facts.unseen == {}
    ensures Enabled(t, BackgroundStarts(n)) && After(t, BackgroundStarts(n)) == StartBackground(t, n)
    ensures
      var p, k, a := t.background[n].id, t.next, StartBackground(t, n);
      && HasTask(a, k) && a.tasks == map[k := Task(p, Reconcile, Waiting)] && SameConfig(t, a)
      && a.lock.None? && a.facts.unseen == {} && a.definitions[p].enabled
  {
    hide Invalidity;
  }

  lemma BeginsNow(t: State, n: nat)
    requires HasTask(t, n) && t.tasks[n].phase.Waiting? && t.lock.None?
    requires Invalidity(t, t.tasks[n].id).None? && t.definitions[t.tasks[n].id].enabled
    ensures Enabled(t, TaskStarts(n)) && After(t, TaskStarts(n)) == Begin(Seen(t, t.tasks[n].id), n)
  {
    hide Invalidity, Finish, Seen, Begin;
  }

  /** What has begun when a startup task has taken its turn. */
  lemma BegunOne(s: State, t: State, n: nat)
    requires StartsWith(s, t) && n in t.background && Invalidity(t, t.background[n].id).None?
    requires s.tasks == map[] && s.lock.None? && s.busy == {} && !s.closing
    requires HasTask(StartBackground(t, n), t.next)
    ensures
      var p, k, b := t.background[n].id, t.next, Begin(StartBackground(t, n), t.next);
      && HasTask(b, k) && b.tasks.Keys == {k} && b.tasks[k].id == p && b.tasks[k].phase.Working?
      && b == t.(tasks := b.tasks, background := t.background[n := Background(p, Awaiting(k))], next := k + 1,
                 lock := Some(ByTask(k)), busy := {p})
  {
    hide Invalidity, EnabledPatch;
  }

  lemma EndsOne(t: State, b: State, n: nat, p: Id, k: nat)
    requires HasTask(b, k) && b.tasks.Keys == {k} && b.tasks[k].id == p && b.tasks[k].phase.Working?
    requires n in t.background && t.tasks == map[] && t.lock.None? && t.busy == {} && t.watch.dirty == {}
    requires b == t.(tasks := b.tasks, background := t.background[n := Background(p, Awaiting(k))], next := k + 1,
                     lock := Some(ByTask(k)), busy := {p})
    ensures Enabled(b, TaskCrashed(k)) && After(b, TaskCrashed(k)) == Finish(b, k)
    ensures Enabled(Finish(b, k), BackgroundEnds(n))
    ensures After(Finish(b, k), BackgroundEnds(n)) == t.(next := k + 1, background := t.background - {n})
  {
    CrashesAlone(b, k, p);
    hide Finish;
    assert b.background - {n} == t.background - {n};
  }

  /** The end of the only task. */
  lemma CrashesAlone(b: State, k: nat, p: Id)
    requires b.tasks.Keys == {k} && b.tasks[k].id == p && b.busy == {p} && b.lock == Some(ByTask(k)) && b.watch.dirty == {}
    ensures Finish(b, k) == b.(tasks := map[], lock := None, busy := {})
  {
    assert b.tasks - {k} == map[];
  }

  lemma NothingSeen(s: State, p: Id)
    requires s.facts.unseen == {}
    ensures Seen(s, p) == s
  {
  }

  /** A startup task takes its turn, and ends without a result. */
  lemma StartupTaskEnds(s: State, i: State, steps: seq<Step>, t: State, n: nat) returns (more: seq<Step>, u: State)
    requires Leads(i, steps, t) && StartsWith(s, t) && n in t.background && MatchesEntry(s) && s.facts.unseen == {}
    requires s.tasks == map[] && s.lock.None? && s.busy == {} && s.watch == Watch({}, map[], {}, false) && !s.closing
    ensures Leads(i, more, u) && u == t.(next := t.next + 1, background := t.background - {n})
  {
    hide Leads, MatchesEntry, Invalidity, Enabled, After, StartBackground, Begin, Finish, Seen;
    var k, a := t.next, StartBackground(t, n);
    InService(s, t, t.background[n].id);
    StartsOne(s, t, n);
    StillValid(t, a, t.background[n].id);
    BeginsNow(a, k);
    NothingSeen(a, t.background[n].id);
    BegunOne(s, t, n);
    var b := Begin(a, k);
    EndsOne(t, b, n, t.background[n].id, k);
    LeadsOn(i, steps, t, BackgroundStarts(n));
    LeadsOn(i, steps + [BackgroundStarts(n)], a, TaskStarts(k));
    LeadsOn(i, steps + [BackgroundStarts(n)] + [TaskStarts(k)], b, TaskCrashed(k));
    LeadsOn(i, steps + [BackgroundStarts(n)] + [TaskStarts(k)] + [TaskCrashed(k)], Finish(b, k), BackgroundEnds(n));
    more := steps + [BackgroundStarts(n)] + [TaskStarts(k)] + [TaskCrashed(k)] + [BackgroundEnds(n)];
    u := After(Finish(b, k), BackgroundEnds(n));
  }

  lemma {:induction false} StartupTasksEnd(s: State, i: State, steps: seq<Step>, t: State) returns (more: seq<Step>, u: State)
    requires Leads(i, steps, t) && StartsWith(s, t) && MatchesEntry(s) && s.facts.unseen == {}
    requires s.tasks == map[] && s.lock.None? && s.busy == {} && s.watch == Watch({}, map[], {}, false) && !s.closing
    ensures Leads(i, more, u) && u == s.(stage := Open, background := map[], next := u.next)
    decreases t.background.Keys
  {
    hide Leads, MatchesEntry, EnabledPatch;
    if t.background == map[] {
      more, u := steps, t;
    } else {
      var n :| n in t.background;
      more, u := StartupTaskEnds(s, i, steps, t, n);
      more, u := StartupTasksEnd(s, i, more, u);
    }
  }

  lemma StartupIsEnabled(s: State, order: seq<Id>)
    requires Initial(s)
    requires forall q :: q in order <==> q in s.definitions && s.definitions[q].enabled && s.definitions[q].reconcileOnStartup
    ensures Enabled(s, ScheduleStartup(order)) && forall q | q in order :: EnabledPatch(s, q)
  {
    hide Loadable, Restored, Loaded;
  }

  /** From any new runtime: the watcher starts, and the patches to look at are looked at. */
  lemma Started(s: State, p: Id) returns (steps: seq<Step>, t: State)
    requires Ready(s, p)
    ensures Leads(s, steps, t) && Scene(s, t) && t == s.(stage := Open, next := t.next)
  {
    hide Initial, Leads, Invalidity, Enabled, After, MatchesEntry, ScheduleAll;
    ReadyIsValid(s, p);
    ValidIsCurrent(s, p);
    var order := Listed(set q | q in s.definitions && s.definitions[q].enabled && s.definitions[q].reconcileOnStartup);
    StartupIsEnabled(s, order);
    StartsUp(s, order);
    Stays(s);
    LeadsOn(s, [], s, ScheduleStartup(order));
    OnlyStarts(s, s.(stage := Open), order);
    steps, t := StartupTasksEnd(s, s, [] + [ScheduleStartup(order)], ScheduleAll(s.(stage := Open), order));
  }

  lemma StartsUp(s: State, order: seq<Id>)
    requires Enabled(s, ScheduleStartup(order)) && s.facts.unseen == {}
    ensures After(s, ScheduleStartup(order)) == ScheduleAll(s.(stage := Open), order)
  {
    hide Enabled, ScheduleAll, Lose;
    OpensFirst(s, order);
    ScheduleFacts(s, order);
    NothingToLose(ScheduleAll(s, order).(stage := Open));
  }

  // ----- The life of an action

  lemma Requested(s: State, steps: seq<Step>, t: State, p: Id, action: Action) returns (more: seq<Step>, u: State)
    requires Leads(s, steps, t) && Refusal(t, p, action).None?
    ensures Leads(s, more, u) && u == Admit(t, p, action)
  {
    hide Leads, Refusal;
    LeadsOn(s, steps, t, Request(p, action));
    more, u := steps + [Request(p, action)], Admit(t, p, action);
  }

  lemma AdmittedScene(s: State, t: State, p: Id, action: Action)
    requires Scene(s, t)
    ensures
      var u := Admit(t, p, action);
      && Scene(s, u) && u.suppressed == t.suppressed && u.states == t.states && u.facts == t.facts && u.watch == t.watch
      && u.tasks == t.tasks[t.next := Task(p, action, Waiting)] && u.lock == t.lock && u.busy == t.busy && u.next == t.next + 1
  {
  }

  lemma MayRequest(s: State, t: State, p: Id, action: Action)
    requires Scene(s, t) && Invalidity(s, p).None? && (action == Reconcile ==> p !in t.suppressed)
    ensures Refusal(t, p, action).None?
  {
    hide Invalidity;
    StillValid(s, t, p);
  }

  /** One more action is admitted. */
  lemma OneRequest(s: State, steps: seq<Step>, t: State, p: Id, action: Action) returns (more: seq<Step>, u: State)
    requires Leads(s, steps, t) && Scene(s, t) && Invalidity(s, p).None? && (action == Reconcile ==> p !in t.suppressed)
    ensures Leads(s, more, u) && Scene(s, u)
    ensures u.suppressed == t.suppressed && u.states == t.states && u.facts == t.facts && u.watch == t.watch
    ensures u.tasks == t.tasks[t.next := Task(p, action, Waiting)] && u.lock == t.lock && u.busy == t.busy && u.next == t.next + 1
  {
    hide Scene, Leads, Refusal, Admit, Invalidity;
    MayRequest(s, t, p, action);
    more, u := Requested(s, steps, t, p, action);
    AdmittedScene(s, t, p, action);
  }

  lemma BegunScene(s: State, t: State, n: nat)
    requires Scene(s, t) && HasTask(t, n)
    ensures
      var p, u := t.tasks[n].id, Begin(Seen(t, t.tasks[n].id), n);
      && Scene(s, u) && u.suppressed == t.suppressed && u.states == t.states && u.facts == Seen(t, p).facts && u.watch == t.watch
      && u.tasks == Moved(t.tasks, n, Working(s.definitions[p], t.states[p].lastError == Some(DurabilityUnconfirmed)))
      && u.lock == Some(ByTask(n)) && u.busy == t.busy + {t.tasks[n].id} && u.next == t.next
  {
    hide Moved;
  }

  lemma Begun(s: State, steps: seq<Step>, t: State, n: nat) returns (more: seq<Step>, u: State)
    requires Leads(s, steps, t) && Scene(s, t) && HasTask(t, n) && t.tasks[n].phase.Waiting? && t.lock.None?
    requires Invalidity(s, t.tasks[n].id).None? && s.definitions[t.tasks[n].id].enabled
    ensures Leads(s, more, u) && Scene(s, u) && u.suppressed == t.suppressed && u.states == t.states && u.watch == t.watch
    ensures u.facts == Seen(t, t.tasks[n].id).facts
    ensures
      var p := t.tasks[n].id;
      u.tasks == Moved(t.tasks, n, Working(s.definitions[p], t.states[p].lastError == Some(DurabilityUnconfirmed)))
    ensures u.lock == Some(ByTask(n)) && u.busy == t.busy + {t.tasks[n].id} && u.next == t.next
  {
    StillValid(s, t, t.tasks[n].id);
    hide Leads, Invalidity, Enabled, After, Begin, Moved, Seen;
    BeginsNow(t, n);
    LeadsOn(s, steps, t, TaskStarts(n));
    BegunScene(s, t, n);
    more, u := steps + [TaskStarts(n)], After(t, TaskStarts(n));
  }

  lemma Wrote(s: State, steps: seq<Step>, t: State, n: nat, result: ReconcileResult, synced: bool) returns (more: seq<Step>, u: State)
    requires Leads(s, steps, t) && Scene(s, t) && HasTask(t, n) && t.tasks[n].phase.Working?
    requires t.tasks[n].id !in t.facts.unsynced && Reports(t.tasks[n].phase.pending, true, result, synced)
    ensures Leads(s, more, u) && Scene(s, u) && u.suppressed == t.suppressed && u.states == t.states && u.watch == t.watch
    ensures u.facts.unseen == t.facts.unseen
    ensures u.tasks == Moved(t.tasks, n, Written(t.tasks[n].phase.definition, t.tasks[n].phase.pending, result))
    ensures u.lock == t.lock && u.busy == t.busy && u.next == t.next
    ensures u.facts.unsynced == if synced then t.facts.unsynced else t.facts.unsynced + {t.tasks[n].id}
  {
    hide Leads;
    LeadsOn(s, steps, t, TaskWrote(n, result, synced));
    more, u := steps + [TaskWrote(n, result, synced)], After(t, TaskWrote(n, result, synced));
  }

  lemma LosesSetting(t: State, n: nat)
    requires HasTask(t, n) && t.tasks[n].phase.Written? && t.tasks[n].action == Revert && t.tasks[n].id in t.entry.patches
    requires t.tasks[n].phase.result.inspection.status != SecurityError && !t.tasks[n].phase.pending
    ensures Enabled(t, TaskReturns(n, NotStored))
    ensures
      var p, lost := t.tasks[n].id, MetadataLost(t.tasks[n].phase.result);
      After(t, TaskReturns(n, NotStored)) == Record(Forget(Suppress(t, p), p), n, lost, false)
  {
    hide Forget, Suppress, Record;
  }

  lemma LostScene(s: State, t: State, n: nat)
    requires Scene(s, t) && HasTask(t, n) && t.tasks[n].phase.Written?
    ensures
      var p, lost := t.tasks[n].id, MetadataLost(t.tasks[n].phase.result);
      var u := Record(Forget(Suppress(t, p), p), n, lost, false);
      && Scene(s, u) && u.suppressed == t.suppressed + {p} && u.tasks == Moved(t.tasks, n, Saving)
      && u.lock == t.lock && u.busy == t.busy && u.next == t.next && u.facts.unsynced == t.facts.unsynced
      && u.watch == t.watch && u.facts.unseen == t.facts.unseen - {p}
      && p in u.states && u.states == t.states[p := u.states[p]] && u.states[p].lastError == Some(RevertMetadataUnavailable)
  {
    hide Moved;
  }

  lemma NotSaved(s: State, steps: seq<Step>, t: State, n: nat) returns (more: seq<Step>, u: State)
    requires Leads(s, steps, t) && Scene(s, t) && HasTask(t, n) && t.tasks[n].phase.Written? && t.tasks[n].action == Revert
    requires t.tasks[n].phase.result.inspection.status != SecurityError && !t.tasks[n].phase.pending
    requires t.tasks[n].id in s.entry.patches
    ensures Leads(s, more, u) && Scene(s, u) && u.suppressed == t.suppressed + {t.tasks[n].id}
    ensures u.tasks == Moved(t.tasks, n, Saving) && u.lock == t.lock && u.busy == t.busy && u.next == t.next
    ensures t.tasks[n].id in u.states && u.states == t.states[t.tasks[n].id := u.states[t.tasks[n].id]]
    ensures u.states[t.tasks[n].id].lastError == Some(RevertMetadataUnavailable)
    ensures u.facts.unsynced == t.facts.unsynced && u.watch == t.watch && u.facts.unseen == t.facts.unseen - {t.tasks[n].id}
  {
    hide Leads, Enabled, After, Moved, Record, Forget, Suppress, MetadataLost;
    LosesSetting(t, n);
    LostScene(s, t, n);
    LeadsOn(s, steps, t, TaskReturns(n, NotStored));
    more, u := steps + [TaskReturns(n, NotStored)], After(t, TaskReturns(n, NotStored));
  }

  lemma SavedAndDone(s: State, steps: seq<Step>, t: State, n: nat) returns (more: seq<Step>, u: State)
    requires Leads(s, steps, t) && Scene(s, t) && HasTask(t, n) && t.tasks[n].phase.Saving? && t.lock == Some(ByTask(n))
    ensures Leads(s, more, u) && Scene(s, u) && u.suppressed == t.suppressed && u.states == t.states && u.facts == t.facts
    ensures u.tasks == t.tasks - {n} && u.lock.None? && u.busy == t.busy - {t.tasks[n].id} && u.next == t.next
    ensures u.saved == Reasons(u) && u.watch == t.watch
  {
    hide Leads;
    LeadsOn(s, steps, t, TaskSaved(n, true));
    more, u := steps + [TaskSaved(n, true)], After(t, TaskSaved(n, true));
  }

  /** A revert that did its work but could not save its setting. */
  lemma SettingLost(s: State, steps: seq<Step>, t: State, n: nat, p: Id, result: ReconcileResult, synced: bool)
    returns (more: seq<Step>, u: State)
    requires Leads(s, steps, t) && Scene(s, t) && n in t.tasks && t.tasks[n] == Task(p, Revert, Waiting)
    requires Invalidity(s, p).None? && s.definitions[p].enabled && p in s.entry.patches && p in t.states
    requires t.states[p].lastError != Some(DurabilityUnconfirmed) && t.lock.None? && t.busy == {} && t.facts.unsynced == {}
    requires Reports(false, true, result, synced) && result.inspection.status != SecurityError
    ensures Leads(s, more, u) && Scene(s, u) && u.tasks == t.tasks - {n} && u.suppressed == t.suppressed + {p}
    ensures u.lock.None? && u.busy == {} && p in u.states && u.states[p].lastError == Some(RevertMetadataUnavailable)
    ensures u.facts.unsynced == (if synced then {} else {p}) && u.next == t.next && u.saved == Reasons(u)
    ensures u.watch == t.watch && u.facts.unseen == t.facts.unseen - {p}
  {
    hide Leads, Initial, Invalidity, Reasons;
    more, u := Begun(s, steps, t, n);
    more, u := Wrote(s, more, u, n, result, synced);
    more, u := NotSaved(s, more, u, n);
    more, u := SavedAndDone(s, more, u, n);
  }

  /** The same with a reconcile queued behind it. */
  lemma RevertLosesItsSetting(s: State, p: Id, result: ReconcileResult, synced: bool) returns (steps: seq<Step>, t: State, n: nat)
    requires Ready(s, p) && Reports(false, true, result, synced) && result.inspection.status != SecurityError
    ensures Leads(s, steps, t) && Scene(s, t) && t.lock.None? && t.busy == {}
    ensures t.tasks == map[n := Task(p, Reconcile, Waiting)] && t.suppressed == s.suppressed + {p}
    ensures p in t.states && t.states[p].lastError == Some(RevertMetadataUnavailable)
    ensures t.facts.unsynced == if synced then {} else {p}
  {
    hide Leads, Initial, Invalidity, Scene;
    ReadyIsValid(s, p);
    NotOwing(s, p);
    steps, t := Started(s, p);
    var k := t.next;
    n := k + 1;
    steps, t := OneRequest(s, steps, t, p, Revert);
    steps, t := OneRequest(s, steps, t, p, Reconcile);
    steps, t := SettingLost(s, steps, t, k, p, result, synced);
  }

  /** A reconcile queued before suppression began still reaches the reconciler afterwards. */
  lemma QueuedReconcileStillRuns(s: State, p: Id) returns (steps: seq<Step>, t: State, n: nat)
    requires Ready(s, p)
    ensures Leads(s, steps, t) && p in t.suppressed
    ensures n in t.tasks && t.tasks[n].phase.Working? && t.tasks[n].id == p && t.tasks[n].action == Reconcile
  {
    hide Leads, Initial, Invalidity;
    ReadyIsValid(s, p);
    steps, t, n := RevertLosesItsSetting(s, p, Changed, true);
    steps, t := Begun(s, steps, t, n);
  }

  /**
   A revert whose write is unconfirmed and whose setting is not saved: the reason `durability_unconfirmed` is
   gone, and the next action runs without knowing that a sync is owed.
   */
  lemma RevertOverwritesDurability(s: State, p: Id) returns (steps: seq<Step>, t: State, n: nat)
    requires Ready(s, p)
    ensures Leads(s, steps, t) && p in t.facts.unsynced && !OnRecord(t.states, p)
    ensures n in t.tasks && t.tasks[n].phase.Working? && t.tasks[n].id == p && !t.tasks[n].phase.pending
  {
    hide Leads, Initial, Invalidity;
    ReadyIsValid(s, p);
    steps, t, n := RevertLosesItsSetting(s, p, Unconfirmed, false);
    steps, t := Begun(s, steps, t, n);
  }

  // ----- Unloads that are not carried out

  lemma EventWhileClosing(t: State, p: Id)
    requires EnabledPatch(t, p) && t.closing && p !in t.suppressed && t.facts.unseen == {}
    ensures Enabled(t, FileEvent(p)) && After(t, FileEvent(p)) == t.(facts := t.facts.(unseen := {p}))
  {
    var u := Noticed(t, p);
    assert !Current(u) by { hide MatchesEntry; }
    hide Current, Covered;
  }

  lemma FailedUnloadDrops(t: State, p: Id)
    requires t.closing && t.stage.Open? && !t.watch.closed && MatchesEntry(t) && p in t.facts.unseen
    requires t.watch.pending == {} && t.watch.dirty == {} && t.watch.running == map[] && t.tasks == map[] && t.background == map[]
    ensures Enabled(t, UnloadFails) && Drops(t, UnloadFails, p)
  {
    hide MatchesEntry;
  }

  /** A file event that arrives while an unload is pending, and the unload then fails: nothing will check the patch. */
  lemma FailedUnloadMissesEvents(s: State, p: Id) returns (before: seq<Step>, t: State, later: seq<Step>, u: State)
    requires Ready(s, p)
    ensures Leads(s, before, t) && Leads(t, later, u) && Lost(u, p)
    ensures later == [UnloadBegins] + [FileEvent(p)] + [UnloadFails]
  {
    hide Initial, Leads, Invalidity, Enabled, After, MatchesEntry, Drops, Lost, Inv;
    ReadyIsValid(s, p);
    ValidIsCurrent(s, p);
    before, t := Started(s, p);
    Stays(t);
    MayUnload(t);
    LeadsOn(t, [], t, UnloadBegins);
    var a := t.(closing := true);
    SameMatches(s, a);
    EventWhileClosing(a, p);
    LeadsOn(t, [] + [UnloadBegins], a, FileEvent(p));
    var b := a.(facts := a.facts.(unseen := {p}));
    SameMatches(a, b);
    FailedUnloadDrops(b, p);
    LeadsOn(t, [] + [UnloadBegins] + [FileEvent(p)], b, UnloadFails);
    RunIsSafe(s, before, t);
    RunKeeps(t, [] + [UnloadBegins] + [FileEvent(p)], b);
    StepTells(b, UnloadFails, p);
    later, u := [] + [UnloadBegins] + [FileEvent(p)] + [UnloadFails], After(b, UnloadFails);
  }

  lemma MayUnload(s: State)
    requires s.stage.Open?
    ensures Enabled(s, UnloadBegins) && After(s, UnloadBegins) == s.(closing := true)
  {
  }

  lemma MayClose(s: State)
    requires s.stage.Open?
    ensures Enabled(s, CloseBegins) && After(s, CloseBegins) == CloseBegin(s)
  {
  }

  lemma MayDrain(s: State)
    requires s.stage.StoppingWatch? && NoChecks(s.watch) && s.tasks == map[] && s.background == map[]
    ensures Enabled(s, CloseDrains) && After(s, CloseDrains) == s.(stage := Draining({}))
  {
    assert s.tasks.Keys + s.background.Keys == {};
  }

  lemma MayLock(s: State)
    requires s.stage == Draining({}) && s.lock.None?
    ensures Enabled(s, CloseLocks) && After(s, CloseLocks) == s.(lock := Some(ByClose), stage := SavingStates)
  {
  }

  lemma MaySaveStates(s: State)
    requires s.stage.SavingStates? && s.lock == Some(ByClose)
    ensures Enabled(s, CloseSaves(true)) && After(s, CloseSaves(true)) == CloseSaved(s, true)
  {
    hide Saved;
  }

  lemma MayReload(s: State)
    requires s.stage.Closed? && !s.facts.reopened && s.lock.None? && Loadable(s.entry, s.checks)
    ensures Enabled(s, Reloads(true)) && After(s, Reloads(true)) == Reload(s, true)
  {
    hide Loadable, Reload;
  }

  /** Home Assistant stops while an unload is pending, and the close finds nothing to wait for. */
  lemma StopsDuringUnload(s: State, steps: seq<Step>, t: State) returns (more: seq<Step>, c: State)
    requires Leads(s, steps, t) && t.stage.Open? && t.watch == Watch({}, map[], {}, false) && t.tasks == map[] && t.background == map[]
    ensures Leads(s, more, c) && c == t.(closing := true, stage := Draining({}), watch := Watch({}, map[], {}, true))
  {
    hide Leads, Enabled, After;
    MayUnload(t);
    LeadsOn(s, steps, t, UnloadBegins);
    var a := t.(closing := true);
    MayClose(a);
    LeadsOn(s, steps + [UnloadBegins], a, CloseBegins);
    var b := CloseBegin(a);
    MayDrain(b);
    LeadsOn(s, steps + [UnloadBegins] + [CloseBegins], b, CloseDrains);
    more, c := steps + [UnloadBegins] + [CloseBegins] + [CloseDrains], b.(stage := Draining({}));
  }

  lemma StillRefusable(s: State, c: State, p: Id, order: seq<Id>)
    requires Enabled(s.(closing := true), UnloadRefused(order)) && EnabledPatch(s, p)
    requires c.closing && c.definitions == s.definitions && c.states == s.states
    ensures Enabled(c, UnloadRefused(order)) && EnabledPatch(c, p)
  {
    hide ScheduleAll, Reopen;
  }

  /** An unload refused after Home Assistant began to stop reopens admission behind the close. */
  lemma ReopenedDuringClose(s: State, p: Id, order: seq<Id>) returns (steps: seq<Step>, t: State, n: nat)
    requires Ready(s, p) && Enabled(s.(closing := true), UnloadRefused(order))
    ensures Leads(s, steps, t) && SameConfig(s, t) && t.stage == Draining({}) && !t.closing
    ensures t.states == s.states && t.suppressed == s.suppressed && t.tasks == map[] && t.lock.None? && t.busy == {}
    ensures n in t.background && t.background[n] == Background(p, Created) && t.watch == Watch({}, map[], {}, true)
  {
    hide Leads, Initial, Invalidity, Enabled, EnabledPatch, Scene;
    ReadyIsValid(s, p);
    var c;
    steps, c := Started(s, p);
    assert SameConfig(s, c);
    hide Ready, SameConfig;
    steps, c := StopsDuringUnload(s, steps, c);
    StillRefusable(s, c, p, order);
    steps, t, n := Refuses(s, steps, c, p, order);
  }

  lemma Refuses(s: State, steps: seq<Step>, c: State, p: Id, order: seq<Id>) returns (more: seq<Step>, t: State, n: nat)
    requires Leads(s, steps, c) && Enabled(c, UnloadRefused(order)) && EnabledPatch(c, p) && p !in c.suppressed
    requires NumberedBelow(c.tasks, c.background, c.next)
    ensures Leads(s, more, t) && SameConfig(c, t) && t.stage == c.stage && !t.closing && t.watch == c.watch
    ensures t.states == c.states && t.suppressed == c.suppressed && t.tasks == c.tasks && t.lock == c.lock && t.busy == c.busy
    ensures n in t.background && t.background[n] == Background(p, Created)
  {
    hide Leads, ScheduleAll;
    LeadsOn(s, steps, c, UnloadRefused(order));
    more, t := steps + [UnloadRefused(order)], After(c, UnloadRefused(order));
    ScheduleFacts(Reopen(c), order);
    ScheduleWatch(Reopen(c), order);
    ScheduleRest(Reopen(c), order, p);
    n :| n in t.background && t.background[n] == Background(p, Created);
  }

  lemma {:induction false} ScheduleRest(s: State, order: seq<Id>, p: Id)
    ensures NumberedBelow(s.tasks, s.background, s.next) && !s.closing && p !in s.suppressed && p in order ==>
              BackgroundCovers(ScheduleAll(s, order).background, p)
    ensures NumberedBelow(s.tasks, s.background, s.next) && BackgroundCovers(s.background, p) ==>
              BackgroundCovers(ScheduleAll(s, order).background, p)
    decreases |order|
  {
    if order != [] {
      ScheduleRest(Schedule(s, order[0]), order[1..], p);
      if NumberedBelow(s.tasks, s.background, s.next) {
        ScheduleCovers(s.background, s.next, order[0]);
      }
    }
  }

  /** So the runtime can be closed, its states saved for the last time, with an action at work. */
  lemma RefusedUnloadUndercutsClose(s: State, p: Id, order: seq<Id>) returns (steps: seq<Step>, t: State, n: nat)
    requires Ready(s, p) && Enabled(s.(closing := true), UnloadRefused(order))
    ensures Leads(s, steps, t) && t.stage.Closed?
    ensures n in t.tasks && t.tasks[n].id == p && t.tasks[n].phase.Working?
  {
    ReadyIsValid(s, p);
    hide Leads, Initial, Invalidity;
    var k;
    steps, t, k := ReopenedDuringClose(s, p, order);
    steps, t, n := AfterClose(s, steps, t, p, k);
  }

  lemma AfterClose(s: State, steps: seq<Step>, c: State, p: Id, k: nat) returns (more: seq<Step>, t: State, n: nat)
    requires Leads(s, steps, c) && SameConfig(s, c) && c.stage == Draining({}) && !c.closing
    requires c.lock.None? && c.busy == {} && c.tasks == map[] && p in c.states && p in s.definitions && s.definitions[p].enabled
    requires k in c.background && c.background[k] == Background(p, Created) && p !in c.suppressed && Invalidity(s, p).None?
    ensures Leads(s, more, t) && t.stage.Closed?
    ensures n in t.tasks && t.tasks[n].id == p && t.tasks[n].phase.Working?
  {
    hide Leads, Invalidity, Enabled, After, Saved, StartBackground, Begin;
    MayLock(c);
    LeadsOn(s, steps, c, CloseLocks);
    var d := c.(lock := Some(ByClose), stage := SavingStates);
    MaySaveStates(d);
    LeadsOn(s, steps + [CloseLocks], d, CloseSaves(true));
    var e := CloseSaved(d, true);
    SavedStays(d);
    StillValid(s, e, p);
    StartsFromBackground(e, p, k);
    LeadsOn(s, steps + [CloseLocks] + [CloseSaves(true)], e, BackgroundStarts(k));
    var f := StartBackground(e, k);
    n := e.next;
    StillValid(s, f, p);
    MayBegin(f, n);
    LeadsOn(s, steps + [CloseLocks] + [CloseSaves(true)] + [BackgroundStarts(k)], f, TaskStarts(n));
    more, t := steps + [CloseLocks] + [CloseSaves(true)] + [BackgroundStarts(k)] + [TaskStarts(n)], After(f, TaskStarts(n));
  }

  lemma SavedStays(s: State)
    ensures Saved(s) == s.(saved := Saved(s).saved)
  {
    hide Reasons;
  }

  lemma StartsFromBackground(s: State, p: Id, k: nat)
    requires k in s.background && s.background[k] == Background(p, Created) && !s.closing && p !in s.suppressed
    requires Invalidity(s, p).None?
    ensures Enabled(s, BackgroundStarts(k)) && After(s, BackgroundStarts(k)) == StartBackground(s, k)
    ensures
      var t := StartBackground(s, k);
      && SameConfig(s, t) && t.stage == s.stage && t.states == s.states && t.lock == s.lock
      && t.tasks == s.tasks[s.next := Task(p, Reconcile, Waiting)]
  {
    hide Invalidity;
  }

  lemma MayBegin(s: State, n: nat)
    requires HasTask(s, n) && s.tasks[n].phase.Waiting? && s.lock.None?
    requires Invalidity(s, s.tasks[n].id).None? && s.definitions[s.tasks[n].id].enabled
    ensures Enabled(s, TaskStarts(n))
    ensures
      var t := After(s, TaskStarts(n));
      t.stage == s.stage && n in t.tasks && t.tasks[n].id == s.tasks[n].id && t.tasks[n].phase.Working?
  {
    hide Invalidity, Finish;
  }

  // ----- Suppression across runtimes

  /** A new runtime suppresses exactly the patches whose last saved reason is the lost setting. */
  lemma ReloadSuppresses(s: State, loaded: bool, p: Id)
    requires Inv(s) && s.stage.Closed? && !s.facts.reopened && Loadable(s.entry, s.checks)
    ensures p in Reload(s, loaded).suppressed <==>
            loaded && p in s.entry.patches && p in s.states && s.states[p].lastError == Some(RevertMetadataUnavailable)
  {
    hide Inv, FromMapping, Loadable, LostByReload;
    SavedAtClose(s);
  }

  lemma RevertAlone(s: State, p: Id) returns (steps: seq<Step>, t: State)
    requires Ready(s, p)
    ensures Leads(s, steps, t) && Scene(s, t) && t.lock.None? && t.busy == {} && t.tasks == map[] && t.watch == Watch({}, map[], {}, false)
    ensures p in t.suppressed && p in t.states && t.states[p].lastError == Some(RevertMetadataUnavailable)
  {
    hide Leads, Initial, Invalidity, Scene, Reasons;
    ReadyIsValid(s, p);
    NotOwing(s, p);
    steps, t := Started(s, p);
    var n := t.next;
    steps, t := OneRequest(s, steps, t, p, Revert);
    steps, t := SettingLost(s, steps, t, n, p, Changed, true);
  }

  lemma NotOwing(s: State, p: Id)
    requires Ready(s, p)
    ensures p in s.states && s.states[p].lastError != Some(DurabilityUnconfirmed)
  {
    hide Initial;
  }

  lemma DeniedScene(s: State, t: State, p: Id, reason: Reason)
    requires Scene(s, t) && p in s.definitions && s.definitions[p].enabled && !Gate(Some(reason))
    requires p in t.states && t.states[p].lastError == Some(RevertMetadataUnavailable)
    ensures
      var u := Denied(t, p, reason);
      && Enabled(t, RootDenied(p, reason)) && After(t, RootDenied(p, reason)) == u
      && Scene(s, u) && u.tasks == t.tasks && u.lock == t.lock && u.busy == t.busy && u.watch == t.watch
      && p in u.states && u.states[p].lastError == Some(reason)
  {
  }

  const CLOSE: seq<Step> := [CloseBegins] + [CloseDrains] + [CloseLocks] + [CloseSaves(true)]

  /** The runtime after a close from rest. */
  function AtClose(t: State): State {
    Saved(t).(closing := true, stage := Closed, watch := Watch({}, map[], {}, true))
  }

  lemma Closes(s: State, steps: seq<Step>, t: State) returns (more: seq<Step>, u: State)
    requires Leads(s, steps, t) && t.stage.Open?
    requires t.watch.running == map[] && t.tasks == map[] && t.background == map[] && t.lock.None?
    ensures Leads(s, more, u) && more == steps + CLOSE
    ensures u == AtClose(t)
  {
    hide Leads, Enabled, After, Reasons;
    MayClose(t);
    LeadsOn(s, steps, t, CloseBegins);
    var a := CloseBegin(t);
    MayDrain(a);
    LeadsOn(s, steps + [CloseBegins], a, CloseDrains);
    var b := a.(stage := Draining({}));
    MayLock(b);
    LeadsOn(s, steps + [CloseBegins] + [CloseDrains], b, CloseLocks);
    var c := b.(lock := Some(ByClose), stage := SavingStates);
    MaySaveStates(c);
    LeadsOn(s, steps + [CloseBegins] + [CloseDrains] + [CloseLocks], c, CloseSaves(true));
    SameReasons(c, t);
    more, u := steps + CLOSE, CloseSaved(c, true);
    assert more == steps + [CloseBegins] + [CloseDrains] + [CloseLocks] + [CloseSaves(true)];
  }

  /** At rest, a runtime can be closed and a new one set up with the states it saved. */
  lemma ClosesAndReloads(s: State, steps: seq<Step>, t: State) returns (more: seq<Step>, u: State)
    requires Leads(s, steps, t) && t.stage.Open? && !t.facts.reopened && Loadable(t.entry, t.checks)
    requires t.watch.running == map[] && t.tasks == map[] && t.background == map[] && t.lock.None?
    ensures Leads(s, more, u) && more == steps + CLOSE + [Reloads(true)]
    ensures u == Reload(AtClose(t), true)
  {
    hide Leads, Loadable, Reload, Reasons, Enabled, After;
    var d;
    more, d := Closes(s, steps, t);
    MayReload(d);
    LeadsOn(s, more, d, Reloads(true));
    more, u := more + [Reloads(true)], Reload(d, true);
  }

  lemma SameReasons(s: State, t: State)
    requires s.states == t.states
    ensures Reasons(s) == Reasons(t)
  {
  }

  /** What comes back after a close and a reload of an unchanged entry. */
  lemma BootedFrom(s: State, t: State, p: Id, reason: Option<Reason>)
    requires Ready(s, p) && SameConfig(s, t) && p in t.states && t.states[p].lastError == reason && !Gate(reason)
    ensures Loadable(t.entry, t.checks)
    ensures
      var u := Reload(AtClose(t), true);
      && SameConfig(s, u) && p !in u.suppressed && !u.closing && u.stage.Starting? && u.states.Keys == s.definitions.Keys
      && (p in u.facts.unseen <==> p in t.facts.unseen) && u.watch == Watch({}, map[], {}, false) && u.background == map[] && u.tasks == map[]
  {
    hide FromMapping, Loadable, LostByReload;
  }

  /**
   A denied watch root replaces the reason suppression is restored from. From any new runtime there is a run in
   which a revert loses its setting and the patch is suppressed; its root is denied; and after a close and a
   reload reconciles of the patch are admitted again, although the setting was never saved.
   */
  lemma DenialErasesSuppression(s: State, p: Id, reason: Reason)
    returns (before: seq<Step>, t: State, later: seq<Step>, u: State)
    requires Ready(s, p) && !Gate(Some(reason))
    ensures Leads(s, before, t) && p in t.suppressed
    ensures Leads(t, later, u) && later == [RootDenied(p, reason)] + CLOSE + [Reloads(true)]
    ensures SameConfig(s, u) && p !in u.suppressed && Refusal(u, p, Reconcile).None?
  {
    hide Leads, Initial, Invalidity, Ready, Scene, Reload, AtClose, Reasons;
    ReadyIsValid(s, p);
    before, t := RevertAlone(s, p);
    Stays(t);
    DeniedScene(s, t, p, reason);
    LeadsOn(t, [], t, RootDenied(p, reason));
    var d := Denied(t, p, reason);
    hide Enabled, After, Denied;
    AtRest(s, d);
    BootedFrom(s, d, p, Some(reason));
    later, u := ClosesAndReloads(t, [] + [RootDenied(p, reason)], d);
    StillValid(s, u, p);
  }

  lemma AtRest(s: State, t: State)
    requires Scene(s, t)
    ensures SameConfig(s, t) && !t.closing && t.stage.Open? && !t.facts.reopened && t.background == map[]
  {
  }

  // ----- Events across runtimes

  /** An event on a patch at rest sets its timer. */
  lemma EventIsMarked(s: State, t: State, p: Id)
    requires Scene(s, t) && EnabledPatch(t, p) && p !in t.suppressed && t.watch.running == map[] && p !in t.busy
    ensures Enabled(t, FileEvent(p))
    ensures
      var u := After(t, FileEvent(p));
      && Scene(s, u) && u.suppressed == t.suppressed && u.states == t.states && u.tasks == t.tasks && u.lock == t.lock && u.busy == t.busy
      && u.next == t.next && u.facts.unseen == t.facts.unseen + {p} && u.facts.unsynced == t.facts.unsynced
      && u.watch == Watch(t.watch.pending + {p}, map[], {}, false)
  {
    hide Lose;
    LoseRest(Marked(t, p));
  }

  lemma StartupDrops(s: State, u: State, p: Id, order: seq<Id>)
    requires SameConfig(s, u) && MatchesEntry(s) && u.stage.Starting? && u.states.Keys == s.definitions.Keys
    requires forall q :: q in order <==> q in s.definitions && s.definitions[q].enabled && s.definitions[q].reconcileOnStartup
    requires p in u.facts.unseen && p in s.definitions && !s.definitions[p].reconcileOnStartup
    requires u.watch == Watch({}, map[], {}, false) && u.background == map[] && u.tasks == map[]
    ensures Enabled(u, ScheduleStartup(order)) && Drops(u, ScheduleStartup(order), p)
  {
    hide Matches;
  }

  /**
   A file event whose timer runs when the runtime is reloaded is lost if the patch is not looked at on startup, with
   nothing failing: neither the entry nor the patch has changed.
   */
  lemma ReloadMissesEvents(s: State, p: Id) returns (before: seq<Step>, t: State, order: seq<Id>, later: seq<Step>, u: State)
    requires Ready(s, p) && !s.definitions[p].reconcileOnStartup
    ensures Leads(s, before, t) && SameConfig(s, t) && t.stage.Open? && t.facts.unseen == {} && t.tasks == map[]
    ensures Leads(t, later, u) && later == [FileEvent(p)] + CLOSE + [Reloads(true)] + [ScheduleStartup(order)]
    ensures Lost(u, p) && SameConfig(s, u)
  {
    hide Initial, Leads, Invalidity, Enabled, After, MatchesEntry, Drops, Lost, Inv, Scene, AtClose, Reload;
    ReadyIsValid(s, p);
    ValidIsCurrent(s, p);
    before, t := Started(s, p);
    Stays(t);
    EventIsMarked(s, t, p);
    LeadsOn(t, [], t, FileEvent(p));
    var a := After(t, FileEvent(p));
    AtRest(s, a);
    BootedFrom(s, a, p, s.states[p].lastError);
    later, u := ClosesAndReloads(t, [] + [FileEvent(p)], a);
    order := Listed(set q | q in s.definitions && s.definitions[q].enabled && s.definitions[q].reconcileOnStartup);
    StartupDrops(s, u, p, order);
    LeadsOn(t, later, u, ScheduleStartup(order));
    RunIsSafe(s, before, t);
    RunKeeps(t, later, u);
    StepTells(u, ScheduleStartup(order), p);
    StartupSteps(u, ScheduleStartup(order));
    later, u := later + [ScheduleStartup(order)], After(u, ScheduleStartup(order));
  }

  // ----- A check that is over before it is stored

  lemma GoesStale(s: State, t: State, p: Id)
    requires Scene(s, t) && t.watch == Watch({p}, map[], {}, false) && p in t.suppressed && t.busy == {}
    ensures Enabled(t, TimerFires(p, true))
    ensures After(t, TimerFires(p, true)) == t.(watch := Watch({}, map[p := Stale], {}, false))
    ensures Scene(s, After(t, TimerFires(p, true)))
  {
    hide Invalidity;
    assert Refusal(t, p, Reconcile).Some?;
    hide Refusal;
  }

  lemma StoresSetting(s: State, t: State, n: nat, p: Id)
    requires Scene(s, t) && HasTask(t, n) && t.tasks == map[n := Task(p, Revert, t.tasks[n].phase)] && t.tasks[n].phase.Written?
    requires t.tasks[n].phase.result == Changed && p in t.entry.patches && t.definitions[p].enabled && MatchesEntry(t)
    ensures Enabled(t, TaskReturns(n, Stored))
    ensures
      var u := After(t, TaskReturns(n, Stored));
      && HasTask(u, n) && u.tasks == map[n := Task(p, Revert, Saving)] && p !in u.suppressed && EnabledPatch(u, p)
      && u.watch == t.watch && u.background == t.background && u.stage == t.stage && u.closing == t.closing && u.lock == t.lock
      && u.busy == t.busy
  {
    hide AsData, Lose, MatchesEntry;
    LoseRest(RecordOrRefresh(StoreSetting(t, p), n, Changed, t.tasks[n].phase.pending));
  }

  lemma SavesAtOnce(t: State, n: nat, p: Id)
    requires HasTask(t, n) && t.tasks == map[n := Task(p, Revert, Saving)] && EnabledPatch(t, p) && t.watch.dirty == {}
    ensures Enabled(t, TaskSaved(n, true))
    ensures
      var u := After(t, TaskSaved(n, true));
      && u.tasks == map[] && u.suppressed == t.suppressed && EnabledPatch(u, p) && u.watch == t.watch && u.background == t.background
      && u.stage == t.stage && u.closing == t.closing
  {
    var k := t.tasks - {n};
    assert k == map[];
  }

  lemma UnheardDrops(t: State, p: Id)
    requires EnabledPatch(t, p) && t.watch == Watch({}, map[p := Stale], {}, false) && t.tasks == map[] && t.background == map[]
    requires t.stage.Open? && !t.closing && MatchesEntry(t) && p !in t.suppressed
    ensures Enabled(t, FileEvent(p)) && Drops(t, FileEvent(p), p)
  {
    hide MatchesEntry;
  }

  /** A timer that runs out while its patch is suppressed leaves a stale check, if the check starts at once. */
  lemma ChecksWhileSuppressed(s: State, p: Id) returns (steps: seq<Step>, t: State)
    requires Ready(s, p)
    ensures Leads(s, steps, t) && Scene(s, t) && t.watch == Watch({}, map[p := Stale], {}, false)
    ensures t.tasks == map[] && t.lock.None? && t.busy == {} && t.facts.unsynced == {}
    ensures p in t.states && t.states[p].lastError == Some(RevertMetadataUnavailable)
  {
    hide Leads, Initial, Invalidity, Scene, Reasons, Enabled, After;
    ReadyIsValid(s, p);
    NotOwing(s, p);
    steps, t := Started(s, p);
    EventIsMarked(s, t, p);
    LeadsOn(s, steps, t, FileEvent(p));
    steps, t := steps + [FileEvent(p)], After(t, FileEvent(p));
    var n := t.next;
    steps, t := OneRequest(s, steps, t, p, Revert);
    steps, t := SettingLost(s, steps, t, n, p, Changed, true);
    GoesStale(s, t, p);
    LeadsOn(s, steps, t, TimerFires(p, true));
    steps, t := steps + [TimerFires(p, true)], After(t, TimerFires(p, true));
  }

  /** A second revert is done, and about to save its setting. */
  lemma RevertsAgain(s: State, steps: seq<Step>, t: State, p: Id) returns (more: seq<Step>, u: State, n: nat)
    requires Leads(s, steps, t) && Scene(s, t) && t.tasks == map[] && t.lock.None? && t.busy == {} && t.facts.unsynced == {}
    requires Invalidity(s, p).None? && p in s.definitions && s.definitions[p].enabled && p in t.states && MatchesEntry(s) && p in s.entry.patches
    ensures Leads(s, more, u) && Scene(s, u) && HasTask(u, n) && u.tasks == map[n := Task(p, Revert, u.tasks[n].phase)]
    ensures u.tasks[n].phase.Written? && u.tasks[n].phase.result == Changed && u.watch == t.watch
    ensures p in u.entry.patches && u.definitions[p].enabled && MatchesEntry(u) && u.lock == Some(ByTask(n)) && u.background == map[]
    ensures u.stage.Open? && !u.closing
  {
    hide Leads, Invalidity, Scene, MatchesEntry, Reported;
    n := t.next;
    more, u := OneRequest(s, steps, t, p, Revert);
    AtRest(s, u);
    more, u := Begun(s, more, u, n);
    AtRest(s, u);
    more, u := Wrote(s, more, u, n, Changed, true);
    AtRest(s, u);
    SameMatches(s, u);
  }

  /**
   The watcher goes deaf: a revert loses its setting, a timer of the patch runs out while it is suppressed, and
   the check, refused at once, is stored when it is over. A second revert saves the setting and lifts the
   suppression, but the next file event is marked behind a check that never ends.
   */
  lemma StaleCheckMissesEvents(s: State, p: Id) returns (steps: seq<Step>, t: State)
    requires Ready(s, p)
    ensures Leads(s, steps, t) && p !in t.suppressed && p in t.watch.dirty && Lost(t, p)
  {
    hide Leads, Initial, Invalidity, Scene, Reasons, Enabled, After, MatchesEntry, Inv, Drops, Lost;
    ReadyIsValid(s, p);
    ValidIsCurrent(s, p);
    steps, t := ChecksWhileSuppressed(s, p);
    var n;
    steps, t, n := RevertsAgain(s, steps, t, p);
    StoresSetting(s, t, n, p);
    OnlyEditsBreakTheMatch(t, TaskReturns(n, Stored));
    LeadsOn(s, steps, t, TaskReturns(n, Stored));
    steps, t := steps + [TaskReturns(n, Stored)], After(t, TaskReturns(n, Stored));
    SavesAtOnce(t, n, p);
    OnlyEditsBreakTheMatch(t, TaskSaved(n, true));
    LeadsOn(s, steps, t, TaskSaved(n, true));
    steps, t := steps + [TaskSaved(n, true)], After(t, TaskSaved(n, true));
    UnheardDrops(t, p);
    RunIsSafe(s, steps, t);
    StepTells(t, FileEvent(p), p);
    LeadsOn(s, steps, t, FileEvent(p));
    MarkedBehind(t, p);
    steps, t := steps + [FileEvent(p)], After(t, FileEvent(p));
  }

  lemma MarkedBehind(t: State, p: Id)
    requires EnabledPatch(t, p) && t.watch == Watch({}, map[p := Stale], {}, false) && !t.closing && p !in t.suppressed
    ensures Enabled(t, FileEvent(p)) && p in After(t, FileEvent(p)).watch.dirty && p !in After(t, FileEvent(p)).suppressed
  {
    hide Lose;
    LoseRest(Marked(t, p));
  }
}
