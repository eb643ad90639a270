/**
 What the runtime does for the patches of its entry: which actions it admits and carries out, which file events and
 which startup concern a patch, and what is stored.
 */
module RuntimeService {
  import opened Models
  import opened Definitions
  import opened Reconciling
  import opened RuntimeSteps
  import opened RuntimeSafety
  import opened RuntimeTheorems
  import opened RuntimeStates
  import opened RuntimeReverts
  import Runtime

  /** The runtime holds what the saved entry reads as. */
  ghost predicate InStep(s: State) {
    && s.entry.retention == s.retention && s.entry.patches.Keys == s.definitions.Keys
    && forall p | p in s.entry.patches :: FromMapping(p, s.entry.patches[p], s.checks) == Success(s.definitions[p])
  }

  predicate Serves(s: State, p: Id) {
    p in s.definitions && s.definitions[p].enabled
  }

  lemma ValidExactly(s: State, p: Id)
    ensures Invalidity(s, p).None? <==> InStep(s) && Serves(s, p)
  {
    hide FromMapping, IsTrue;
    if p in s.entry.patches && FromMapping(p, s.entry.patches[p], s.checks).Success? {
      EnabledIsRead(p, s.entry.patches[p], s.checks);
      EnabledIsTrue(p, s.entry.patches[p], s.checks);
    }
    hide Get;
  }

  lemma EnabledIsTrue(id: string, raw: RawData, checks: Checks)
    requires FromMapping(id, raw, checks).Success?
    ensures IsTrue(raw, "enabled") <==> Get(raw, "enabled", Bool(true)) == Bool(true)
  {
    hide FromMapping;
  }

  /**
   An action is admitted exactly for an enabled patch of a runtime that is not closing and in step with its entry; no
   reconcile is while the patch is suppressed. A refused action changes nothing.
   */
  lemma AdmitsExactly(s: State, p: Id, action: Action)
    ensures
      var t := After(s, Request(p, action));
      if !s.closing && InStep(s) && Serves(s, p) && !(action == Reconcile && p in s.suppressed)
      then t == s.(tasks := s.tasks[s.next := Task(p, action, Waiting)], next := s.next + 1)
      else t == s && Refusal(s, p, action).Some?
    ensures s.closing ==> Refusal(s, p, action) == Some(RuntimeClosing)
  {
    hide Invalidity, InStep;
    ValidExactly(s, p);
  }

  lemma BeginExactly(s: State, n: nat)
    requires HasTask(s, n)
    ensures
      var t, p := Begin(Seen(s, s.tasks[n].id), n), s.tasks[n].id;
      && t.states == s.states && t.definitions == s.definitions && t.lock == Some(ByTask(n)) && t.busy == s.busy + {p}
      && t.tasks == s.tasks[n := Task(p, s.tasks[n].action, Working(s.definitions[p], s.states[p].lastError == Some(DurabilityUnconfirmed)))]
  {
  }

  lemma FinishExactly(s: State, n: nat)
    requires n in s.tasks
    ensures
      var t, p := Finish(s, n), s.tasks[n].id;
      && t.states == s.states && t.definitions == s.definitions && t.tasks == s.tasks - {n} && t.busy == s.busy - {p}
      && t.lock == if s.lock == Some(ByTask(n)) then None else s.lock
  {
    hide Completed;
  }

  /**
   An action whose turn it is goes to work exactly if its patch is still enabled and the runtime in step, with the
   definition and the owed sync as they are then; otherwise it is over, and the lock stays free.
   */
  lemma WorksExactly(s: State, n: nat)
    requires HasTask(s, n) && s.lock.None?
    ensures
      var t, p := Start(s, n), s.tasks[n].id;
      && t.states == s.states && t.definitions == s.definitions
      && if InStep(s) && Serves(s, p) then
           && t.tasks == s.tasks[n := Task(p, s.tasks[n].action, Working(s.definitions[p], s.states[p].lastError == Some(DurabilityUnconfirmed)))]
           && t.lock == Some(ByTask(n)) && t.busy == s.busy + {p}
         else t.tasks == s.tasks - {n} && t.lock == None && t.busy == s.busy - {p}
  {
    hide Invalidity, InStep, Begin, Finish, Seen;
    BeginExactly(s, n);
    FinishExactly(s, n);
    ValidExactly(s, s.tasks[n].id);
  }

  /**
   A file event on a patch that is watched asks for a check: after the quiet time, or, while an action or check of the
   patch is under way, after that. It asks for nothing while the patch is suppressed or the runtime is closing, and
   never for another patch.
   */
  lemma EventAsks(s: State, p: Id)
    requires Enabled(s, FileEvent(p))
    ensures
      var t := After(s, FileEvent(p));
      && t.tasks == s.tasks && t.background == s.background && t.states == s.states && t.watch.running == s.watch.running
      && if s.watch.closed || s.closing || p in s.suppressed then t.watch == s.watch
         else if p in s.watch.running || p in s.busy then t.watch.pending == s.watch.pending - {p} && t.watch.dirty == s.watch.dirty + {p}
         else t.watch.pending == s.watch.pending + {p} && t.watch.dirty == s.watch.dirty
  {
    NoticeFacts(s, p);
    LoseRest(Marked(s, p));
    hide Lose;
  }

  // ----- File events

  /** A file event asks for a check of exactly the enabled patches whose target it names and whose pattern matches. */
  lemma {:induction false} AffectedExactly(definitions: map<Id, PatchDefinition>, checks: Checks, paths: set<string>, order: seq<Id>, p: Id)
    ensures p in Runtime.Affected(definitions, checks, paths, order) <==>
            p in order && p in definitions && definitions[p].enabled && definitions[p].targetPath in paths && PassesFilter(definitions[p], checks)
    decreases |order|
  {
    hide PassesFilter;
    if order != [] {
      AffectedExactly(definitions, checks, paths, order[1..], p);
      assert order == [order[0]] + order[1..];
    }
  }

  /** And in step the pattern always matches the target. */
  lemma HearsExactly(s: State, paths: set<string>, order: seq<Id>, p: Id)
    requires InStep(s) && p in order
    ensures p in Runtime.Affected(s.definitions, s.checks, paths, order) <==> Serves(s, p) && s.definitions[p].targetPath in paths
  {
    hide PassesFilter, FromMapping;
    AffectedExactly(s.definitions, s.checks, paths, order, p);
    if p in s.definitions {
      var d := s.definitions[p];
      assert FromMapping(p, s.entry.patches[p], s.checks) == Success(d);
      TargetPassesFilter(p, s.entry.patches[p], s.checks, d.autoApply);
      assert d.(autoApply := d.autoApply) == d;
    }
  }

  // ----- Startup

  /** The background calls added between two states are new ones, for these patches. */
  ghost predicate Adds(s: State, t: State, order: seq<Id>) {
    && s.next <= t.next && t.suppressed == s.suppressed && t.closing == s.closing
    && (forall n | n in s.background && n < s.next :: n in t.background && t.background[n] == s.background[n])
    && (forall n | s.next <= n < t.next :: n in t.background && t.background[n].call.Created? && t.background[n].id in order &&
                                           t.background[n].id !in s.suppressed)
    && (forall p | p in order && p !in s.suppressed :: exists n :: s.next <= n < t.next && n in t.background && t.background[n].id == p)
  }

  lemma {:induction false} ScheduleAdds(s: State, order: seq<Id>)
    requires !s.closing
    ensures Adds(s, ScheduleAll(s, order), order)
    decreases |order|
  {
    if order != [] {
      var u := Schedule(s, order[0]);
      var t := ScheduleAll(u, order[1..]);
      ScheduleAdds(u, order[1..]);
      assert order == [order[0]] + order[1..];
      AddsMore(s, u, t, order[0], order[1..]);
    }
  }

  lemma AddsMore(s: State, u: State, t: State, p: Id, rest: seq<Id>)
    requires !s.closing && u == Schedule(s, p) && Adds(u, t, rest)
    ensures Adds(s, t, [p] + rest)
  {
    forall q | q in [p] + rest && q !in s.suppressed ensures exists n :: s.next <= n < t.next && n in t.background && t.background[n].id == q {
      if q == p {
        assert s.next in u.background && u.background[s.next].id == p;
        assert s.next in t.background && t.background[s.next] == u.background[s.next];
      } else {
        var n :| u.next <= n < t.next && n in t.background && t.background[n].id == q;
        assert s.next <= n;
      }
    }
  }

  /** Startup adds one background call at least for each enabled patch that asks for it and is not suppressed, and no others. */
  lemma StartsExactly(s: State, order: seq<Id>)
    requires Enabled(s, ScheduleStartup(order)) && !s.closing
    ensures
      var t := After(s, ScheduleStartup(order));
      && t.stage == Open && t.next >= s.next
      && (forall n | s.next <= n < t.next ::
            && n in t.background && t.background[n].call.Created?
            && Serves(s, t.background[n].id) && s.definitions[t.background[n].id].reconcileOnStartup && t.background[n].id !in s.suppressed)
      && (forall p | Serves(s, p) && s.definitions[p].reconcileOnStartup && p !in s.suppressed ::
            exists n :: s.next <= n < t.next && n in t.background && t.background[n].id == p)
  {
    hide ScheduleAll, Lose;
    ScheduleAdds(s, order);
    LoseRest(ScheduleAll(s, order).(stage := Open));
  }

  // ----- What is stored

  /** Only a save that succeeds changes what is stored: then it holds the reason every patch shows. */
  lemma StoresExactly(s: State, step: Step)
    requires Enabled(s, step)
    ensures
      var t := After(s, step);
      if step == CloseSaves(true) || (step.TaskSaved? && step.ok) then
        t.saved.Keys == s.states.Keys && forall p | p in s.states :: t.saved[p] == s.states[p].lastError
      else t.saved == s.saved
  {
    hide Enabled, After;
    if WatcherStep(step) {
      WatcherStores(s, step);
    } else if CallStep(step) {
      CallStores(s, step);
    } else if TaskStep(step) {
      TaskStores(s, step);
    } else {
      OutsideStores(s, step);
    }
  }

  lemma WatcherStores(s: State, step: Step)
    requires Enabled(s, step) && WatcherStep(step)
    ensures After(s, step).saved == s.saved
  {
    hide Debounced, Expire, Refusal, Lose;
    if step.FileEvent? || step.RootRecovered? {
      NoticeFacts(s, step.id);
      LoseRest(Marked(s, step.id));
      LoseRest(Rechecked(s, step.id));
    }
  }

  lemma StartupStores(s: State, order: seq<Id>)
    requires Enabled(s, ScheduleStartup(order))
    ensures After(s, ScheduleStartup(order)).saved == s.saved
  {
    assert After(s, ScheduleStartup(order)) == Startup(s, order);
    hide After, Enabled, Lose, ScheduleAll;
    ScheduleStores(s, order);
    LoseRest(ScheduleAll(s, order).(stage := Open));
  }

  lemma CallStores(s: State, step: Step)
    requires Enabled(s, step) && CallStep(step)
    ensures After(s, step).saved == s.saved
  {
    if step.ScheduleStartup? {
      hide After, Enabled;
      StartupStores(s, step.order);
    } else {
      hide Completed, Refusal, Lose, ScheduleAll, Startup;
    }
  }

  lemma {:induction false} ScheduleStores(s: State, order: seq<Id>)
    ensures ScheduleAll(s, order).saved == s.saved
    decreases |order|
  {
    if order != [] {
      ScheduleStores(Schedule(s, order[0]), order[1..]);
    }
  }

  lemma TaskStores(s: State, step: Step)
    requires Enabled(s, step) && TaskStep(step)
    ensures
      var t := After(s, step);
      if step.TaskSaved? && step.ok then
        t.saved.Keys == s.states.Keys && forall p | p in s.states :: t.saved[p] == s.states[p].lastError
      else t.saved == s.saved
  {
    hide Finish, Record, Reported, Return, Start;
    match step
    case TaskStarts(n) => StartStores(s, n);
    case TaskWrote(n, result, synced) =>
    case TaskCrashed(n) => FinishStores(s, n);
    case TaskReturns(n, setting) => ReturnStores(s, n, setting);
    case TaskRefreshed(n) => RefreshStores(s, n, s.tasks[n].phase.result, s.tasks[n].phase.pending);
    case TaskSaved(n, ok) => FinishStores(if ok then Saved(s) else s, n);
  }

  lemma FinishStores(s: State, n: nat)
    requires n in s.tasks
    ensures Finish(s, n).saved == s.saved
  {
    hide Completed;
  }

  lemma StartStores(s: State, n: nat)
    requires HasTask(s, n)
    ensures Start(s, n).saved == s.saved
  {
    FinishStores(s, n);
    hide Finish, Invalidity;
  }

  lemma RefreshStores(s: State, n: nat, result: ReconcileResult, pending: bool)
    requires n in s.tasks && s.tasks[n].id in s.states
    ensures Record(s, n, result, pending).saved == s.saved
  {
    hide Noted;
  }

  lemma RecordStores(s: State, n: nat, result: ReconcileResult, pending: bool)
    requires n in s.tasks && s.tasks[n].id in s.states
    ensures RecordOrRefresh(s, n, result, pending).saved == s.saved
  {
    hide DeniedPath, Noted;
  }

  lemma SettingStores(s: State, n: nat)
    requires HasTask(s, n)
    ensures
      var p := s.tasks[n].id;
      StoreSetting(s, p).saved == Forget(Suppress(s, p), p).saved == Forget(s, p).saved == s.saved
  {
    hide AsData;
  }

  lemma ReturnStores(s: State, n: nat, setting: Setting)
    requires HasTask(s, n) && s.tasks[n].phase.Written?
    ensures Return(s, n, setting).saved == s.saved
  {
    var p, phase := s.tasks[n].id, s.tasks[n].phase;
    SettingKeepsTask(s, n);
    SettingKeepsStates(s, n);
    SettingStores(s, n);
    RecordStores(s, n, phase.result, phase.pending);
    hide RecordOrRefresh, Finish, Lose, StoreSetting, Suppress, Forget, MetadataLost;
    if s.tasks[n].action == Revert && phase.result.inspection.status != SecurityError {
      match setting
      case Stored =>
        RecordStores(StoreSetting(s, p), n, phase.result, phase.pending);
        LoseRest(RecordOrRefresh(StoreSetting(s, p), n, phase.result, phase.pending));
      case NotStored => RecordStores(Forget(Suppress(s, p), p), n, MetadataLost(phase.result), phase.pending);
      case Broke =>
        FinishStores(s, n);
        FinishStores(Forget(s, p), n);
    }
  }

  lemma CloseStores(s: State, step: Step)
    requires Enabled(s, step) && (step.CloseBegins? || step.CloseDrains? || step.CloseLocks? || step.CloseSaves? || step.Reloads?)
    ensures
      var t := After(s, step);
      if step == CloseSaves(true) then
        t.saved.Keys == s.states.Keys && forall p | p in s.states :: t.saved[p] == s.states[p].lastError
      else t.saved == s.saved
  {
    hide Loadable, NoChecks, LostByReload, StillWatched, Restored, Loaded, StoredReasons;
  }

  lemma OutsideStores(s: State, step: Step)
    requires Enabled(s, step) && !WatcherStep(step) && !CallStep(step) && !TaskStep(step)
    ensures
      var t := After(s, step);
      if step == CloseSaves(true) then
        t.saved.Keys == s.states.Keys && forall p | p in s.states :: t.saved[p] == s.states[p].lastError
      else t.saved == s.saved
  {
    if step.CloseBegins? || step.CloseDrains? || step.CloseLocks? || step.CloseSaves? || step.Reloads? {
      hide Enabled, After;
      CloseStores(s, step);
    } else {
      hide Lose, ScheduleAll, MatchesEntry;
      match step
      case EntryEdited(entry) => LoseRest(s.(entry := entry));
      case UnloadFails => LoseRest(Reopen(s));
      case UnloadRefused(order) => ScheduleStores(Reopen(s), order);
      case _ =>
    }
  }

  // ----- No two patches of one target

  /** No two patches have the same target, and the retention is within its bounds. */
  ghost predicate Apart(s: State) {
    && (forall p, q | p in s.definitions && q in s.definitions && p != q :: s.definitions[p].targetPath != s.definitions[q].targetPath)
    && 1 <= s.retention <= 100
  }

  lemma SameApart(s: State, t: State)
    requires Apart(s) && t.definitions == s.definitions && t.retention == s.retention
    ensures Apart(t)
  {
  }

  lemma ReturnApart(s: State, n: nat)
    requires Reverting(s, n) && Apart(s)
    ensures Apart(Return(s, n, Stored))
  {
    var p, phase := s.tasks[n].id, s.tasks[n].phase;
    SettingKeepsTask(s, n);
    SettingKeepsStates(s, n);
    RecordConfig(StoreSetting(s, p), n, phase.result, phase.pending);
    LoseRest(RecordOrRefresh(StoreSetting(s, p), n, phase.result, phase.pending));
    assert Apart(StoreSetting(s, p)) by { hide AsData; }
    hide RecordOrRefresh, StoreSetting, Lose, Forget, Suppress, Finish, MetadataLost;
    SameApart(StoreSetting(s, p), Return(s, n, Stored));
  }

  lemma LoadedApart(s: State, loaded: bool)
    requires Loadable(s.entry, s.checks)
    ensures Apart(Reload(s, loaded))
  {
    hide FromMapping, Restored, LostByReload, StillWatched;
  }

  lemma StepApart(s: State, step: Step)
    requires Enabled(s, step) && Apart(s)
    ensures Apart(After(s, step))
  {
    hide Apart, Return, Reload, Loadable, Lose;
    if step.Reloads? {
      LoadedApart(s, step.loaded);
    } else if step.EntryEdited? {
      LoseRest(s.(entry := step.entry));
      SameApart(s, After(s, step));
    } else if step.TaskReturns? && step.setting == Stored && Reverting(s, step.n) {
      ReturnApart(s, step.n);
    } else {
      ConfigStays(s, step);
      SameApart(s, After(s, step));
    }
  }

  lemma {:induction false} RunApart(s: State, steps: seq<Step>, t: State)
    requires Apart(s) && Leads(s, steps, t)
    ensures Apart(t)
    decreases |steps|
  {
    hide Apart, Enabled, After;
    if steps != [] {
      StepApart(s, steps[0]);
      RunApart(After(s, steps[0]), steps[1..], t);
    }
  }

  /** In every state of every run, whatever is edited and reloaded, no two patches of the runtime write the same file. */
  lemma TargetsStayApart(s: State, steps: seq<Step>, t: State)
    requires Initial(s) && Leads(s, steps, t)
    ensures forall p, q | p in t.definitions && q in t.definitions && p != q :: t.definitions[p].targetPath != t.definitions[q].targetPath
    ensures 1 <= t.retention <= 100
  {
    hide Leads;
    assert Apart(s) by { hide FromMapping, Restored; }
    RunApart(s, steps, t);
  }
}
