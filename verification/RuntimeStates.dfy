/**
 What a patch shows: which steps change its status and reason, and to what.
 */
module RuntimeStates {
  import opened Models
  import opened Definitions
  import opened Reconciling
  import opened RuntimeSteps
  import opened RuntimeSafety
  import opened RuntimeTheorems

  /** The state shows this inspection; an owed sync stays the reason of a denial, and a missing root is still to be looked at. */
  predicate Shows(was: Patch, state: Patch, inspection: PatchInspection, pending: bool) {
    && state.status == inspection.status && state.available == was.available && state.recheck == (!was.available && was.recheck)
    && state.lastError == if pending && inspection.status == SecurityError then Some(DurabilityUnconfirmed) else inspection.reason
  }

  /** The steps that touch the state of one patch. */
  predicate Touches(s: State, step: Step, p: Id) {
    match step
    case RootRecovered(q) => q == p
    case RootAvailable(q, _) => q == p
    case RootDenied(q, _) => q == p
    case TaskReturns(n, _) => n in s.tasks && s.tasks[n].id == p
    case TaskRefreshed(n) => n in s.tasks && s.tasks[n].id == p
    case Reloads(_) => true
    case _ => false
  }

  /** All patches are still there, and the others show what they did. */
  ghost predicate OnlyTouches(s: State, t: State, touched: set<Id>) {
    t.states.Keys == s.states.Keys && forall p | p in s.states && p !in touched :: t.states[p] == s.states[p]
  }

  lemma EventTouches(s: State, step: Step)
    requires Enabled(s, step) && (step.FileEvent? || step.RootRecovered?)
    ensures OnlyTouches(s, After(s, step), if step.FileEvent? then {} else {step.id})
  {
    NoticeFacts(s, step.id);
    hide Lose, Debounced, Noticed;
    if step.FileEvent? {
      LoseRest(Marked(s, step.id));
    } else {
      LoseRest(Rechecked(s, step.id));
    }
  }

  lemma WatcherTouches(s: State, step: Step)
    requires Enabled(s, step) && WatcherStep(step)
    ensures OnlyTouches(s, After(s, step), if step.FileEvent? || step.TimerFires? then {} else {step.id})
  {
    if step.FileEvent? || step.RootRecovered? {
      hide Enabled, After, OnlyTouches;
      EventTouches(s, step);
    } else {
      hide Expire, Refusal, HandleEvent, Recover;
    }
  }

  lemma CallTouches(s: State, step: Step)
    requires Enabled(s, step) && CallStep(step)
    ensures After(s, step).states == s.states
  {
    hide Refusal, Completed, ScheduleAll, Lose;
    if step.ScheduleStartup? {
      ScheduleWatch(s, step.order);
      LoseRest(ScheduleAll(s, step.order).(stage := Open));
    }
  }

  lemma RecordTouches(s: State, n: nat, result: ReconcileResult, pending: bool)
    requires n in s.tasks && s.tasks[n].id in s.states
    ensures OnlyTouches(s, RecordOrRefresh(s, n, result, pending), {s.tasks[n].id})
    ensures OnlyTouches(s, Record(s, n, result, pending), {s.tasks[n].id})
  {
    hide DeniedPath, Noted;
  }

  lemma ReturnTouches(s: State, n: nat, setting: Setting)
    requires HasTask(s, n) && s.tasks[n].phase.Written?
    ensures OnlyTouches(s, Return(s, n, setting), {s.tasks[n].id})
  {
    hide RecordOrRefresh, Finish, MetadataLost, StoreSetting, Forget, Suppress, Lose;
    var p, phase := s.tasks[n].id, s.tasks[n].phase;
    SettingKeepsTask(s, n);
    SettingKeepsStates(s, n);
    if s.tasks[n].action != Revert || phase.result.inspection.status == SecurityError {
      RecordTouches(s, n, phase.result, phase.pending);
    } else if setting == Stored {
      RecordTouches(StoreSetting(s, p), n, phase.result, phase.pending);
      LoseRest(RecordOrRefresh(StoreSetting(s, p), n, phase.result, phase.pending));
    } else if setting == NotStored {
      RecordTouches(Forget(Suppress(s, p), p), n, MetadataLost(phase.result), phase.pending);
    } else {
      FinishStates(s, n);
      FinishStates(Forget(s, p), n);
    }
  }

  lemma SettingKeepsStates(s: State, n: nat)
    requires HasTask(s, n)
    ensures
      var p := s.tasks[n].id;
      StoreSetting(s, p).states == Forget(Suppress(s, p), p).states == Forget(s, p).states == s.states && n in Forget(s, p).tasks
  {
    hide AsData;
  }

  lemma TaskTouches(s: State, step: Step)
    requires Enabled(s, step) && TaskStep(step)
    ensures step.n in s.tasks
    ensures OnlyTouches(s, After(s, step), if step.TaskReturns? || step.TaskRefreshed? then {s.tasks[step.n].id} else {})
  {
    hide Finish, Record, Reported, Return, Start, Reasons;
    match step
    case TaskStarts(n) => StartTouches(s, n);
    case TaskWrote(n, result, synced) =>
    case TaskCrashed(n) => FinishStates(s, n);
    case TaskReturns(n, setting) => ReturnTouches(s, n, setting);
    case TaskRefreshed(n) => RecordTouches(s, n, s.tasks[n].phase.result, s.tasks[n].phase.pending);
    case TaskSaved(n, ok) => FinishStates(if ok then Saved(s) else s, n);
  }

  lemma StartTouches(s: State, n: nat)
    requires HasTask(s, n)
    ensures Start(s, n).states == s.states
  {
    FinishStates(s, n);
    hide Finish, Invalidity;
  }

  lemma OutsideTouches(s: State, step: Step)
    requires Enabled(s, step) && !WatcherStep(step) && !CallStep(step) && !TaskStep(step) && !step.Reloads?
    ensures After(s, step).states == s.states
  {
    hide ScheduleAll, Loadable, Lose, MatchesEntry, Reasons, NoChecks;
    match step
    case EntryEdited(entry) => LoseRest(s.(entry := entry));
    case UnloadFails => LoseRest(Reopen(s));
    case UnloadRefused(order) => ScheduleWatch(Reopen(s), order);
    case _ =>
  }

  /** No step but those that concern a patch changes what it shows. */
  lemma ShownStays(s: State, step: Step, p: Id)
    requires Enabled(s, step) && p in s.states && !Touches(s, step, p)
    ensures p in After(s, step).states && After(s, step).states[p] == s.states[p]
  {
    hide Enabled, After;
    if WatcherStep(step) {
      WatcherTouches(s, step);
    } else if CallStep(step) {
      CallTouches(s, step);
    } else if TaskStep(step) {
      TaskTouches(s, step);
    } else {
      OutsideTouches(s, step);
    }
  }

  // ----- What the steps show

  /** A result that is noted at once. */
  lemma RecordShows(s: State, n: nat, result: ReconcileResult, pending: bool)
    requires HasTask(s, n) && !DeniedPath(result)
    ensures Shows(s.states[s.tasks[n].id], RecordOrRefresh(s, n, result, pending).states[s.tasks[n].id], result.inspection, pending)
  {
  }

  lemma DeniedShows(s: State, n: nat, result: ReconcileResult, pending: bool)
    requires HasTask(s, n) && DeniedPath(result)
    ensures RecordOrRefresh(s, n, result, pending).states == s.states
    ensures RecordOrRefresh(s, n, result, pending).tasks == s.tasks[n := s.tasks[n].(phase := Refreshing(pending, result))]
  {
  }

  /**
   The end of an action shows its inspection. A revert that could not save its setting shows that instead, whatever it
   found, and one whose save broke off shows nothing; a denied path waits for the watcher first.
   */
  lemma ReturnShows(s: State, n: nat, setting: Setting)
    requires HasTask(s, n) && s.tasks[n].phase.Written?
    ensures
      var p, phase, t := s.tasks[n].id, s.tasks[n].phase, Return(s, n, setting);
      var found := phase.result.inspection;
      p in t.states &&
      if s.tasks[n].action == Revert && found.status != SecurityError && setting == Broke then t.states[p] == s.states[p]
      else if s.tasks[n].action == Revert && found.status != SecurityError && setting == NotStored then
        t.states[p].status == ApplyError && t.states[p].lastError == Some(RevertMetadataUnavailable)
      else if found.status == SecurityError && found.reason == Some(HaPathNotAllowed) then t.states[p] == s.states[p]
      else Shows(s.states[p], t.states[p], found, phase.pending)
  {
    hide RecordOrRefresh, Finish, AsData, Lose;
    var p, phase := s.tasks[n].id, s.tasks[n].phase;
    SettingKeepsTask(s, n);
    ReturnTouches(s, n, setting);
    if s.tasks[n].action != Revert || phase.result.inspection.status == SecurityError {
      NotedShows(s, n, phase.result, phase.pending);
    } else if setting == Stored {
      NotedShows(StoreSetting(s, p), n, phase.result, phase.pending);
      LoseRest(RecordOrRefresh(StoreSetting(s, p), n, phase.result, phase.pending));
    } else if setting == NotStored {
      LostIsNotDenied(phase.result);
      NotedShows(Forget(Suppress(s, p), p), n, MetadataLost(phase.result), phase.pending);
    } else {
      FinishStates(s, n);
      FinishStates(Forget(s, p), n);
    }
  }

  lemma LostIsNotDenied(result: ReconcileResult)
    ensures !DeniedPath(MetadataLost(result))
  {
  }

  lemma NotedShows(s: State, n: nat, result: ReconcileResult, pending: bool)
    requires HasTask(s, n)
    ensures
      var p, t := s.tasks[n].id, RecordOrRefresh(s, n, result, pending);
      p in t.states && if DeniedPath(result) then t.states[p] == s.states[p] else Shows(s.states[p], t.states[p], result.inspection, pending)
  {
    RecordTouches(s, n, result, pending);
    if DeniedPath(result) {
      DeniedShows(s, n, result, pending);
    } else {
      RecordShows(s, n, result, pending);
    }
    hide RecordOrRefresh, DeniedPath;
  }

  /** After the watcher looked again, a denied path is shown, unless the watcher already reported its root missing. */
  lemma RefreshShows(s: State, n: nat)
    requires Inv(s) && HasTask(s, n) && s.tasks[n].phase.Refreshing?
    ensures
      var p, was := s.tasks[n].id, s.states[s.tasks[n].id];
      var shown := After(s, TaskRefreshed(n)).states[p];
      if !was.available && was.recheck then shown == was
      else shown.status == SecurityError &&
           shown.lastError == Some(if s.tasks[n].phase.pending then DurabilityUnconfirmed else HaPathNotAllowed)
  {
    assert TaskDurable(s.tasks[n], s.states, Owing(s.facts)) by { hide WatchOk, LockOk, NumberedBelow, ConfigOk, SuppressedOk, CloseOk, EventsOk; }
    hide Inv;
  }

  /** A root that comes or goes leaves status and reason alone; one that goes is to be looked at again. */
  predicate ShowsAvailable(was: Patch, shown: Patch, available: bool) {
    && shown.status == was.status && shown.lastError == was.lastError && shown.available == available
    && shown.recheck == (was.recheck || !available)
  }

  lemma RootShows(s: State, p: Id, available: bool)
    requires EnabledPatch(s, p) && Refreshable(s)
    ensures ShowsAvailable(s.states[p], After(s, RootAvailable(p, available)).states[p], available)
  {
    assert After(s, RootAvailable(p, available)) == Available(s, p, available);
  }

  lemma RecoveredShows(s: State, p: Id)
    requires EnabledPatch(s, p) && Refreshable(s)
    ensures p in After(s, RootRecovered(p)).states
    ensures ShowsAvailable(s.states[p], After(s, RootRecovered(p)).states[p], true)
  {
    hide Lose, Debounced;
    LoseRest(Rechecked(s, p));
    NoticeFacts(s, p);
  }

  /** A denied root is shown, but not over an owed sync. */
  lemma DeniedRootShows(s: State, p: Id, reason: Reason)
    requires EnabledPatch(s, p) && Refreshable(s) && !Gate(Some(reason))
    ensures
      var was, shown := s.states[p], After(s, RootDenied(p, reason)).states[p];
      && shown.status == SecurityError && !shown.available && shown.recheck
      && shown.lastError == if was.lastError == Some(DurabilityUnconfirmed) then was.lastError else Some(reason)
  {
    assert After(s, RootDenied(p, reason)) == Denied(s, p, reason);
  }

  /**
   A new runtime shows every patch of the entry afresh: disabled ones as such; an enabled one with a stored safety gate
   as an error with that reason; an unpinned URL source as refused; everything else as not yet looked at.
   */
  lemma ReloadShows(s: State, loaded: bool, p: Id)
    requires Loadable(s.entry, s.checks) && p in s.entry.patches
    ensures
      var t := Reload(s, loaded);
      var d, stored := t.definitions[p], Find(if loaded then s.saved else map[], p);
      var gate := stored == Some(DurabilityUnconfirmed) || stored == Some(RevertMetadataUnavailable);
      var unpinned := d.sourceType == "url" && d.sourceSha256.None?;
      && FromMapping(p, s.entry.patches[p], s.checks) == Success(d)
      && t.states[p].lastError == (if gate then stored else if unpinned then Some(SourceHashRequired) else None)
      && t.states[p].status == (if !d.enabled then Disabled else if gate then ApplyError else if unpinned then SourceError else Unknown)
      && !t.states[p].available && !t.states[p].recheck
  {
    hide FromMapping, LostByReload, StillWatched;
  }
}
