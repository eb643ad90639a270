/**
 The runtime and its watcher as the objects they are. A method that runs between two awaits does to the state
 exactly what the step of the state machine says, and keeps the invariant of all interleavings.
 */
module Runtime {
  import opened Models
  import opened Definitions
  import opened Reconciling
  import opened RuntimeSteps
  import opened RuntimeSafety

  class PatchWatcher {
    var pending: set<Id>
    var running: map<Id, Call>
    var dirty: set<Id>
    var closed: bool

    constructor ()
      ensures View() == Watch({}, map[], {}, false)
    {
      pending, running, dirty, closed := {}, map[], {}, false;
    }

    function View(): Watch reads this {
      Watch(pending, running, dirty, closed)
    }

    method Debounce(runtime: PatchManagerRuntime, p: Id)
      requires runtime.watcher == this
      modifies this
      ensures runtime.State() == RuntimeSteps.Debounce(old(runtime.State()), p)
    {
      if closed || p in runtime.suppressed {
        return;
      }
      pending := pending - {p};
      if p in running || p in runtime.busy {
        dirty := dirty + {p};
        return;
      }
      pending := pending + {p};
    }

    /**
     The quiet time is over. A check that starts at once runs up to its first wait before it is stored; if it is
     refused, it is over by then, and what is stored is never removed.
     */
    method Fire(runtime: PatchManagerRuntime, p: Id, atOnce: bool)
      requires runtime.watcher == this && runtime.Valid() && p in pending
      modifies this
      ensures runtime.State() == RuntimeSteps.Fire(old(runtime.State()), p, atOnce) && runtime.Valid()
    {
      hide Inv, Refusal, Completed;
      FireIsSafe(runtime.State(), p, atOnce);
      assert p !in running && p !in dirty by { PendingIsAlone(runtime.State(), p); }
      pending := pending - {p};
      if closed || runtime.closing {
        return;
      }
      if p in runtime.busy {
        dirty := dirty + {p};
        return;
      }
      var call := Created;
      if atOnce {
        WatchIsAside(old(runtime.State()), runtime.State(), p);
        var refusal := runtime.ValidateAction(p, Reconcile);
        if refusal.Some? {
          running := running - {p};
          assert running == old(running);
          NothingMarked(View(), p, p in runtime.busy, p in runtime.suppressed);
          ActionComplete(runtime, p);
          call := Stale;
        }
      }
      running := running[p := call];
    }

    method ActionComplete(runtime: PatchManagerRuntime, p: Id)
      requires runtime.watcher == this
      modifies this
      ensures runtime.State() == RuntimeSteps.ActionComplete(old(runtime.State()), p)
    {
      if p !in running && p in dirty {
        dirty := dirty - {p};
        Debounce(runtime, p);
      }
    }

    /**
     A change under a watch root; `order` lists the definitions as the runtime holds them. One of a directory only
     makes the watcher look at its roots again, which is a step of its own.
     */
    method HandleEvent(runtime: PatchManagerRuntime, paths: set<string>, isDirectory: bool, order: seq<Id>)
      requires runtime.watcher == this && runtime.Valid() && forall p | p in order :: p in runtime.definitions
      modifies this, runtime`facts
      ensures runtime.State() ==
              if isDirectory then old(runtime.State())
              else HandleAll(old(runtime.State()), Affected(old(runtime.definitions), runtime.checks, paths, order))
      ensures runtime.Valid()
    {
      hide RuntimeSteps.HandleEvent, Lose, Noticed, Inv;
      if isDirectory {
        return;
      }
      ghost var start, todo := runtime.State(), Affected(runtime.definitions, runtime.checks, paths, order);
      for i := 0 to |order|
        invariant runtime.definitions == old(runtime.definitions) && runtime.Valid()
        invariant HandleAll(start, todo) == HandleAll(runtime.State(), Affected(runtime.definitions, runtime.checks, paths, order[i..]))
      {
        var p := order[i];
        ghost var rest := Affected(runtime.definitions, runtime.checks, paths, order[i + 1..]);
        assert order[i..][0] == p && order[i..][1..] == order[i + 1..];
        assert ([p] + rest)[1..] == rest && [] + rest == rest;
        var d := runtime.definitions[p];
        if d.enabled && d.targetPath in paths && PassesFilter(d, runtime.checks) {
          ghost var before := runtime.State();
          EventIsSafe(before, p);
          runtime.NoteEvent(p);
          if !closed && !runtime.closing {
            Debounce(runtime, p);
          }
          runtime.NoteLost();
          assert runtime.State() == RuntimeSteps.HandleEvent(before, p) by { HandledEvent(before, p); }
        }
      }
    }

    /** The part of a check before its action is admitted. */
    method CheckStarts(runtime: PatchManagerRuntime, p: Id)
      requires runtime.watcher == this && runtime.Valid() && p in running && running[p].Created?
      modifies this, runtime
      ensures runtime.State() == StartCheck(old(runtime.State()), p) && runtime.Valid()
    {
      hide Invalidity, Inv;
      CheckIsSafe(runtime.State(), p);
      var refusal, n := runtime.AsyncAction(p, Reconcile);
      if refusal.Some? {
        running := running - {p};
        ActionComplete(runtime, p);
      } else {
        running := running[p := Awaiting(n)];
      }
    }

    /** The action a check waited for is over. */
    method CheckEnds(runtime: PatchManagerRuntime, p: Id)
      requires runtime.watcher == this && runtime.Valid() && p in running && running[p].Awaiting? && running[p].task !in runtime.tasks
      modifies this
      ensures runtime.State() == CheckDone(old(runtime.State()), p) && runtime.Valid()
    {
      hide Inv;
      CheckEndIsSafe(runtime.State(), p);
      running := running - {p};
      ActionComplete(runtime, p);
    }

    /** What closing does before it waits for the observer. */
    method AsyncClose()
      modifies this
      ensures View() == Watch({}, old(running), {}, true)
    {
      closed := true;
      pending, dirty := {}, {};
    }
  }

  class PatchManagerRuntime {
    const checks: Checks
    const watcher: PatchWatcher
    var entry: Entry
    var definitions: map<Id, PatchDefinition>
    var retention: int
    var states: map<Id, Patch>
    var suppressed: set<Id>
    var busy: set<Id>
    var tasks: map<nat, Task>
    var background: map<nat, Background>
    var next: nat
    var lock: Option<Holder>
    var closing: bool
    var stage: Stage
    var saved: map<Id, Option<Reason>>
    ghost var facts: Facts

    ghost function State(): State reads this, watcher {
      RuntimeSteps.State(checks, entry, definitions, retention, states, suppressed, busy, tasks, background, next, lock,
                         closing, stage, watcher.View(), saved, facts)
    }

    /** What holds in every state that any interleaving reaches. */
    ghost predicate Valid() reads this, watcher {
      Inv(State())
    }

    // ----- Setup

    constructor (entry: Entry, checks: Checks, saved: map<Id, Option<Reason>>, next: nat,
                 ghost unsynced: set<Id>, ghost forgotten: set<Id>, ghost unseen: set<Id>)
      requires Loadable(entry, checks)
      ensures fresh(watcher) && watcher.View() == Watch({}, map[], {}, false)
      ensures this.entry == entry && this.checks == checks && this.definitions == Loaded(entry, checks)
      ensures retention == entry.retention && states == Fresh(definitions) && suppressed == {} && busy == {}
      ensures tasks == map[] && background == map[] && this.next == next && lock == None && !closing && stage == Starting
      ensures this.saved == saved && facts == Facts(unsynced, forgotten, unseen, {}, map[], false)
    {
      this.entry, this.checks, this.saved, this.next := entry, checks, saved, next;
      watcher := new PatchWatcher();
      var loaded := map p | p in entry.patches :: FromMapping(p, entry.patches[p], checks).value;
      definitions, retention := loaded, entry.retention;
      states := map p | p in entry.patches :: Unloaded(loaded[p]);
      suppressed, busy, tasks, background, lock := {}, {}, map[], map[], None;
      closing, stage := false, Starting;
      facts := Facts(unsynced, forgotten, unseen, {}, map[], false);
    }

    /** Restore the two safety gates from the stored reasons. */
    method RestoreGates(stored: map<Id, Option<Reason>>)
      requires states == Fresh(definitions)
      modifies this`states
      ensures states == Gated(definitions, stored)
    {
      var left := definitions.Keys;
      while left != {}
        invariant left <= definitions.Keys == states.Keys
        invariant forall p | p in left :: states[p] == Unloaded(definitions[p])
        invariant forall p | p in states && p !in left :: states[p] == WithGate(definitions[p], Find(stored, p))
      {
        var p :| p in left;
        if p in stored && Gate(stored[p]) {
          states := states[p := states[p].(lastError := stored[p])];
        }
        left := left - {p};
      }
    }

    /** The first status of one patch. */
    method SettleStatus(p: Id, ghost stored: Option<Reason>)
      requires p in definitions && p in states && states[p] == WithGate(definitions[p], stored)
      modifies this`states
      ensures states == old(states)[p := Restored(definitions[p], stored)]
    {
      var d, state := definitions[p], states[p];
      if d.sourceType == "url" && d.sourceSha256.None? && !Gate(state.lastError) {
        state := state.(status := if d.enabled then SourceError else state.status, lastError := Some(SourceHashRequired));
      } else if Gate(state.lastError) && d.enabled {
        state := state.(status := ApplyError);
      }
      states := states[p := state];
    }

    /** The first status of each patch. */
    method SettleStatuses(ghost stored: map<Id, Option<Reason>>)
      requires states == Gated(definitions, stored)
      modifies this`states
      ensures states == Settled(definitions, stored)
    {
      hide WithGate, Restored, Find;
      var left := definitions.Keys;
      while left != {}
        invariant left <= definitions.Keys == states.Keys
        invariant forall p | p in left :: states[p] == WithGate(definitions[p], Find(stored, p))
        invariant forall p | p in states && p !in left :: states[p] == Restored(definitions[p], Find(stored, p))
      {
        var p :| p in left;
        SettleStatus(p, Find(stored, p));
        left := left - {p};
      }
    }

    /** What is read back at setup; after it the new runtime is what the state machine starts from. */
    method AsyncLoad(stored: map<Id, Option<Reason>>)
      requires states == Fresh(definitions) && suppressed == {}
      modifies this`states, this`suppressed, this`facts
      ensures states == Settled(definitions, stored) && suppressed == Suppressions(states)
      ensures facts == old(facts).(suppressedAt := map p | p in suppressed :: next)
    {
      hide Gated, Settled, Fresh, Suppressions;
      RestoreGates(stored);
      suppressed := suppressed + Suppressions(states);
      SettleStatuses(stored);
      SameSuppressions(definitions, stored);
      facts := facts.(suppressedAt := map p | p in suppressed :: next);
    }

    // ----- Notes for the facts, which no code reads

    ghost method NoteEvent(p: Id)
      modifies this`facts
      ensures State() == Noticed(old(State()), p)
    {
      if p !in suppressed {
        facts := facts.(unseen := facts.unseen + {p});
      }
    }

    ghost method NoteSeen(p: Id)
      modifies this`facts
      ensures State() == Seen(old(State()), p)
    {
      facts := facts.(unseen := facts.unseen - {p});
    }

    ghost method NoteLost()
      modifies this`facts
      ensures State() == Lose(old(State()))
    {
      hide Current, Covered;
      facts := Lose(State()).facts;
    }

    // ----- Admission

    method MatchesEntry() returns (matches: bool)
      ensures matches == RuntimeSteps.MatchesEntry(State())
    {
      matches := Matches(entry.patches, definitions, checks) && entry.retention == retention;
    }

    method ValidateCurrent(p: Id) returns (error: Option<Reason>)
      ensures error == Invalidity(State(), p)
    {
      if p !in definitions {
        return Some(UnknownPatch);
      }
      if p !in entry.patches {
        return Some(UnknownPatch);
      }
      if Get(entry.patches[p], "enabled", Bool(true)) != Bool(true) {
        return Some(DisabledPatch);
      }
      var matches := MatchesEntry();
      error := if matches then None else Some(RuntimeReloading);
    }

    method ValidateAction(p: Id, action: Action) returns (refusal: Option<Reason>)
      ensures refusal == Refusal(State(), p, action)
    {
      hide Invalidity;
      if closing {
        return Some(RuntimeClosing);
      }
      refusal := ValidateCurrent(p);
      if refusal.None? && action == Reconcile && p in suppressed {
        refusal := Some(RevertMetadataUnavailable);
      }
    }

    method AsyncAction(p: Id, action: Action) returns (refusal: Option<Reason>, n: nat)
      requires Valid()
      modifies this`tasks, this`next
      ensures Valid()
      ensures refusal == Refusal(old(State()), p, action) && n == old(next)
      ensures State() == if refusal.Some? then old(State()) else Admit(old(State()), p, action)
    {
      hide Inv, Refusal;
      RequestIsSafe(State(), p, action);
      n := next;
      refusal := ValidateAction(p, action);
      if refusal.None? {
        tasks, next := tasks[next := Task(p, action, Waiting)], next + 1;
      }
    }

    method Schedule(p: Id)
      modifies this`background, this`next
      ensures State() == RuntimeSteps.Schedule(old(State()), p)
    {
      if closing || p in suppressed {
        return;
      }
      background, next := background[next := Background(p, Created)], next + 1;
    }

    /** The enabled patches are scheduled in the runtime's order; on startup only those that are to be looked at then. */
    method ScheduleEach(order: seq<Id>, onStartup: bool)
      requires forall p | p in order :: p in definitions
      modifies this`background, this`next
      ensures State() == ScheduleAll(old(State()), Chosen(old(definitions), order, onStartup))
    {
      hide RuntimeSteps.Schedule;
      ghost var todo := Chosen(definitions, order, onStartup);
      for i := 0 to |order|
        invariant definitions == old(definitions)
        invariant ScheduleAll(old(State()), todo) == ScheduleAll(State(), Chosen(definitions, order[i..], onStartup))
      {
        var p := order[i];
        ghost var rest := Chosen(definitions, order[i + 1..], onStartup);
        assert order[i..][0] == p && order[i..][1..] == order[i + 1..];
        assert ([p] + rest)[1..] == rest && [] + rest == rest;
        if definitions[p].enabled && (!onStartup || definitions[p].reconcileOnStartup) {
          Schedule(p);
        }
      }
    }

    /** Once the watcher is up: look at the patches that ask for it, and the runtime is set up. */
    method AsyncStart(order: seq<Id>)
      requires Valid() && stage.Starting? && forall p :: p in order <==> p in definitions
      modifies this`background, this`next, this`stage, this`facts
      ensures Enabled(old(State()), ScheduleStartup(Chosen(old(definitions), order, true)))
      ensures State() == Startup(old(State()), Chosen(old(definitions), order, true)) && Valid()
    {
      hide Inv, Lose, ScheduleAll;
      StartupIsSafe(State(), order);
      ScheduleEach(order, true);
      stage := Open;
      NoteLost();
    }

    method BackgroundStarts(n: nat)
      requires Valid() && n in background && background[n].call.Created?
      modifies this
      ensures State() == StartBackground(old(State()), n) && Valid()
    {
      hide Invalidity, Inv;
      BackgroundIsSafe(State(), n);
      var p := background[n].id;
      var refusal, task := AsyncAction(p, Reconcile);
      if refusal.Some? {
        background := background - {n};
      } else {
        background := background[n := Background(p, Awaiting(task))];
      }
    }

    // ----- Watch states

    method WatchAvailable(p: Id, available: bool)
      requires Valid() && EnabledPatch(State(), p) && Refreshable(State())
      modifies this`states
      ensures State() == Available(old(State()), p, available) && Valid()
    {
      hide Inv;
      AvailableIsSafe(State(), p, available);
      var state := states[p].(available := available);
      if !available {
        state := state.(recheck := true);
      }
      states := states[p := state];
    }

    method WatchDenied(p: Id, reason: Reason)
      requires Valid() && EnabledPatch(State(), p) && Refreshable(State()) && !Gate(Some(reason))
      modifies this`states
      ensures State() == Denied(old(State()), p, reason) && Valid()
    {
      hide Inv;
      DeniedIsSafe(State(), p, reason);
      var state := states[p].(available := false, recheck := true, status := SecurityError);
      if state.lastError != Some(DurabilityUnconfirmed) {
        state := state.(lastError := Some(reason));
      }
      states := states[p := state];
    }

    // ----- One admitted action, segment by segment

    /** The lock is acquired. */
    method TaskStarts(n: nat)
      requires Valid() && HasTask(State(), n) && tasks[n].phase.Waiting? && lock.None?
      modifies this, watcher
      ensures State() == Start(old(State()), n) && Valid()
    {
      StartIsSafe(State(), n);
      hide Invalidity, Finish, Seen, RuntimeSteps.Begin, Inv;
      var p := tasks[n].id;
      SeenIsAside(State(), p, n);
      var error := ValidateCurrent(p);
      if error.Some? || !definitions[p].enabled {
        TaskEnds(n);
      } else {
        NoteSeen(p);
        Begin(n);
      }
    }

    /** The action works with the definition and the owed sync as they are now. */
    method Begin(n: nat)
      requires HasTask(State(), n)
      modifies this`lock, this`busy, this`tasks
      ensures State() == RuntimeSteps.Begin(old(State()), n)
    {
      var p := tasks[n].id;
      lock := Some(ByTask(n));
      busy := busy + {p};
      var definition, state := definitions[p], states[p];
      var pending := state.lastError == Some(DurabilityUnconfirmed);
      tasks := tasks[n := Task(p, tasks[n].action, Working(definition, pending))];
    }

    /** However an action ends. */
    method TaskEnds(n: nat)
      requires n in tasks
      modifies this, watcher
      ensures State() == Finish(old(State()), n)
    {
      var p := tasks[n].id;
      if lock == Some(ByTask(n)) {
        lock := None;
      }
      tasks := tasks - {n};
      busy := busy - {p};
      watcher.ActionComplete(this, p);
    }

    /** Save automatic apply turned off; the runtime's own copy changes first, and back if saving fails. */
    method DisableAutoApply(p: Id, setting: Setting) returns (outcome: Setting)
      requires p in definitions && (setting != Broke ==> p in entry.patches)
      modifies this`definitions, this`entry
      ensures outcome == setting
      ensures State() == if outcome == Stored then RuntimeSteps.DisableAutoApply(old(State()), p) else old(State())
      ensures outcome == Stored ==>
              && definitions == old(definitions)[p := old(definitions)[p].(autoApply := false)]
              && entry.patches[p] == AsData(definitions[p]) && entry.patches[p]["auto_apply"] == Bool(false)
    {
      var previous := definitions[p];
      var definition := previous.(autoApply := false);
      definitions := definitions[p := definition];
      if setting == Stored {
        entry := entry.(patches := entry.patches[p := AsData(definition)]);
      } else {
        definitions := definitions[p := previous];
        assert definitions == old(definitions);
      }
      outcome := setting;
    }

    /** The result is back from the worker. */
    method TaskReturns(n: nat, setting: Setting)
      requires Valid() && HasTask(State(), n) && tasks[n].phase.Written? && (setting != Broke ==> tasks[n].id in entry.patches)
      modifies this, watcher
      ensures State() == Return(old(State()), n, setting) && Valid()
    {
      hide Inv, StoreSetting, Suppress, Forget, RuntimeSteps.RecordOrRefresh, Finish, MetadataLost, Lose;
      ReturnIsSafe(State(), n, setting);
      var p, action, pending, result := tasks[n].id, tasks[n].action, tasks[n].phase.pending, tasks[n].phase.result;
      if action == Revert && result.inspection.status != SecurityError {
        SettingIsAside(State(), p, n);
        SaveSetting(p, setting);
        match setting {
          case Stored =>
          case NotStored => result := MetadataLost(result);
          case Broke =>
            TaskEnds(n);
            return;
        }
      }
      RecordOrRefresh(n, result, pending);
      if action == Revert && result.inspection.status != SecurityError && setting == Stored {
        NoteLost();
      }
    }

    /** A revert turns automatic apply off; if that cannot be saved, nothing may reconcile the patch. */
    method SaveSetting(p: Id, setting: Setting)
      requires p in definitions && p in states && (setting != Broke ==> p in entry.patches)
      modifies this`definitions, this`entry, this`suppressed, this`facts
      ensures State() == match setting
        case Stored => StoreSetting(old(State()), p)
        case NotStored => Forget(Suppress(old(State()), p), p)
        case Broke => if old(states[p].lastError) == Some(DurabilityUnconfirmed) then old(State()) else Forget(old(State()), p)
    {
      hide AsData;
      var outcome := DisableAutoApply(p, setting);
      match outcome {
        case Stored => suppressed := suppressed - {p};
        case NotStored =>
          NoteSuppression(p);
          suppressed := suppressed + {p};
          NoteForgotten(p);
        case Broke =>
          if states[p].lastError != Some(DurabilityUnconfirmed) {
            NoteForgotten(p);
          }
      }
    }

    /** A denied path first makes the watcher look at its roots again. */
    method RecordOrRefresh(n: nat, result: ReconcileResult, pending: bool)
      requires n in tasks && tasks[n].id in states
      modifies this`states, this`tasks
      ensures State() == RuntimeSteps.RecordOrRefresh(old(State()), n, result, pending)
    {
      hide DeniedPath, Record;
      if DeniedPath(result) {
        tasks := tasks[n := tasks[n].(phase := Refreshing(pending, result))];
      } else {
        RecordResult(n, result, pending);
      }
    }

    ghost method NoteSuppression(p: Id)
      modifies this`facts
      ensures facts == Suppress(old(State()), p).facts
    {
      facts := facts.(suppressedAt := if p in suppressed then facts.suppressedAt else facts.suppressedAt[p := next],
                      unseen := facts.unseen - {p});
    }

    ghost method NoteForgotten(p: Id)
      modifies this`facts
      ensures State() == Forget(old(State()), p)
    {
      if p in facts.unsynced {
        facts := facts.(forgotten := facts.forgotten + {p});
      }
    }

    method RecordResult(n: nat, result: ReconcileResult, pending: bool)
      requires n in tasks && tasks[n].id in states
      modifies this`states, this`tasks
      ensures State() == Record(old(State()), n, result, pending)
    {
      var p := tasks[n].id;
      var state := states[p];
      tasks := tasks[n := tasks[n].(phase := Saving)];
      if DeniedPath(result) && !state.available && state.recheck {
        assert states == states[p := state];
        return;
      }
      state := state.(status := result.inspection.status);
      if state.available {
        state := state.(recheck := false);
      }
      state := state.(lastError := if pending && result.inspection.status == SecurityError
                                   then Some(DurabilityUnconfirmed) else result.inspection.reason);
      states := states[p := state];
    }

    /** The watcher has looked at its roots again after a denied path. */
    method TaskRefreshed(n: nat)
      requires Valid() && HasTask(State(), n) && tasks[n].phase.Refreshing?
      modifies this`states, this`tasks
      ensures State() == Record(old(State()), n, old(tasks[n].phase.result), old(tasks[n].phase.pending)) && Valid()
    {
      var result, pending := tasks[n].phase.result, tasks[n].phase.pending;
      hide Inv, Record;
      RecordIsSafe(State(), n);
      RecordResult(n, result, pending);
    }

    method SaveStates()
      modifies this`saved
      ensures State() == Saved(old(State()))
    {
      saved := map p | p in states :: states[p].lastError;
    }

    /** The states are saved, or not, and the lock is released. */
    method TaskSaved(n: nat, ok: bool)
      requires Valid() && HasTask(State(), n) && tasks[n].phase.Saving?
      modifies this, watcher
      ensures State() == Finish(if ok then Saved(old(State())) else old(State()), n) && Valid()
    {
      SavedIsSafe(State(), n, ok);
      hide Inv, Finish, Reasons;
      if ok {
        SaveStates();
      }
      TaskEnds(n);
    }

    // ----- Unload and close

    /** Home Assistant refused the unload: admit again, and look at every enabled patch. */
    method UnloadRefused(order: seq<Id>)
      requires Valid() && closing && forall p :: p in order <==> p in definitions
      modifies this`closing, this`facts, this`background, this`next
      ensures Enabled(old(State()), RuntimeSteps.UnloadRefused(Chosen(old(definitions), order, false)))
      ensures State() == ScheduleAll(Reopen(old(State())), Chosen(old(definitions), order, false)) && Valid()
    {
      hide Inv, ScheduleAll;
      RefusedIsSafe(State(), order);
      closing := false;
      facts := facts.(reopened := facts.reopened || watcher.closed);
      ScheduleEach(order, false);
    }

    /** The unload failed: admit again, and leave it at that. */
    method UnloadFails()
      requires Valid() && closing
      modifies this`closing, this`facts
      ensures State() == Lose(Reopen(old(State()))) && Valid()
    {
      hide Inv, Lose;
      UnloadIsSafe(State());
      closing := false;
      facts := facts.(reopened := facts.reopened || watcher.closed);
      NoteLost();
    }

    method AsyncClose()
      requires Valid() && (stage.Starting? || stage.Open?)
      modifies this, watcher
      ensures State() == CloseBegin(old(State())) && Valid()
    {
      hide Inv;
      CloseIsSafe(State());
      closing := true;
      watcher.AsyncClose();
      stage := StoppingWatch;
    }

    /** The last save, under the lock every action and every configuration change takes. */
    method CloseSaves(ok: bool)
      requires Valid() && stage.SavingStates? && lock == Some(ByClose)
      modifies this`saved, this`lock, this`stage
      ensures State() == CloseSaved(old(State()), ok) && Valid()
    {
      hide Inv, Reasons;
      CloseSaveIsSafe(State(), ok);
      if ok {
        SaveStates();
      }
      lock := None;
      stage := if ok then Closed else Open;
    }
  }

  /** The patches an event is about, in the runtime's order. */
  function Affected(definitions: map<Id, PatchDefinition>, checks: Checks, paths: set<string>, order: seq<Id>): seq<Id> {
    if order == [] then []
    else (if order[0] in definitions && definitions[order[0]].enabled && definitions[order[0]].targetPath in paths &&
             PassesFilter(definitions[order[0]], checks)
          then [order[0]] else []) + Affected(definitions, checks, paths, order[1..])
  }

  function HandleAll(s: State, order: seq<Id>): State
    decreases |order|
  {
    if order == [] then s else HandleAll(RuntimeSteps.HandleEvent(s, order[0]), order[1..])
  }

  /** The patches of the runtime that are scheduled, in its order. */
  function Chosen(definitions: map<Id, PatchDefinition>, order: seq<Id>, onStartup: bool): seq<Id> {
    if order == [] then []
    else (if order[0] in definitions && definitions[order[0]].enabled && (!onStartup || definitions[order[0]].reconcileOnStartup)
          then [order[0]] else []) + Chosen(definitions, order[1..], onStartup)
  }

  lemma {:induction false} ChosenAre(definitions: map<Id, PatchDefinition>, order: seq<Id>, onStartup: bool, p: Id)
    ensures p in Chosen(definitions, order, onStartup) <==>
            p in order && p in definitions && definitions[p].enabled && (onStartup ==> definitions[p].reconcileOnStartup)
    decreases |order|
  {
    if order != [] {
      ChosenAre(definitions, order[1..], onStartup, p);
    }
  }

  lemma EachHasState(s: State)
    requires Inv(s)
    ensures s.states.Keys == s.definitions.Keys
  {
    hide WatchOk, LockOk, NumberedBelow, SuppressedOk, DurableOk, CloseOk, EventsOk;
  }

  lemma StartupIsSafe(s: State, order: seq<Id>)
    requires Inv(s) && s.stage.Starting? && forall p :: p in order <==> p in s.definitions
    ensures
      var chosen := Chosen(s.definitions, order, true);
      Enabled(s, ScheduleStartup(chosen)) && Inv(Startup(s, chosen))
  {
    hide Inv, Startup;
    var chosen := Chosen(s.definitions, order, true);
    EachHasState(s);
    forall p ensures p in chosen <==> p in s.definitions && s.definitions[p].enabled && s.definitions[p].reconcileOnStartup {
      ChosenAre(s.definitions, order, true, p);
    }
    StepKeeps(s, ScheduleStartup(chosen));
  }

  lemma FireIsSafe(s: State, p: Id, atOnce: bool)
    requires Inv(s) && p in s.watch.pending
    ensures Inv(RuntimeSteps.Fire(s, p, atOnce))
  {
    hide Inv, RuntimeSteps.Fire;
    StepKeeps(s, TimerFires(p, atOnce));
  }

  lemma PendingIsAlone(s: State, p: Id)
    requires Inv(s) && p in s.watch.pending
    ensures p !in s.watch.running && p !in s.watch.dirty
  {
    hide LockOk, NumberedBelow, ConfigOk, SuppressedOk, DurableOk, CloseOk, EventsOk;
  }

  lemma WatchIsAside(s: State, t: State, p: Id)
    requires t == s.(watch := t.watch)
    ensures Refusal(t, p, Reconcile) == Refusal(s, p, Reconcile)
  {
    hide Matches, Get;
  }

  lemma NothingMarked(watch: Watch, p: Id, busy: bool, suppressed: bool)
    requires p !in watch.dirty
    ensures Completed(watch, p, busy, suppressed) == watch
  {
  }

  lemma CheckIsSafe(s: State, p: Id)
    requires Inv(s) && p in s.watch.running && s.watch.running[p].Created?
    ensures Inv(StartCheck(s, p))
  {
    hide Inv, StartCheck;
    StepKeeps(s, RuntimeSteps.CheckStarts(p));
  }

  lemma CheckEndIsSafe(s: State, p: Id)
    requires Inv(s) && p in s.watch.running && s.watch.running[p].Awaiting? && s.watch.running[p].task !in s.tasks
    ensures Inv(CheckDone(s, p))
  {
    hide Inv, CheckDone;
    StepKeeps(s, RuntimeSteps.CheckEnds(p));
  }

  lemma BackgroundIsSafe(s: State, n: nat)
    requires Inv(s) && n in s.background && s.background[n].call.Created?
    ensures Inv(StartBackground(s, n))
  {
    hide Inv, StartBackground;
    StepKeeps(s, RuntimeSteps.BackgroundStarts(n));
  }

  lemma AvailableIsSafe(s: State, p: Id, available: bool)
    requires Inv(s) && EnabledPatch(s, p) && Refreshable(s)
    ensures Inv(Available(s, p, available))
  {
    hide Inv, Available;
    StepKeeps(s, RootAvailable(p, available));
  }

  lemma DeniedIsSafe(s: State, p: Id, reason: Reason)
    requires Inv(s) && EnabledPatch(s, p) && Refreshable(s) && !Gate(Some(reason))
    ensures Inv(Denied(s, p, reason))
  {
    hide Inv, Denied;
    StepKeeps(s, RootDenied(p, reason));
  }

  lemma StartIsSafe(s: State, n: nat)
    requires Inv(s) && HasTask(s, n) && s.tasks[n].phase.Waiting? && s.lock.None?
    ensures Inv(Start(s, n))
  {
    hide Inv, Start;
    StepKeeps(s, RuntimeSteps.TaskStarts(n));
  }

  lemma ReturnIsSafe(s: State, n: nat, setting: Setting)
    requires Inv(s) && HasTask(s, n) && s.tasks[n].phase.Written? && (setting != Broke ==> s.tasks[n].id in s.entry.patches)
    ensures Inv(Return(s, n, setting))
  {
    hide Inv, Return;
    StepKeeps(s, RuntimeSteps.TaskReturns(n, setting));
  }

  lemma RecordIsSafe(s: State, n: nat)
    requires Inv(s) && HasTask(s, n) && s.tasks[n].phase.Refreshing?
    ensures Inv(Record(s, n, s.tasks[n].phase.result, s.tasks[n].phase.pending))
  {
    hide Inv, Record;
    StepKeeps(s, RuntimeSteps.TaskRefreshed(n));
  }

  lemma SavedIsSafe(s: State, n: nat, ok: bool)
    requires Inv(s) && HasTask(s, n) && s.tasks[n].phase.Saving?
    ensures Inv(Finish(if ok then Saved(s) else s, n))
  {
    hide Inv, Finish;
    StepKeeps(s, RuntimeSteps.TaskSaved(n, ok));
  }

  lemma RefusedIsSafe(s: State, order: seq<Id>)
    requires Inv(s) && s.closing && forall p :: p in order <==> p in s.definitions
    ensures
      var chosen := Chosen(s.definitions, order, false);
      Enabled(s, RuntimeSteps.UnloadRefused(chosen)) && Inv(ScheduleAll(Reopen(s), chosen))
  {
    hide Inv, ScheduleAll;
    var chosen := Chosen(s.definitions, order, false);
    EachHasState(s);
    forall p ensures p in chosen <==> p in s.definitions && s.definitions[p].enabled {
      ChosenAre(s.definitions, order, false, p);
    }
    StepKeeps(s, RuntimeSteps.UnloadRefused(chosen));
  }

  lemma UnloadIsSafe(s: State)
    requires Inv(s) && s.closing
    ensures Inv(Lose(Reopen(s)))
  {
    hide Inv, Lose;
    StepKeeps(s, RuntimeSteps.UnloadFails);
  }

  lemma CloseIsSafe(s: State)
    requires Inv(s) && (s.stage.Starting? || s.stage.Open?)
    ensures Inv(CloseBegin(s))
  {
    hide Inv, CloseBegin;
    StepKeeps(s, CloseBegins);
  }

  lemma CloseSaveIsSafe(s: State, ok: bool)
    requires Inv(s) && s.stage.SavingStates? && s.lock == Some(ByClose)
    ensures Inv(CloseSaved(s, ok))
  {
    hide Inv, CloseSaved;
    StepKeeps(s, RuntimeSteps.CloseSaves(ok));
  }

  lemma RequestIsSafe(s: State, p: Id, action: Action)
    requires Inv(s)
    ensures Inv(if Refusal(s, p, action).Some? then s else Admit(s, p, action))
  {
    hide Inv, Refusal, Admit;
    StepKeeps(s, Request(p, action));
  }

  lemma SeenIsAside(s: State, p: Id, n: nat)
    ensures Invalidity(Seen(s, p), p) == Invalidity(s, p) && Seen(s, p).definitions == s.definitions
    ensures Seen(s, p).tasks == s.tasks && Seen(s, p).states == s.states
  {
    hide Matches, Get;
  }

  lemma SettingIsAside(s: State, p: Id, n: nat)
    requires p in s.definitions
    ensures var t := StoreSetting(s, p); t.tasks == s.tasks && t.states == s.states
    ensures var t := Forget(Suppress(s, p), p); t.tasks == s.tasks && t.states == s.states
    ensures var t := Forget(s, p); t.tasks == s.tasks && t.states == s.states
  {
    hide AsData;
  }

  lemma EventIsSafe(s: State, p: Id)
    requires Inv(s) && p in s.definitions && s.definitions[p].enabled
    ensures Inv(RuntimeSteps.HandleEvent(s, p))
  {
    assert EnabledPatch(s, p) by { hide WatchOk, LockOk, DurableOk, CloseOk, SuppressedOk, EventsOk; }
    hide Inv, RuntimeSteps.HandleEvent;
    StepKeeps(s, FileEvent(p));
  }

  lemma HandledEvent(s: State, p: Id)
    ensures RuntimeSteps.HandleEvent(s, p) ==
            Lose(if s.watch.closed || s.closing then Noticed(s, p) else RuntimeSteps.Debounce(Noticed(s, p), p))
  {
  }

  function Fresh(definitions: map<Id, PatchDefinition>): map<Id, Patch> {
    map p | p in definitions :: Unloaded(definitions[p])
  }

  function Gated(definitions: map<Id, PatchDefinition>, stored: map<Id, Option<Reason>>): map<Id, Patch> {
    map p | p in definitions :: WithGate(definitions[p], Find(stored, p))
  }

  function Settled(definitions: map<Id, PatchDefinition>, stored: map<Id, Option<Reason>>): map<Id, Patch> {
    map p | p in definitions :: Restored(definitions[p], Find(stored, p))
  }

  function Suppressions(states: map<Id, Patch>): set<Id> {
    set p | p in states && states[p].lastError == Some(RevertMetadataUnavailable)
  }

  lemma SameSuppressions(definitions: map<Id, PatchDefinition>, stored: map<Id, Option<Reason>>)
    ensures Suppressions(Gated(definitions, stored)) == Suppressions(Settled(definitions, stored))
  {
  }

  /** Setup, when the entry can be loaded: exactly the state a run starts from, or a reload leads to. */
  method SetUp(entry: Entry, checks: Checks, stored: map<Id, Option<Reason>>, saved: map<Id, Option<Reason>>, next: nat,
               ghost unsynced: set<Id>, ghost forgotten: set<Id>, ghost unseen: set<Id>)
    returns (r: Option<PatchManagerRuntime>)
    ensures r.Some? <==> Loadable(entry, checks)
    ensures r.Some? <==>
              && (forall p | p in entry.patches :: FromMapping(p, entry.patches[p], checks).Success?)
              && (forall p, q | p in entry.patches && q in entry.patches && p != q ::
                    FromMapping(p, entry.patches[p], checks).value.targetPath != FromMapping(q, entry.patches[q], checks).value.targetPath)
              && 1 <= entry.retention <= 100
    ensures r.Some? ==> r.value.State() == Boot(entry, checks, stored, saved, next, unsynced, forgotten, unseen)
    ensures r.Some? && stored == saved && unsynced == forgotten == unseen == {} ==> r.value.Valid()
  {
    hide FromMapping, Restored, Inv;
    r := None;
    if Loadable(entry, checks) {
      var runtime := new PatchManagerRuntime(entry, checks, saved, next, unsynced, forgotten, unseen);
      runtime.AsyncLoad(stored);
      r := Some(runtime);
      if stored == saved && unsynced == forgotten == unseen == {} {
        InitialIsSafe(runtime.State());
      }
    }
  }

  /** A patch state before anything was read back. */
  function Unloaded(d: PatchDefinition): Patch {
    Patch(if d.enabled then Unknown else Disabled, None, false, false)
  }

  function WithGate(d: PatchDefinition, stored: Option<Reason>): Patch {
    Unloaded(d).(lastError := if Gate(stored) then stored else None)
  }
}
