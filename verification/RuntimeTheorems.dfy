/**
 What the runtime guarantees over all runs, and the runs that show where a guarantee ends.
 */
module RuntimeTheorems {
  import opened Models
  import opened Definitions
  import opened Reconciling
  import Transaction
  import opened RuntimeSteps
  import opened RuntimeSafety
  import PatchEngine
  import WriteSafety

  lemma {:induction false} LeadsOn(s: State, steps: seq<Step>, t: State, step: Step)
    requires Leads(s, steps, t) && Enabled(t, step)
    ensures Leads(s, steps + [step], After(t, step))
    decreases |steps|
  {
    hide Enabled, After;
    if steps == [] {
      assert [step][1..] == [] && [] + [step] == [step];
      assert Leads(After(s, step), [], After(t, step));
    } else {
      assert (steps + [step])[1..] == steps[1..] + [step];
      LeadsOn(After(s, steps[0]), steps[1..], t, step);
    }
  }

  // ----- What each step does to the facts

  /**
   What ends the wait of an event: an action that takes its turn, suppression, or a new runtime that does not watch
   the patch for it.
   */
  predicate Answers(s: State, step: Step, p: Id) {
    match step
    case TaskStarts(n) => n in s.tasks && s.tasks[n].id == p && Invalidity(s, p).None?
    case TaskReturns(n, setting) =>
      && n in s.tasks && s.tasks[n].id == p && s.tasks[n].action == Revert && setting == NotStored
      && s.tasks[n].phase.Written? && s.tasks[n].phase.result.inspection.status != SecurityError
    case Reloads(loaded) => Loadable(s.entry, s.checks) && !StillWatched(s, loaded, p)
    case _ => false
  }

  /** An unload that is not carried out although the watcher was already closed for good. */
  predicate Undercuts(s: State, step: Step) {
    (step.UnloadRefused? || step.UnloadFails?) && s.watch.closed
  }

  /** Steps that take an owed sync of the patch off the record, or leave the record to another target. */
  predicate Forgets(s: State, step: Step, p: Id) {
    match step
    case TaskReturns(n, setting) =>
      && n in s.tasks && s.tasks[n].id == p && s.tasks[n].action == Revert
      && s.tasks[n].phase.Written? && s.tasks[n].phase.result.inspection.status != SecurityError
      && (setting == NotStored || (setting == Broke && !OnRecord(s.states, p)))
    case Reloads(loaded) => Loadable(s.entry, s.checks) && p in LostByReload(s, loaded)
    case _ => false
  }

  lemma FinishFacts(s: State, n: nat)
    requires n in s.tasks
    ensures Finish(s, n).facts == s.facts && Finish(s, n).definitions == s.definitions && Finish(s, n).entry == s.entry
    ensures Finish(s, n).retention == s.retention && Finish(s, n).checks == s.checks && Finish(s, n).suppressed == s.suppressed
    ensures Finish(s, n).tasks == s.tasks - {n}
  {
    hide Completed;
  }

  lemma RecordFacts(s: State, n: nat, result: ReconcileResult, pending: bool)
    requires n in s.tasks && s.tasks[n].id in s.states
    ensures RecordOrRefresh(s, n, result, pending).facts == s.facts && Record(s, n, result, pending).facts == s.facts
  {
    hide DeniedPath, Noted;
  }

  lemma {:induction false} ScheduleFacts(s: State, order: seq<Id>)
    ensures ScheduleAll(s, order).facts == s.facts && ScheduleAll(s, order).tasks == s.tasks
    ensures ScheduleAll(s, order).entry == s.entry && ScheduleAll(s, order).definitions == s.definitions
    ensures ScheduleAll(s, order).retention == s.retention && ScheduleAll(s, order).checks == s.checks
    ensures ScheduleAll(s, order).suppressed == s.suppressed
    decreases |order|
  {
    if order != [] {
      ScheduleFacts(Schedule(s, order[0]), order[1..]);
    }
  }

  /** Noting what is lost changes only the note. */
  lemma LoseRest(s: State)
    ensures Lose(s) == s.(facts := s.facts.(missed := Lose(s).facts.missed))
    ensures forall p :: p in Lose(s).facts.missed <==> p in s.facts.missed || Lost(s, p)
  {
    hide Current, Covered;
  }

  lemma TaskFactsStay(s: State, step: Step)
    requires Enabled(s, step) && (step.TaskCrashed? || step.TaskSaved? || step.TaskRefreshed?)
    ensures After(s, step).facts == s.facts
  {
    hide Finish, Record;
    match step
    case TaskCrashed(n) => FinishFacts(s, n);
    case TaskSaved(n, ok) => FinishFacts(if ok then Saved(s) else s, n);
    case TaskRefreshed(n) => RecordFacts(s, n, s.tasks[n].phase.result, s.tasks[n].phase.pending);
  }

  lemma CallFactsStay(s: State, step: Step)
    requires Enabled(s, step) && CallStep(step) && !step.ScheduleStartup?
    ensures After(s, step).facts == s.facts
  {
    hide Refusal, Admit, StartCheck, StartBackground, CheckDone, Startup;
    match step
    case Request(p, action) => AdmitFacts(s, p, action);
    case BackgroundStarts(n) => BackgroundFacts(s, n);
    case BackgroundEnds(n) =>
    case CheckStarts(p) => CheckFacts(s, p);
    case CheckEnds(p) => DoneFacts(s, p);
  }

  lemma AdmitFacts(s: State, p: Id, action: Action)
    ensures Admit(s, p, action).facts == s.facts
  {
  }

  lemma DoneFacts(s: State, p: Id)
    ensures CheckDone(s, p).facts == s.facts
  {
    hide Completed;
  }

  lemma CheckFacts(s: State, p: Id)
    ensures StartCheck(s, p).facts == s.facts
  {
    hide Refusal, CheckDone;
    DoneFacts(s, p);
  }

  lemma BackgroundFacts(s: State, n: nat)
    requires n in s.background
    ensures StartBackground(s, n).facts == s.facts
  {
    hide Refusal;
  }

  /** Steps that change nothing but what the runtime itself holds. */
  lemma FactsStay(s: State, step: Step)
    requires Enabled(s, step)
    requires !step.FileEvent? && !step.RootRecovered? && !step.ScheduleStartup? && !step.TaskStarts? && !step.TaskWrote?
    requires !step.TaskReturns? && !step.EntryEdited? && !step.UnloadRefused? && !step.UnloadFails? && !step.Reloads?
    ensures After(s, step).facts == s.facts
  {
    if TaskStep(step) {
      hide Enabled, After;
      TaskFactsStay(s, step);
    } else if CallStep(step) {
      hide Enabled, After;
      CallFactsStay(s, step);
    } else {
      hide Expire, Loadable, Reasons, Start, Return, Write, Finish, Record, StartBackground, StartCheck, HandleEvent, Recover, Reload,
           Lose, Reopen, ScheduleAll, Refusal, CheckDone, MatchesEntry, Enabled;
    }
  }

  /** An action that begins answers the events of its patch, and only that. */
  lemma StartFacts(s: State, n: nat)
    requires HasTask(s, n)
    ensures Start(s, n).facts == if Invalidity(s, s.tasks[n].id).None? then Seen(s, s.tasks[n].id).facts else s.facts
  {
    var p := s.tasks[n].id;
    if Invalidity(s, p).None? {
      ValidIsCurrent(s, p);
    }
    FinishFacts(s, n);
    hide Finish, Invalidity, MatchesEntry;
  }

  /** A revert's setting touches no task and no patch state. */
  lemma SettingKeepsTask(s: State, n: nat)
    requires HasTask(s, n)
    ensures HasTask(StoreSetting(s, s.tasks[n].id), n) && StoreSetting(s, s.tasks[n].id).tasks == s.tasks
    ensures HasTask(Forget(Suppress(s, s.tasks[n].id), s.tasks[n].id), n)
    ensures Forget(Suppress(s, s.tasks[n].id), s.tasks[n].id).tasks == s.tasks
  {
    hide AsData;
  }

  lemma StoredFacts(s: State, n: nat)
    requires HasTask(s, n) && s.tasks[n].phase.Written?
    ensures RecordOrRefresh(StoreSetting(s, s.tasks[n].id), n, s.tasks[n].phase.result, s.tasks[n].phase.pending).facts == s.facts
  {
    hide AsData;
    RecordFacts(StoreSetting(s, s.tasks[n].id), n, s.tasks[n].phase.result, s.tasks[n].phase.pending);
    hide RecordOrRefresh;
  }

  lemma LostFacts(s: State, n: nat)
    requires HasTask(s, n) && s.tasks[n].phase.Written?
    ensures
      var p, phase := s.tasks[n].id, s.tasks[n].phase;
      RecordOrRefresh(Forget(Suppress(s, p), p), n, MetadataLost(phase.result), phase.pending).facts ==
      Forget(Suppress(s, p), p).facts
  {
    hide RecordOrRefresh, MetadataLost;
    RecordFacts(Forget(Suppress(s, s.tasks[n].id), s.tasks[n].id), n, MetadataLost(s.tasks[n].phase.result), s.tasks[n].phase.pending);
  }

  /** What the end of an action does to an event, an obligation and the mark of a reopened close. */
  ghost predicate ReturnNotes(s: State, n: nat, setting: Setting, t: State)
    requires n in s.tasks
  {
    var p := s.tasks[n].id;
    && t.facts.unseen == (if Answers(s, TaskReturns(n, setting), p) then s.facts.unseen - {p} else s.facts.unseen)
    && t.facts.reopened == s.facts.reopened && t.facts.unsynced == s.facts.unsynced
    && (t.facts.forgotten == s.facts.forgotten ||
        (t.facts.forgotten == s.facts.forgotten + {p} && Forgets(s, TaskReturns(n, setting), p)))
  }

  /** A revert whose result is about to be noted. */
  predicate Reverting(s: State, n: nat) {
    && HasTask(s, n) && s.tasks[n].phase.Written? && s.tasks[n].action == Revert
    && s.tasks[n].phase.result.inspection.status != SecurityError
  }

  lemma StoredNotes(s: State, n: nat)
    requires Reverting(s, n)
    ensures ReturnNotes(s, n, Stored, Return(s, n, Stored))
  {
    hide RecordOrRefresh, StoreSetting, Lose, Forget, Suppress, Finish;
    StoredFacts(s, n);
    SettingKeepsTask(s, n);
    LoseRest(RecordOrRefresh(StoreSetting(s, s.tasks[n].id), n, s.tasks[n].phase.result, s.tasks[n].phase.pending));
  }

  lemma NotStoredNotes(s: State, n: nat)
    requires Reverting(s, n)
    ensures ReturnNotes(s, n, NotStored, Return(s, n, NotStored)) && Return(s, n, NotStored).facts.missed == s.facts.missed
  {
    hide RecordOrRefresh, MetadataLost, StoreSetting, Lose, Finish;
    LostFacts(s, n);
  }

  lemma BrokeNotes(s: State, n: nat)
    requires Reverting(s, n)
    ensures ReturnNotes(s, n, Broke, Return(s, n, Broke)) && Return(s, n, Broke).facts.missed == s.facts.missed
  {
    hide RecordOrRefresh, MetadataLost, StoreSetting, Lose, Suppress, Finish;
    FinishFacts(s, n);
    FinishFacts(Forget(s, s.tasks[n].id), n);
  }

  lemma ReturnFacts(s: State, n: nat, setting: Setting)
    requires HasTask(s, n) && s.tasks[n].phase.Written?
    ensures ReturnNotes(s, n, setting, Return(s, n, setting))
    ensures !(setting == Stored && s.tasks[n].action == Revert) ==> Return(s, n, setting).facts.missed == s.facts.missed
  {
    if s.tasks[n].action != Revert || s.tasks[n].phase.result.inspection.status == SecurityError {
      hide RecordOrRefresh;
      RecordFacts(s, n, s.tasks[n].phase.result, s.tasks[n].phase.pending);
    } else {
      hide ReturnNotes, Return;
      match setting
      case Stored => StoredNotes(s, n);
      case NotStored => NotStoredNotes(s, n);
      case Broke => BrokeNotes(s, n);
    }
  }

  lemma AvailableFacts(s: State, p: Id)
    requires p in s.states
    ensures Available(s, p, true) == s.(states := Available(s, p, true).states)
  {
  }

  /** A file event before what it leaves behind is noted. */
  function Marked(s: State, p: Id): State {
    if s.watch.closed || s.closing then Noticed(s, p) else Debounce(Noticed(s, p), p)
  }

  /** A recovered root before what it leaves behind is noted. */
  function Rechecked(s: State, p: Id): State
    requires p in s.states
  {
    Debounce(Noticed(Available(s, p, true), p), p)
  }

  lemma NoticeFacts(s: State, p: Id)
    requires p in s.states
    ensures HandleEvent(s, p) == Lose(Marked(s, p)) && Marked(s, p).facts == Noticed(s, p).facts
    ensures Recover(s, p) == Lose(Rechecked(s, p)) && Rechecked(s, p).facts == Noticed(s, p).facts
  {
    hide Debounced, Lose;
  }

  /** How a step treats one patch in the facts: its unanswered event, its obligation, and the mark of a reopened close. */
  ghost predicate Notes(s: State, step: Step, t: State, p: Id) {
    && (p in s.facts.unseen ==> (p !in t.facts.unseen <==> Answers(s, step, p)))
    && (t.facts.reopened <==> s.facts.reopened || Undercuts(s, step))
    && (!Forgets(s, step, p) && p in t.facts.forgotten ==> p in s.facts.forgotten)
  }

  lemma NoticedNotes(s: State, step: Step, p: Id)
    requires Enabled(s, step) && (step.FileEvent? || step.RootRecovered?)
    ensures Notes(s, step, After(s, step), p)
  {
    hide HandleEvent, Recover, Available, Marked, Rechecked, Lose;
    NoticeFacts(s, step.id);
    LoseRest(Marked(s, step.id));
    LoseRest(Rechecked(s, step.id));
  }

  lemma StartupNotes(s: State, order: seq<Id>, p: Id)
    requires Enabled(s, ScheduleStartup(order))
    ensures Notes(s, ScheduleStartup(order), After(s, ScheduleStartup(order)), p)
  {
    hide ScheduleAll, Lose, Notes;
    ScheduleFacts(s, order);
    LoseRest(ScheduleAll(s, order).(stage := Open));
    SameNotes(s, ScheduleStartup(order), After(s, ScheduleStartup(order)), p);
  }

  lemma TaskNotes(s: State, step: Step, p: Id)
    requires Enabled(s, step) && (step.TaskStarts? || step.TaskWrote? || step.TaskReturns?)
    ensures Notes(s, step, After(s, step), p)
  {
    hide Start, Return, Reported, Invalidity, MatchesEntry;
    match step
    case TaskStarts(n) => StartFacts(s, n);
    case TaskWrote(n, result, synced) =>
    case TaskReturns(n, setting) => ReturnFacts(s, n, setting);
  }

  /** No event is answered, no obligation forgotten. */
  lemma SameNotes(s: State, step: Step, t: State, p: Id)
    requires !step.TaskStarts? && !step.TaskReturns? && !step.Reloads?
    requires t.facts == s.facts.(missed := t.facts.missed, reopened := s.facts.reopened || Undercuts(s, step))
    ensures Notes(s, step, t, p)
  {
    hide Undercuts;
  }

  lemma OutsideNotes(s: State, step: Step, p: Id)
    requires Enabled(s, step) && (step.EntryEdited? || step.UnloadRefused? || step.UnloadFails? || step.Reloads?)
    ensures Notes(s, step, After(s, step), p)
  {
    hide Notes, Enabled, After;
    match step
    case EntryEdited(entry) => EditNotes(s, entry, p);
    case UnloadRefused(order) => UnloadNotes(s, step, p);
    case UnloadFails => UnloadNotes(s, step, p);
    case Reloads(loaded) => ReloadNotes(s, loaded, p);
  }

  lemma EditNotes(s: State, entry: Entry, p: Id)
    requires Enabled(s, EntryEdited(entry))
    ensures Notes(s, EntryEdited(entry), After(s, EntryEdited(entry)), p)
  {
    hide Notes, Lose;
    LoseRest(s.(entry := entry));
    SameNotes(s, EntryEdited(entry), Lose(s.(entry := entry)), p);
  }

  lemma UnloadNotes(s: State, step: Step, p: Id)
    requires Enabled(s, step) && (step.UnloadRefused? || step.UnloadFails?)
    ensures Notes(s, step, After(s, step), p)
  {
    hide Notes, Lose, ScheduleAll;
    if step.UnloadFails? {
      LoseRest(Reopen(s));
    } else {
      ScheduleFacts(Reopen(s), step.order);
    }
    SameNotes(s, step, After(s, step), p);
  }

  lemma ReloadNotes(s: State, loaded: bool, p: Id)
    requires Enabled(s, Reloads(loaded))
    ensures Notes(s, Reloads(loaded), After(s, Reloads(loaded)), p)
  {
    hide Loadable, LostByReload, StillWatched, Loaded, Restored;
  }

  lemma FactsOfStep(s: State, step: Step, p: Id)
    requires Enabled(s, step)
    ensures Notes(s, step, After(s, step), p)
  {
    hide Enabled, After, Notes;
    if step.FileEvent? || step.RootRecovered? {
      NoticedNotes(s, step, p);
    } else if step.ScheduleStartup? {
      StartupNotes(s, step.order, p);
    } else if step.TaskStarts? || step.TaskWrote? || step.TaskReturns? {
      TaskNotes(s, step, p);
    } else if step.EntryEdited? || step.UnloadRefused? || step.UnloadFails? || step.Reloads? {
      OutsideNotes(s, step, p);
    } else {
      FactsStay(s, step);
      assert !Undercuts(s, step);
      SameNotes(s, step, After(s, step), p);
    }
  }

  // ----- One action at a time, none across an edit, none after a close

  /** At most one action is past the lock; it holds it, and works with the runtime's own, enabled definition. */
  lemma ActionsAreSerialized(s: State, steps: seq<Step>, t: State, n: nat, k: nat)
    requires Initial(s) && Leads(s, steps, t) && n in t.tasks && !t.tasks[n].phase.Waiting?
    ensures t.lock == Some(ByTask(n)) && t.busy == {t.tasks[n].id}
    ensures k in t.tasks && !t.tasks[k].phase.Waiting? ==> k == n
    ensures t.tasks[n].phase.Working? || t.tasks[n].phase.Written? ==>
              t.tasks[n].id in t.definitions && t.tasks[n].phase.definition == t.definitions[t.tasks[n].id] &&
              t.tasks[n].phase.definition.enabled
  {
    RunIsSafe(s, steps, t);
    hide Leads, Initial, WatchOk, DurableOk, CloseOk, SuppressedOk, EventsOk;
  }

  lemma ValidIsCurrent(s: State, p: Id)
    requires Invalidity(s, p).None?
    ensures MatchesEntry(s) && p in s.definitions && s.definitions[p].enabled
    ensures FromMapping(p, s.entry.patches[p], s.checks) == Success(s.definitions[p])
  {
    hide FromMapping;
    EnabledIsRead(p, s.entry.patches[p], s.checks);
  }

  lemma BeginWorks(s: State, n: nat)
    requires HasTask(s, n)
    ensures n in Begin(s, n).tasks && Begin(s, n).tasks[n].phase.Working?
    ensures Begin(s, n).tasks[n].phase.definition == s.definitions[s.tasks[n].id]
  {
  }

  /** An action takes the lock exactly when, at that moment, its definition is what the saved entry says. */
  lemma WorksOnlyWithSavedDefinition(s: State, n: nat)
    requires HasTask(s, n)
    ensures
      var t, p := Start(s, n), s.tasks[n].id;
      && (n in t.tasks <==> Invalidity(s, p).None?)
      && (n in t.tasks ==>
            MatchesEntry(s) && p in s.entry.patches && t.tasks[n].phase.Working? &&
            FromMapping(p, s.entry.patches[p], s.checks) == Success(t.tasks[n].phase.definition))
  {
    hide Invalidity, Finish, FromMapping, Matches, Begin;
    var p := s.tasks[n].id;
    if Invalidity(s, p).None? {
      ValidIsCurrent(s, p);
      assert p in s.entry.patches by { ValidIsListed(s, p); }
      BeginWorks(Seen(s, p), n);
    } else {
      FinishFacts(s, n);
    }
  }

  lemma ValidIsListed(s: State, p: Id)
    requires Invalidity(s, p).None?
    ensures p in s.entry.patches
  {
    hide Get, Matches;
  }

  lemma WatchSteps(s: State, step: Step)
    requires Enabled(s, step) && WatcherStep(step)
    ensures SameConfig(s, After(s, step))
  {
    if step.FileEvent? || step.RootRecovered? {
      hide Enabled, After;
      MarkSame(s, step);
    } else {
      hide Refusal, Expire;
    }
  }

  lemma CallSteps(s: State, step: Step)
    requires Enabled(s, step) && (step.CheckStarts? || step.BackgroundStarts? || step.Request?)
    ensures SameConfig(s, After(s, step))
  {
    hide Refusal, StartCheck, StartBackground, SameConfig;
    match step
    case Request(p, action) => AdmitConfig(s, p, action);
    case CheckStarts(p) => CheckConfig(s, p);
    case BackgroundStarts(n) => BackgroundConfig(s, n);
  }

  lemma AdmitConfig(s: State, p: Id, action: Action)
    ensures SameConfig(s, Admit(s, p, action)) && SameConfig(s, s)
  {
  }

  lemma CheckConfig(s: State, p: Id)
    ensures SameConfig(s, StartCheck(s, p))
  {
    hide Refusal, Completed;
  }

  lemma BackgroundConfig(s: State, n: nat)
    requires n in s.background
    ensures SameConfig(s, StartBackground(s, n))
  {
    hide Refusal;
  }

  lemma EndSteps(s: State, step: Step)
    requires Enabled(s, step) && (step.CheckEnds? || step.BackgroundEnds?)
    ensures SameConfig(s, After(s, step))
  {
    hide Completed;
  }

  lemma TaskMatches(s: State, step: Step)
    requires Enabled(s, step) && MatchesEntry(s) && TaskStep(step)
    ensures MatchesEntry(After(s, step))
  {
    hide Finish, Record, Reported, Return, Start, Matches, StartBackground, StartCheck, CheckDone, HandleEvent, Recover, Available, Denied, Fire,
         ScheduleAll, Reload, Lose, Reopen, CloseBegin, CloseSaved, Refusal, Admit, Loadable, EnabledPatch, Refreshable, Covered;
    match step
    case TaskStarts(n) => StartMatches(s, n);
    case TaskWrote(n, result, synced) =>
    case TaskCrashed(n) => FinishFacts(s, n);
    case TaskReturns(n, setting) => ReturnMatches(s, n, setting);
    case TaskRefreshed(n) => RecordMatches(s, n, s.tasks[n].phase.result, s.tasks[n].phase.pending);
    case TaskSaved(n, ok) => FinishFacts(if ok then Saved(s) else s, n);
  }

  lemma OutsideMatches(s: State, step: Step)
    requires Enabled(s, step) && MatchesEntry(s) && !WatcherStep(step) && !CallStep(step) && !TaskStep(step) && !step.EntryEdited?
    ensures MatchesEntry(After(s, step))
  {
    hide ScheduleAll, Loadable, Reload, Matches, Lose, Reasons;
    match step
    case UnloadRefused(order) => ScheduleFacts(Reopen(s), order);
    case UnloadFails => LoseRest(Reopen(s));
    case Reloads(loaded) => ReloadMatches(s, loaded);
    case _ =>
  }

  lemma SameMatches(s: State, t: State)
    requires SameConfig(s, t) && MatchesEntry(s)
    ensures MatchesEntry(t)
  {
    hide Matches;
  }

  lemma StartupSteps(s: State, step: Step)
    requires Enabled(s, step) && step.ScheduleStartup?
    ensures SameConfig(s, After(s, step))
  {
    hide ScheduleAll, Lose;
    ScheduleFacts(s, step.order);
    LoseRest(ScheduleAll(s, step.order).(stage := Open));
  }

  /** Only an edit from outside, or a new runtime, changes whether the runtime matches its entry: no revert does. */
  lemma OnlyEditsBreakTheMatch(s: State, step: Step)
    requires Enabled(s, step) && MatchesEntry(s) && !step.EntryEdited?
    ensures MatchesEntry(After(s, step))
  {
    hide Enabled, After, MatchesEntry, SameConfig;
    if TaskStep(step) {
      TaskMatches(s, step);
    } else if WatcherStep(step) {
      WatchSteps(s, step);
      SameMatches(s, After(s, step));
    } else if CallStep(step) {
      if step.ScheduleStartup? {
        StartupSteps(s, step);
      } else if step.CheckEnds? || step.BackgroundEnds? {
        EndSteps(s, step);
      } else {
        CallSteps(s, step);
      }
      SameMatches(s, After(s, step));
    } else {
      OutsideMatches(s, step);
    }
  }

  lemma StartMatches(s: State, n: nat)
    requires HasTask(s, n) && MatchesEntry(s)
    ensures MatchesEntry(Start(s, n))
  {
    FinishFacts(s, n);
    hide Finish, Matches, Invalidity;
  }

  lemma RecordMatches(s: State, n: nat, result: ReconcileResult, pending: bool)
    requires n in s.tasks && s.tasks[n].id in s.states && MatchesEntry(s)
    ensures MatchesEntry(RecordOrRefresh(s, n, result, pending)) && MatchesEntry(Record(s, n, result, pending))
  {
    hide DeniedPath, Noted, Matches;
  }

  lemma StoreMatches(s: State, p: Id)
    requires MatchesEntry(s) && p in s.definitions
    ensures MatchesEntry(StoreSetting(s, p))
  {
    DisableKeepsStep(s.entry.patches, s.definitions, s.checks, p);
    hide Matches, AsData;
  }

  lemma LostMatches(s: State, p: Id)
    requires MatchesEntry(s)
    ensures MatchesEntry(Forget(Suppress(s, p), p)) && MatchesEntry(Forget(s, p))
  {
    hide Matches;
  }

  lemma ReturnMatches(s: State, n: nat, setting: Setting)
    requires HasTask(s, n) && s.tasks[n].phase.Written? && MatchesEntry(s)
    ensures MatchesEntry(Return(s, n, setting))
  {
    hide RecordOrRefresh, Finish, MatchesEntry, AsData, MetadataLost, Forget, Suppress, DisableAutoApply, Lose;
    var p, phase := s.tasks[n].id, s.tasks[n].phase;
    LostMatches(s, p);
    if s.tasks[n].action != Revert || phase.result.inspection.status == SecurityError {
      RecordMatches(s, n, phase.result, phase.pending);
    } else if setting == Stored {
      StoreMatches(s, p);
      StoredRecordMatches(s, n);
      SettingKeepsTask(s, n);
      LoseMatches(RecordOrRefresh(StoreSetting(s, p), n, phase.result, phase.pending));
    } else if setting == NotStored {
      SettingKeepsTask(s, n);
      RecordMatches(Forget(Suppress(s, p), p), n, MetadataLost(phase.result), phase.pending);
    } else {
      FinishMatches(s, n);
    }
  }

  lemma StoredRecordMatches(s: State, n: nat)
    requires HasTask(s, n) && s.tasks[n].phase.Written? && MatchesEntry(StoreSetting(s, s.tasks[n].id))
    ensures MatchesEntry(RecordOrRefresh(StoreSetting(s, s.tasks[n].id), n, s.tasks[n].phase.result, s.tasks[n].phase.pending))
  {
    hide MatchesEntry, AsData, RecordOrRefresh;
    RecordMatches(StoreSetting(s, s.tasks[n].id), n, s.tasks[n].phase.result, s.tasks[n].phase.pending);
  }

  lemma LoseMatches(s: State)
    requires MatchesEntry(s)
    ensures MatchesEntry(Lose(s))
  {
    hide Matches, Lose;
    LoseRest(s);
  }

  lemma FinishMatches(s: State, n: nat)
    requires n in s.tasks && MatchesEntry(s)
    ensures MatchesEntry(Finish(s, n)) && MatchesEntry(Finish(Forget(s, s.tasks[n].id), n))
  {
    FinishFacts(s, n);
    FinishFacts(Forget(s, s.tasks[n].id), n);
    hide Finish, Matches;
  }

  lemma ReloadMatches(s: State, loaded: bool)
    requires Loadable(s.entry, s.checks)
    ensures MatchesEntry(Reload(s, loaded))
  {
    hide FromMapping, Restored;
  }

  /** Somewhere in the run an unload is refused or fails while the watch is closed. */
  ghost predicate Undercut(s: State, steps: seq<Step>)
    decreases |steps|
  {
    steps != [] && Enabled(s, steps[0]) && (Undercuts(s, steps[0]) || Undercut(After(s, steps[0]), steps[1..]))
  }

  /** The run passes through a state that admits actions although its watch is closed. */
  ghost predicate EverReopened(s: State, steps: seq<Step>)
    decreases |steps|
  {
    (s.watch.closed && !s.closing) ||
    (steps != [] && Enabled(s, steps[0]) && EverReopened(After(s, steps[0]), steps[1..]))
  }

  lemma {:induction false} ReopenedIsUndercut(s: State, steps: seq<Step>, t: State)
    requires Leads(s, steps, t)
    ensures t.facts.reopened <==> s.facts.reopened || Undercut(s, steps)
    decreases |steps|
  {
    hide Enabled, After, Undercuts, Answers, Forgets;
    if steps != [] {
      FactsOfStep(s, steps[0], "");
      ReopenedIsUndercut(After(s, steps[0]), steps[1..], t);
    }
  }

  /** After a close that no unload undercut, nothing is running or queued, and nothing more is admitted. */
  lemma CloseIsFinal(s: State, steps: seq<Step>, t: State, p: Id, action: Action)
    requires Initial(s) && Leads(s, steps, t) && t.stage.Closed? && !Undercut(s, steps)
    ensures t.tasks == map[] && t.background == map[] && t.watch.pending == {}
    ensures forall q | q in t.watch.running :: t.watch.running[q].Stale?
    ensures Refusal(t, p, action) == Some(RuntimeClosing)
    ensures t.saved == Reasons(t)
  {
    RunIsSafe(s, steps, t);
    ReopenedIsUndercut(s, steps, t);
    hide Leads, Initial, Undercut, LockOk, DurableOk, ConfigOk, SuppressedOk, EventsOk, Reasons;
    assert !s.facts.reopened by { InitialNotReopened(s); }
  }

  lemma InitialNotReopened(s: State)
    requires Initial(s)
    ensures !s.facts.reopened
  {
    hide Loadable, Restored, Loaded;
  }

  lemma ReopenedIsOpen(s: State)
    requires Inv(s) && !s.facts.reopened
    ensures !(s.watch.closed && !s.closing)
  {
    hide WatchOk, LockOk, NumberedBelow, DurableOk, ConfigOk, SuppressedOk, EventsOk;
  }

  lemma UndercutReopens(s: State, step: Step)
    requires Enabled(s, step) && Undercuts(s, step)
    ensures After(s, step).watch.closed && !After(s, step).closing
  {
    hide ScheduleAll, Lose;
    if step.UnloadRefused? {
      ScheduleWatch(Reopen(s), step.order);
    } else {
      LoseRest(Reopen(s));
    }
  }

  lemma {:induction false} ScheduleWatch(s: State, order: seq<Id>)
    ensures
      var t := ScheduleAll(s, order);
      t.watch == s.watch && t.closing == s.closing && t.stage == s.stage && t.states == s.states && t.lock == s.lock && t.busy == s.busy
    decreases |order|
  {
    if order != [] {
      ScheduleWatch(Schedule(s, order[0]), order[1..]);
    }
  }

  lemma {:induction false} OpensOnlyByUndercut(s: State, steps: seq<Step>, t: State)
    requires Inv(s) && !s.facts.reopened && Leads(s, steps, t)
    ensures EverReopened(s, steps) <==> Undercut(s, steps)
    decreases |steps|
  {
    hide Inv, Enabled, After, Undercuts, Answers, Forgets;
    ReopenedIsOpen(s);
    if steps != [] {
      FactsOfStep(s, steps[0], "");
      if Undercuts(s, steps[0]) {
        UndercutReopens(s, steps[0]);
      } else {
        StepKeeps(s, steps[0]);
        OpensOnlyByUndercut(After(s, steps[0]), steps[1..], t);
      }
    }
  }

  /**
   Actions are admitted behind a close exactly when, somewhere in the run, Home Assistant refused an unload, or
   it failed, while the watch was closed; earlier refused unloads do no harm.
   */
  lemma OnlyUnloadReopens(s: State, steps: seq<Step>, t: State)
    requires Initial(s) && Leads(s, steps, t)
    ensures EverReopened(s, steps) <==> Undercut(s, steps)
  {
    hide Inv, Initial, Leads, EverReopened, Undercut;
    InitialIsSafe(s);
    InitialNotReopened(s);
    OpensOnlyByUndercut(s, steps, t);
  }

  // ----- Durability

  /** A run in which no revert of the patch loses its setting with the record, and no reload loses the patch. */
  ghost predicate Remembers(s: State, steps: seq<Step>, p: Id)
    decreases |steps|
  {
    steps != [] ==> Enabled(s, steps[0]) && !Forgets(s, steps[0], p) && Remembers(After(s, steps[0]), steps[1..], p)
  }

  lemma {:induction false} StaysRemembered(s: State, steps: seq<Step>, t: State, p: Id)
    requires Leads(s, steps, t) && Remembers(s, steps, p) && p !in s.facts.forgotten
    ensures p !in t.facts.forgotten
    decreases |steps|
  {
    hide Enabled, After, Forgets, Answers, Undercuts;
    if steps != [] {
      FactsOfStep(s, steps[0], p);
      StaysRemembered(After(s, steps[0]), steps[1..], t, p);
    }
  }

  /**
   A rename that is not known durable stays on record as `durability_unconfirmed` through every action, denial,
   source error, watcher update and reload, until a sync succeeds; and the action that gets its turn is told.
   */
  lemma UnconfirmedStaysOnRecord(s: State, steps: seq<Step>, t: State, p: Id)
    requires Initial(s) && Leads(s, steps, t) && Remembers(s, steps, p) && p in t.facts.unsynced
    ensures OnRecord(t.states, p) || InHand(t.tasks, p)
    ensures forall n | n in t.tasks && t.tasks[n].id == p && t.tasks[n].phase.Working? :: t.tasks[n].phase.pending
  {
    RunIsSafe(s, steps, t);
    assert p !in s.facts.forgotten by { InitialForgotNothing(s); }
    StaysRemembered(s, steps, t, p);
    hide Leads, Initial, WatchOk, LockOk, CloseOk, ConfigOk, SuppressedOk, EventsOk, Remembers;
    assert p in Owing(t.facts);
    assert forall n | n in t.tasks :: TaskDurable(t.tasks[n], t.states, Owing(t.facts));
  }

  lemma InitialForgotNothing(s: State)
    requires Initial(s)
    ensures s.facts.forgotten == {}
  {
    hide Loadable, Restored, Loaded;
  }

  /**
   No further replace until a sync succeeds: in such runs, an action at work on a patch whose rename is not known
   durable renames nothing before its own sync, whatever it meets.
   */
  lemma NoReplaceBeforeSync(s: State, steps: seq<Step>, t: State, n: nat, added: seq<Transaction.Event>, a: Account, hunks: seq<PatchEngine.Hunk>)
    requires Initial(s) && Leads(s, steps, t) && n in t.tasks && Remembers(s, steps, t.tasks[n].id)
    requires n in t.tasks && t.tasks[n].phase.Working? && t.tasks[n].id in t.facts.unsynced
    requires Honest(added, a, t.tasks[n].phase.definition, hunks, t.tasks[n].action, t.tasks[n].phase.pending)
    ensures exists j | 0 <= j < WriteSafety.CheckIndex(a) <= |added| :: added[j] == Transaction.Synced
  {
    hide Initial, Leads, Remembers, Honest;
    var task := t.tasks[n];
    UnconfirmedStaysOnRecord(s, steps, t, task.id);
    WriteSafety.AccountOf(added, a, task.phase.definition, hunks, task.action, task.phase.pending);
    WriteSafety.OwedSyncComesFirst(added, a, task.phase.definition, hunks, task.action);
  }

  lemma SavedAtClose(s: State)
    requires Inv(s) && s.stage.Closed? && !s.facts.reopened
    ensures s.saved == Reasons(s)
  {
    hide WatchOk, LockOk, NumberedBelow, ConfigOk, SuppressedOk, EventsOk, DurableOk, Loadable, Reasons;
  }

  /** What a new runtime still knows of an owed sync: all of it if the states could be read back, else nothing. */
  lemma ReloadKeepsRecordIff(s: State, loaded: bool, p: Id)
    requires Inv(s) && s.stage.Closed? && !s.facts.reopened && Loadable(s.entry, s.checks)
    ensures OnRecord(Reload(s, loaded).states, p) <==> loaded && p in s.entry.patches && OnRecord(s.states, p)
  {
    hide Inv, FromMapping, Loadable, LostByReload;
    SavedAtClose(s);
  }

  /**
   A policy or source error before the reconciler runs reports what a run would. It is one of the steps the runs
   above are made of, so an owed sync survives it.
   */
  lemma SourceFailureIsARun(s: State, n: nat, error: PatchError)
    requires Inv(s) && HasTask(s, n) && s.tasks[n].phase.Working?
    requires error.reason != DurabilityUnconfirmed
    ensures
      var p, pending := s.tasks[n].id, s.tasks[n].phase.pending;
      && Enabled(s, TaskWrote(n, SourceFailure(error, pending), p !in s.facts.unsynced))
      && (p in Owing(s.facts) ==> pending)
  {
    hide WatchOk, LockOk, NumberedBelow, ConfigOk, SuppressedOk, EventsOk, CloseOk;
    assert TaskDurable(s.tasks[n], s.states, Owing(s.facts));
  }

  /**
   Exactly when a revert keeps an owed sync on record: when its setting is saved, or when saving fails in a way
   nobody handles and the reason was there before.
   */
  lemma RevertKeepsRecordIff(s: State, n: nat, setting: Setting)
    requires Inv(s) && HasTask(s, n) && s.tasks[n].phase.Written? && s.tasks[n].action == Revert
    requires s.tasks[n].phase.result.inspection.status != SecurityError && s.tasks[n].id in Owing(s.facts)
    ensures
      var p := s.tasks[n].id;
      OnRecord(Return(s, n, setting).states, p) <==> setting == Stored || (setting == Broke && OnRecord(s.states, p))
  {
    var p, result := s.tasks[n].id, s.tasks[n].phase.result;
    WrittenIsRecordable(s, n);
    assert SaysUnconfirmed(result);
    hide Inv, AsData;
    if setting == Broke {
      FinishStates(s, n);
      FinishStates(Forget(s, p), n);
      hide Finish;
    }
  }

  lemma FinishStates(s: State, n: nat)
    requires n in s.tasks
    ensures Finish(s, n).states == s.states
  {
    hide Completed;
  }

  // ----- Suppression

  /** The reconciles of a patch that are admitted. */
  function Reconciles(s: State, p: Id): set<nat> {
    set n | n in s.tasks && s.tasks[n].id == p && s.tasks[n].action == Reconcile
  }

  /** While a patch is suppressed, the reconciles that still get their turn were admitted before it was. */
  lemma SuppressedReconcilesAreOld(s: State, steps: seq<Step>, t: State, p: Id, n: nat)
    requires Initial(s) && Leads(s, steps, t) && p in t.suppressed && n in Reconciles(t, p)
    ensures p in t.facts.suppressedAt && n < t.facts.suppressedAt[p]
    ensures Refusal(t, p, Reconcile).Some?
  {
    RunIsSafe(s, steps, t);
    hide Leads, Initial, WatchOk, LockOk, CloseOk, ConfigOk, DurableOk, EventsOk, Invalidity;
  }

  /** Steps that lift the suppression of a patch: a revert that saves its setting, or a new runtime. */
  predicate Lifts(s: State, step: Step, p: Id) {
    match step
    case TaskReturns(n, setting) => n in s.tasks && s.tasks[n].id == p && setting == Stored
    case Reloads(_) => true
    case _ => false
  }

  lemma RecordTasks(s: State, n: nat, result: ReconcileResult, pending: bool, p: Id)
    requires n in s.tasks && s.tasks[n].id in s.states
    ensures Reconciles(RecordOrRefresh(s, n, result, pending), p) == Reconciles(Record(s, n, result, pending), p) == Reconciles(s, p)
    ensures RecordOrRefresh(s, n, result, pending).suppressed == Record(s, n, result, pending).suppressed == s.suppressed
  {
    hide DeniedPath, Noted;
  }

  lemma ReturnSuppressed(s: State, n: nat, setting: Setting, p: Id)
    requires HasTask(s, n) && s.tasks[n].phase.Written? && p in s.suppressed && !(s.tasks[n].id == p && setting == Stored)
    ensures p in Return(s, n, setting).suppressed && Reconciles(Return(s, n, setting), p) <= Reconciles(s, p)
  {
    hide RecordOrRefresh, Finish, MetadataLost, Reconciles, Lose;
    var q, phase := s.tasks[n].id, s.tasks[n].phase;
    if s.tasks[n].action != Revert || phase.result.inspection.status == SecurityError {
      RecordTasks(s, n, phase.result, phase.pending, p);
    } else if setting == Stored {
      SettingKeepsTask(s, n);
      RecordTasks(StoreSetting(s, q), n, phase.result, phase.pending, p);
      LoseTasks(RecordOrRefresh(StoreSetting(s, q), n, phase.result, phase.pending), p);
      SameTasks(s, StoreSetting(s, q), p);
    } else if setting == NotStored {
      RecordTasks(Forget(Suppress(s, q), q), n, MetadataLost(phase.result), phase.pending, p);
      SameTasks(s, Forget(Suppress(s, q), q), p);
    } else {
      FinishTasks(s, n, p);
      FinishTasks(Forget(s, q), n, p);
      SameTasks(s, Forget(s, q), p);
    }
  }

  lemma LoseTasks(s: State, p: Id)
    ensures Reconciles(Lose(s), p) == Reconciles(s, p) && Lose(s).suppressed == s.suppressed
  {
    hide Lose, Reconciles;
    LoseRest(s);
    SameTasks(s, Lose(s), p);
  }

  lemma SameTasks(s: State, t: State, p: Id)
    requires s.tasks == t.tasks
    ensures Reconciles(s, p) == Reconciles(t, p)
  {
  }

  lemma FinishTasks(s: State, n: nat, p: Id)
    requires n in s.tasks
    ensures Reconciles(Finish(s, n), p) <= Reconciles(s, p) && Finish(s, n).suppressed == s.suppressed
  {
    FinishFacts(s, n);
    hide Finish;
  }

  lemma AdmitSuppressed(s: State, q: Id, action: Action, p: Id)
    requires p in s.suppressed && Refusal(s, q, action).None?
    ensures Reconciles(Admit(s, q, action), p) <= Reconciles(s, p)
  {
    hide Invalidity;
  }

  lemma StartSuppressed(s: State, n: nat, p: Id)
    requires HasTask(s, n) && p in s.suppressed
    ensures p in Start(s, n).suppressed && Reconciles(Start(s, n), p) <= Reconciles(s, p)
  {
    var q := s.tasks[n].id;
    FinishTasks(Seen(s, q), n, p);
    hide Finish, Invalidity;
  }

  lemma CallSuppressed(s: State, step: Step, p: Id)
    requires Enabled(s, step) && p in s.suppressed
    requires step.CheckStarts? || step.BackgroundStarts? || step.Request?
    ensures p in After(s, step).suppressed && Reconciles(After(s, step), p) <= Reconciles(s, p)
  {
    hide Refusal, Completed, Reconciles, Admit;
    match step
    case Request(q, action) => if Refusal(s, q, action).None? { AdmitSuppressed(s, q, action, p); }
      assert Admit(s, q, action).suppressed == s.suppressed by { AdmitSame(s, q, action); }
    case CheckStarts(q) => StartCheckSuppressed(s, q, p);
    case BackgroundStarts(n) => StartBackgroundSuppressed(s, n, p);
  }

  lemma AdmitSame(s: State, q: Id, action: Action)
    ensures Admit(s, q, action).suppressed == s.suppressed
  {
  }

  lemma StartCheckSuppressed(s: State, q: Id, p: Id)
    requires p in s.suppressed
    ensures p in StartCheck(s, q).suppressed && Reconciles(StartCheck(s, q), p) <= Reconciles(s, p)
  {
    hide Refusal, Completed;
    if Refusal(s, q, Reconcile).None? {
      AdmitSuppressed(s, q, Reconcile, p);
      SameTasks(StartCheck(s, q), Admit(s, q, Reconcile), p);
    }
  }

  lemma StartBackgroundSuppressed(s: State, n: nat, p: Id)
    requires p in s.suppressed && n in s.background
    ensures p in StartBackground(s, n).suppressed && Reconciles(StartBackground(s, n), p) <= Reconciles(s, p)
  {
    hide Refusal;
    var q := s.background[n].id;
    if Refusal(s, q, Reconcile).None? {
      AdmitSuppressed(s, q, Reconcile, p);
      SameTasks(StartBackground(s, n), Admit(s, q, Reconcile), p);
    }
  }

  lemma TaskSuppressed(s: State, step: Step, p: Id)
    requires Enabled(s, step) && p in s.suppressed && !Lifts(s, step, p) && TaskStep(step)
    ensures p in After(s, step).suppressed && Reconciles(After(s, step), p) <= Reconciles(s, p)
  {
    hide Start, Return, Finish, Record, Reported, Reconciles, Write, StartBackground, StartCheck, CheckDone, HandleEvent, Recover, Available, Denied, Fire,
         ScheduleAll, Reload, Lose, Reopen, CloseBegin, CloseSaved, Refusal, Admit, Loadable, EnabledPatch, Refreshable, MatchesEntry, Covered;
    match step
    case TaskStarts(n) => StartSuppressed(s, n, p);
    case TaskReturns(n, setting) => ReturnSuppressed(s, n, setting, p);
    case TaskCrashed(n) => FinishTasks(s, n, p);
    case TaskSaved(n, ok) =>
      FinishTasks(if ok then Saved(s) else s, n, p);
      SameTasks(s, Saved(s), p);
    case TaskRefreshed(n) => RecordTasks(s, n, s.tasks[n].phase.result, s.tasks[n].phase.pending, p);
    case TaskWrote(n, result, synced) => WriteTasks(s, n, result, synced, p);
  }

  lemma ScheduleSuppressed(s: State, order: seq<Id>, p: Id)
    ensures Reconciles(ScheduleAll(s, order), p) == Reconciles(s, p) && ScheduleAll(s, order).suppressed == s.suppressed
  {
    hide ScheduleAll, Reconciles;
    ScheduleFacts(s, order);
    SameTasks(s, ScheduleAll(s, order), p);
  }

  lemma ReopenTasks(s: State, p: Id)
    ensures Reconciles(Reopen(s), p) == Reconciles(s, p) && Reopen(s).suppressed == s.suppressed
  {
  }

  lemma StepSuppressed(s: State, step: Step, p: Id)
    requires Enabled(s, step) && p in s.suppressed && !Lifts(s, step, p)
    ensures p in After(s, step).suppressed && Reconciles(After(s, step), p) <= Reconciles(s, p)
  {
    hide Enabled, Reconciles;
    if TaskStep(step) {
      hide After;
      TaskSuppressed(s, step, p);
    } else if step.Request? || step.CheckStarts? || step.BackgroundStarts? {
      hide After;
      CallSuppressed(s, step, p);
    } else if step.ScheduleStartup? {
      hide ScheduleAll, Lose;
      ScheduleSuppressed(s, step.order, p);
      SameTasks(ScheduleAll(s, step.order), ScheduleAll(s, step.order).(stage := Open), p);
      LoseTasks(ScheduleAll(s, step.order).(stage := Open), p);
    } else if step.UnloadRefused? {
      hide ScheduleAll, Reopen;
      ScheduleSuppressed(Reopen(s), step.order, p);
      ReopenTasks(s, p);
    } else {
      hide After;
      OtherSuppressed(s, step, p);
    }
  }

  lemma WriteTasks(s: State, n: nat, result: ReconcileResult, synced: bool, p: Id)
    requires HasTask(s, n) && s.tasks[n].phase.Working?
    ensures Reconciles(Write(s, n, result, synced), p) == Reconciles(s, p) && Write(s, n, result, synced).suppressed == s.suppressed
  {
  }

  lemma MarkSame(s: State, step: Step)
    requires Enabled(s, step) && (step.FileEvent? || step.RootRecovered?)
    ensures After(s, step).tasks == s.tasks && After(s, step).suppressed == s.suppressed && SameConfig(s, After(s, step))
  {
    hide Debounced, Lose;
    NoticeFacts(s, step.id);
    LoseRest(Marked(s, step.id));
    LoseRest(Rechecked(s, step.id));
  }

  lemma WatchSame(s: State, step: Step)
    requires Enabled(s, step) && (WatcherStep(step) || step.CheckEnds? || step.BackgroundEnds?)
    ensures After(s, step).tasks == s.tasks && After(s, step).suppressed == s.suppressed
  {
    if step.FileEvent? || step.RootRecovered? {
      hide Enabled, After;
      MarkSame(s, step);
    } else {
      hide Debounced, Expire, Completed, Refusal;
    }
  }

  lemma OutsideSame(s: State, step: Step)
    requires Enabled(s, step) && !WatcherStep(step) && !CallStep(step) && !TaskStep(step)
    requires !step.Reloads? && !step.UnloadRefused?
    ensures After(s, step).tasks == s.tasks && After(s, step).suppressed == s.suppressed
  {
    hide Lose, MatchesEntry, Start, Return, Write, Record, Finish, StartBackground, StartCheck, CheckDone, HandleEvent, Recover,
         Available, Denied, Fire, ScheduleAll, Reload, Reported, Loadable, Reasons, Refusal, Admit, HasTask, EnabledPatch, Refreshable, Enabled;
    match step
    case EntryEdited(entry) => LoseRest(s.(entry := entry));
    case UnloadFails => LoseRest(Reopen(s));
    case _ =>
  }

  lemma OtherSuppressed(s: State, step: Step, p: Id)
    requires Enabled(s, step) && p in s.suppressed && !TaskStep(step)
    requires WatcherStep(step) || step.CheckEnds? || step.BackgroundEnds? ||
             (!CallStep(step) && !step.Reloads? && !step.UnloadRefused?)
    ensures p in After(s, step).suppressed && Reconciles(After(s, step), p) <= Reconciles(s, p)
  {
    hide Enabled, After;
    if WatcherStep(step) || step.CheckEnds? || step.BackgroundEnds? {
      WatchSame(s, step);
    } else {
      OutsideSame(s, step);
    }
    SameTasks(s, After(s, step), p);
  }

  /** Until a revert saves its setting, no further reconcile of a suppressed patch is admitted, whoever asks. */
  lemma {:induction false} SuppressionAdmitsNothing(s: State, steps: seq<Step>, t: State, p: Id)
    requires Leads(s, steps, t) && p in s.suppressed && NeverLifted(s, steps, p)
    ensures p in t.suppressed && Reconciles(t, p) <= Reconciles(s, p)
    decreases |steps|
  {
    hide Enabled, After, Lifts, Reconciles;
    if steps != [] {
      StepSuppressed(s, steps[0], p);
      SuppressionAdmitsNothing(After(s, steps[0]), steps[1..], t, p);
    }
  }

  ghost predicate NeverLifted(s: State, steps: seq<Step>, p: Id)
    decreases |steps|
  {
    steps != [] ==> Enabled(s, steps[0]) && !Lifts(s, steps[0], p) && NeverLifted(After(s, steps[0]), steps[1..], p)
  }
}
