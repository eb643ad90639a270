/**
 Which file events are followed by an action, over all runs, and exactly which steps leave one behind.
 */
module RuntimeEvents {
  import opened Models
  import opened Definitions
  import opened Reconciling
  import opened RuntimeSteps
  import opened RuntimeSafety
  import opened RuntimeTheorems

  /** An event stops being owed exactly when an action on its patch takes its turn, or none is to follow. */
  lemma EventsAreAnswered(s: State, step: Step, p: Id)
    requires Enabled(s, step) && p in s.facts.unseen
    ensures p !in After(s, step).facts.unseen <==> Answers(s, step, p)
  {
    hide Enabled, After, Answers, Undercuts, Forgets;
    FactsOfStep(s, step, p);
  }

  /** In service but for an entry that says something else. */
  predicate InPlace(s: State) {
    s.stage.Open? && !s.closing && !s.watch.closed
  }

  /** An event on a patch in service whose check is stale. */
  predicate GoesUnheard(s: State, q: Id, p: Id) {
    q == p && Current(s) && Deaf(s.watch, p) && p !in s.suppressed
  }

  /** The revert saves its setting, and with it makes an entry that said something else match again. */
  predicate SavesOverEdit(s: State, n: nat) {
    && n in s.tasks && s.tasks[n].action == Revert && s.tasks[n].id in s.definitions
    && s.tasks[n].phase.Written? && s.tasks[n].phase.result.inspection.status != SecurityError
    && !MatchesEntry(s) && MatchesEntry(StoreSetting(s, s.tasks[n].id))
  }

  /**
   Exactly the steps that leave an event behind: an event on a patch whose check is stale; a startup that does not
   look at the patch; an unload that fails; and an edit, or a revert's own save, that makes the entry match again
   after actions were refused. Each time nothing under way covers the patch.
   */
  predicate Drops(s: State, step: Step, p: Id) {
    !Covered(s, p) &&
    match step
    case FileEvent(q) => GoesUnheard(s, q, p)
    case RootRecovered(q) => GoesUnheard(s, q, p)
    case ScheduleStartup(_) =>
      p in s.facts.unseen && MatchesEntry(s) && p in s.definitions && !s.definitions[p].reconcileOnStartup
    case UnloadFails => p in s.facts.unseen && s.stage.Open? && !s.watch.closed && MatchesEntry(s)
    case EntryEdited(entry) => p in s.facts.unseen && InPlace(s) && !MatchesEntry(s) && MatchesEntry(s.(entry := entry))
    case TaskReturns(n, setting) => p in s.facts.unseen && InPlace(s) && setting == Stored && SavesOverEdit(s, n)
    case _ => false
  }

  /** Among the steps of the run there is one that leaves an event on the patch behind. */
  ghost predicate Dropped(s: State, steps: seq<Step>, p: Id)
    decreases |steps|
  {
    steps != [] && Enabled(s, steps[0]) && (Drops(s, steps[0], p) || Dropped(After(s, steps[0]), steps[1..], p))
  }

  /** The run passes through a state in service in which nothing will answer an event on the patch. */
  ghost predicate EverLost(s: State, steps: seq<Step>, p: Id)
    decreases |steps|
  {
    Lost(s, p) || (steps != [] && Enabled(s, steps[0]) && EverLost(After(s, steps[0]), steps[1..], p))
  }

  // ----- One step

  /** What is newly missed after the step is what it drops, and that is lost. */
  ghost predicate Tells(s: State, step: Step, t: State, p: Id) {
    && (p in t.facts.missed ==> p in s.facts.missed || Drops(s, step, p))
    && (Drops(s, step, p) ==> Lost(t, p))
  }

  lemma LostIsKnown(s: State, p: Id)
    requires EventsOk(s) && Lost(s, p)
    ensures p in s.facts.missed
  {
    hide Current, Covered, EventsHeld;
  }

  /** A step that notes its losses at the end tells the truth if they are the losses before, or what it drops. */
  lemma LoseTells(s: State, step: Step, t: State, p: Id)
    requires EventsOk(s) && t.facts.missed == s.facts.missed
    requires Lost(t, p) ==> Lost(s, p) || Drops(s, step, p)
    requires Drops(s, step, p) ==> Lost(t, p)
    ensures Tells(s, step, Lose(t), p)
  {
    hide Current, Covered, EventsOk, Drops, Lose;
    LoseRest(t);
    LostTwice(t, p);
    if Lost(s, p) {
      LostIsKnown(s, p);
    }
  }

  lemma LostTwice(s: State, p: Id)
    ensures Lost(Lose(s), p) <==> Lost(s, p)
  {
    LoseRest(s);
    hide Lose, Covered, Matches;
    CoveredSame(s, Lose(s));
  }

  lemma CurrentIsOpen(s: State)
    ensures Current(s) <==> InPlace(s) && MatchesEntry(s)
  {
    hide MatchesEntry;
  }

  /** What noting an event changes: what covers its patch, unless the check of the patch is stale. */
  lemma MarkCovers(s: State, t: State, q: Id, p: Id)
    requires Core(t) && q in t.definitions && SameConfig(s, t) && t.stage == s.stage && t.closing == s.closing
    requires t.watch == s.watch && t.background == s.background && t.tasks == s.tasks
    ensures
      var u := Debounce(t, q);
      && (Current(u) <==> Current(s)) && u.facts == t.facts
      && (Covered(s, p) ==> Covered(u, p))
      && (p == q && !s.watch.closed && q !in t.suppressed && !Deaf(s.watch, q) ==> Covered(u, p))
      && (Deaf(s.watch, p) && !Covered(s, p) ==> !Covered(u, p))
  {
    DebounceKeeps(t, q);
    CoveredSame(s, t);
    hide Core, BackgroundCovers, TaskCovers, Matches;
  }

  lemma NoticedLoses(s: State, t: State, q: Id, p: Id)
    requires Inv(s) && q in s.definitions && s.definitions[q].enabled
    requires t == s.(states := t.states) && Inv(t)
    ensures
      var u := Debounce(Noticed(t, q), q);
      var drops := !Covered(s, p) && GoesUnheard(s, q, p);
      (Lost(u, p) ==> Lost(s, p) || drops) && (drops ==> Lost(u, p)) && u.facts.missed == s.facts.missed
  {
    hide Inv, Core, Current, Covered, Debounce, Deaf, EventsHeld, MatchesEntry;
    NoticeKeeps(t, q);
    MarkCovers(s, Noticed(t, q), q, p);
    CurrentIsOpen(s);
  }

  lemma ClosedLosesNothing(s: State, q: Id, p: Id)
    requires s.watch.closed || s.closing
    ensures !Lost(Noticed(s, q), p) && Noticed(s, q).facts.missed == s.facts.missed && !Current(s)
  {
    hide MatchesEntry, Covered;
  }

  lemma EventTells(s: State, q: Id, p: Id)
    requires Inv(s) && EnabledPatch(s, q)
    ensures Tells(s, FileEvent(q), HandleEvent(s, q), p)
  {
    hide Inv, Core, Current, Covered, Lost, Deaf, Noticed, Debounce, HandleEvent, Lose, EventsOk, Tells;
    NoticeFacts(s, q);
    NoticedLoses(s, s, q, p);
    if s.watch.closed || s.closing {
      ClosedLosesNothing(s, q, p);
    }
    InvEvents(s);
    LoseTells(s, FileEvent(q), Marked(s, q), p);
  }

  lemma InvEvents(s: State)
    requires Inv(s)
    ensures EventsOk(s)
  {
    hide Core, EventsOk;
  }

  lemma RecoveryTells(s: State, q: Id, p: Id)
    requires Inv(s) && Enabled(s, RootRecovered(q))
    ensures Tells(s, RootRecovered(q), Recover(s, q), p)
  {
    NoticeFacts(s, q);
    AvailableFacts(s, q);
    AvailableKeeps(s, q, true);
    hide Inv, Available, Noticed, Debounce, Recover, Lose, Current, Covered, Lost, Deaf;
    NoticedLoses(s, Available(s, q, true), q, p);
    InvEvents(s);
    hide EventsOk;
    LoseTells(s, RootRecovered(q), Rechecked(s, q), p);
  }

  lemma {:induction false} OnlyOrdered(s: State, order: seq<Id>, p: Id)
    requires NumberedBelow(s.tasks, s.background, s.next) && !s.closing
    ensures BackgroundCovers(s.background, p) ==> BackgroundCovers(ScheduleAll(s, order).background, p)
    ensures BackgroundCovers(ScheduleAll(s, order).background, p) ==> BackgroundCovers(s.background, p) || p in order
    ensures p in order && p !in s.suppressed ==> BackgroundCovers(ScheduleAll(s, order).background, p)
    decreases |order|
  {
    hide BackgroundCovers;
    if order != [] {
      OneMore(s, order[0], p);
      OnlyOrdered(Schedule(s, order[0]), order[1..], p);
    }
  }

  lemma OneMore(s: State, q: Id, p: Id)
    requires NumberedBelow(s.tasks, s.background, s.next) && !s.closing
    ensures
      var t := Schedule(s, q);
      && NumberedBelow(t.tasks, t.background, t.next)
      && (BackgroundCovers(s.background, p) ==> BackgroundCovers(t.background, p))
      && (BackgroundCovers(t.background, p) ==> BackgroundCovers(s.background, p) || p == q)
      && (p == q && p !in s.suppressed ==> BackgroundCovers(t.background, p))
  {
    ScheduleCovers(s.background, s.next, q);
    if BackgroundCovers(Schedule(s, q).background, p) && p != q {
      var n :| n in Schedule(s, q).background && Schedule(s, q).background[n] == Background(p, Created);
      assert n in s.background && s.background[n] == Background(p, Created);
    }
  }

  /** What a startup covers: what was covered, and the patches it looks at. */
  lemma StartupCovers(s: State, order: seq<Id>, p: Id)
    requires Inv(s) && s.stage.Starting? && p in s.facts.unseen
    ensures
      var t := ScheduleAll(s, order).(stage := Open);
      && (Covered(t, p) <==> Covered(s, p) || p in order)
      && (Current(t) <==> MatchesEntry(s)) && t.facts == s.facts
  {
    assert !s.closing && !s.watch.closed && p !in s.suppressed && NumberedBelow(s.tasks, s.background, s.next) by {
      hide WatchOk, LockOk, NumberedBelow, ConfigOk, SuppressedOk, DurableOk, Current, Covered;
    }
    hide Inv, NumberedBelow, BackgroundCovers, WatchCovers, TaskCovers, ScheduleAll, Matches;
    OnlyOrdered(s, order, p);
    ScheduleWatch(s, order);
    ScheduleFacts(s, order);
  }

  lemma StartupTells(s: State, order: seq<Id>, p: Id)
    requires Inv(s) && Enabled(s, ScheduleStartup(order))
    ensures Tells(s, ScheduleStartup(order), Startup(s, order), p)
  {
    var t := ScheduleAll(s, order).(stage := Open);
    ScheduleFacts(s, order);
    InvEvents(s);
    if p in s.facts.unseen {
      HeldIsEnabled(s, p);
      StartupCovers(s, order, p);
      assert p in order <==> s.definitions[p].reconcileOnStartup by { hide Inv, ScheduleAll; }
    }
    hide Inv, EventsOk, ScheduleAll, Covered, Current, MatchesEntry, Lose;
    LoseTells(s, ScheduleStartup(order), t, p);
  }

  lemma ReopenedIsCurrent(s: State, p: Id)
    ensures Covered(Reopen(s), p) <==> Covered(s, p)
    ensures Current(Reopen(s)) <==> s.stage.Open? && !s.watch.closed && MatchesEntry(s)
    ensures Reopen(s).facts.unseen == s.facts.unseen && Reopen(s).facts.missed == s.facts.missed
  {
    hide Matches, Covered;
    CoveredSame(s, Reopen(s));
  }

  lemma UnloadTells(s: State, p: Id)
    requires Inv(s) && s.closing
    ensures Tells(s, UnloadFails, Lose(Reopen(s)), p)
  {
    hide Inv, EventsOk, Covered, Current, MatchesEntry, Reopen, Lose, Tells;
    InvEvents(s);
    ReopenedIsCurrent(s, p);
    CurrentIsOpen(s);
    LoseTells(s, UnloadFails, Reopen(s), p);
  }

  lemma EditedIsCurrent(s: State, entry: Entry, p: Id)
    ensures
      var t := s.(entry := entry);
      && (Covered(t, p) <==> Covered(s, p)) && (Current(t) <==> InPlace(s) && MatchesEntry(t))
  {
    hide Matches, Covered;
    CoveredSame(s, s.(entry := entry));
  }

  lemma EditTells(s: State, entry: Entry, p: Id)
    requires Inv(s)
    ensures Tells(s, EntryEdited(entry), Lose(s.(entry := entry)), p)
  {
    hide Inv, EventsOk, Covered, Current, MatchesEntry, Lose, InPlace, Tells;
    InvEvents(s);
    EditedIsCurrent(s, entry, p);
    CurrentIsOpen(s);
    LoseTells(s, EntryEdited(entry), s.(entry := entry), p);
  }

  lemma RecordCovers(s: State, n: nat, result: ReconcileResult, pending: bool, p: Id)
    requires HasTask(s, n) && !s.tasks[n].phase.Waiting?
    ensures
      var t := RecordOrRefresh(s, n, result, pending);
      && (Covered(t, p) <==> Covered(s, p)) && (Current(t) <==> Current(s)) && t.facts == s.facts
  {
    RecordTask(s, n, result, pending);
    var t := RecordOrRefresh(s, n, result, pending);
    MovedCovers(s.tasks, n, t.tasks[n].phase);
    MovedBack(s.tasks, n, t.tasks[n].phase, p);
    hide RecordOrRefresh, Moved, WatchCovers, BackgroundCovers, TaskCovers, Matches;
  }

  lemma RecordTask(s: State, n: nat, result: ReconcileResult, pending: bool)
    requires HasTask(s, n)
    ensures
      var t := RecordOrRefresh(s, n, result, pending);
      && n in t.tasks && t.tasks == Moved(s.tasks, n, t.tasks[n].phase) && !t.tasks[n].phase.Waiting?
      && t == s.(tasks := t.tasks, states := t.states)
  {
    hide DeniedPath, Noted;
  }

  lemma MovedBack(tasks: map<nat, Task>, n: nat, phase: Phase, p: Id)
    requires n in tasks && !phase.Waiting?
    ensures TaskCovers(Moved(tasks, n, phase), p) ==> TaskCovers(tasks, p)
  {
    if TaskCovers(Moved(tasks, n, phase), p) {
      var k :| k in Moved(tasks, n, phase) && Moved(tasks, n, phase)[k].id == p && Moved(tasks, n, phase)[k].phase.Waiting?;
      assert k in tasks && tasks[k].id == p && tasks[k].phase.Waiting?;
    }
  }

  lemma SettingCovers(s: State, q: Id, p: Id)
    requires q in s.definitions
    ensures
      var t := StoreSetting(s, q);
      && (Covered(t, p) <==> Covered(s, p)) && t.facts == s.facts
      && (Current(t) <==> InPlace(s) && MatchesEntry(t))
  {
    hide AsData, Matches, Covered;
    CoveredSame(s, StoreSetting(s, q));
  }

  /** A stored setting may bring the runtime back into service, and covers nothing. */
  lemma StoredCovers(s: State, n: nat, p: Id)
    requires HasTask(s, n) && s.tasks[n].phase.Written? && HasTask(StoreSetting(s, s.tasks[n].id), n)
    requires StoreSetting(s, s.tasks[n].id).tasks == s.tasks
    ensures
      var r := RecordOrRefresh(StoreSetting(s, s.tasks[n].id), n, s.tasks[n].phase.result, s.tasks[n].phase.pending);
      && (Covered(r, p) <==> Covered(s, p)) && r.facts == s.facts
      && (Current(r) <==> InPlace(s) && MatchesEntry(StoreSetting(s, s.tasks[n].id)))
  {
    hide Covered, Current, MatchesEntry, RecordOrRefresh, StoreSetting;
    SettingCovers(s, s.tasks[n].id, p);
    RecordCovers(StoreSetting(s, s.tasks[n].id), n, s.tasks[n].phase.result, s.tasks[n].phase.pending, p);
  }

  lemma StoredTells(s: State, n: nat, p: Id)
    requires Inv(s) && HasTask(s, n) && s.tasks[n].phase.Written? && s.tasks[n].action == Revert
    requires s.tasks[n].phase.result.inspection.status != SecurityError
    ensures Tells(s, TaskReturns(n, Stored), Return(s, n, Stored), p)
  {
    hide Inv, EventsOk, Covered, Current, MatchesEntry, Lose, RecordOrRefresh, StoreSetting, Forget, Suppress, MetadataLost, Finish, InPlace, Tells;
    var q, phase := s.tasks[n].id, s.tasks[n].phase;
    InvEvents(s);
    SettingKeepsTask(s, n);
    CurrentIsOpen(s);
    StoredCovers(s, n, p);
    LoseTells(s, TaskReturns(n, Stored), RecordOrRefresh(StoreSetting(s, q), n, phase.result, phase.pending), p);
  }

  lemma ReturnTells(s: State, n: nat, setting: Setting, p: Id)
    requires Inv(s) && HasTask(s, n) && s.tasks[n].phase.Written?
    ensures Tells(s, TaskReturns(n, setting), Return(s, n, setting), p)
  {
    hide Inv, Return, Lost, Covered, MatchesEntry, InPlace;
    if s.tasks[n].action == Revert && s.tasks[n].phase.result.inspection.status != SecurityError && setting == Stored {
      StoredTells(s, n, p);
    } else if setting == Stored {
      PlainReturnFacts(s, n, setting);
    } else {
      ReturnFacts(s, n, setting);
    }
  }

  lemma PlainReturnFacts(s: State, n: nat, setting: Setting)
    requires HasTask(s, n) && s.tasks[n].phase.Written?
    requires s.tasks[n].action != Revert || s.tasks[n].phase.result.inspection.status == SecurityError
    ensures Return(s, n, setting).facts == s.facts
  {
    hide RecordOrRefresh;
    RecordFacts(s, n, s.tasks[n].phase.result, s.tasks[n].phase.pending);
  }

  lemma QuietTells(s: State, step: Step, t: State, p: Id)
    requires t.facts.missed <= s.facts.missed
    requires !step.FileEvent? && !step.RootRecovered? && !step.ScheduleStartup? && !step.UnloadFails?
    requires !step.EntryEdited? && !step.TaskReturns?
    ensures Tells(s, step, t, p)
  {
    hide Lost, Covered;
  }

  lemma NewMissesNothing(s: State, loaded: bool)
    requires Loadable(s.entry, s.checks)
    ensures Reload(s, loaded).facts.missed == {}
  {
    hide Loadable, LostByReload, StillWatched, Loaded, Restored;
  }

  lemma QuietMissed(s: State, step: Step)
    requires Enabled(s, step)
    requires step.TaskStarts? || step.TaskWrote? || step.UnloadRefused? || step.Reloads?
    ensures After(s, step).facts.missed <= s.facts.missed
  {
    hide Start, ScheduleAll, Reported, Loadable, Reload, Invalidity;
    match step
    case TaskStarts(n) => StartFacts(s, n);
    case TaskWrote(n, result, synced) =>
    case UnloadRefused(order) => ScheduleFacts(Reopen(s), order);
    case Reloads(loaded) => NewMissesNothing(s, loaded);
  }

  lemma QuietStepTells(s: State, step: Step, p: Id)
    requires Enabled(s, step) && !step.FileEvent? && !step.RootRecovered? && !step.ScheduleStartup? && !step.UnloadFails?
    requires !step.EntryEdited? && !step.TaskReturns?
    ensures Tells(s, step, After(s, step), p)
  {
    hide Enabled, After, Tells;
    if step.TaskStarts? || step.TaskWrote? || step.UnloadRefused? || step.Reloads? {
      QuietMissed(s, step);
    } else {
      FactsStay(s, step);
    }
    QuietTells(s, step, After(s, step), p);
  }

  lemma LoudStepTells(s: State, step: Step, p: Id)
    requires Inv(s) && Enabled(s, step)
    requires step.FileEvent? || step.RootRecovered? || step.ScheduleStartup? || step.UnloadFails? || step.EntryEdited? || step.TaskReturns?
    ensures Tells(s, step, After(s, step), p)
  {
    hide Inv, Tells, HandleEvent, Recover, Startup, Lose, Return;
    match step
    case FileEvent(q) => EventTells(s, q, p);
    case RootRecovered(q) => RecoveryTells(s, q, p);
    case ScheduleStartup(order) => StartupTells(s, order, p);
    case UnloadFails => UnloadTells(s, p);
    case EntryEdited(entry) => EditTells(s, entry, p);
    case TaskReturns(n, setting) => ReturnTells(s, n, setting, p);
  }

  lemma StepTells(s: State, step: Step, p: Id)
    requires Inv(s) && Enabled(s, step)
    ensures Tells(s, step, After(s, step), p)
  {
    hide Inv, Tells, Enabled, After;
    if step.FileEvent? || step.RootRecovered? || step.ScheduleStartup? || step.UnloadFails? || step.EntryEdited? || step.TaskReturns? {
      LoudStepTells(s, step, p);
    } else {
      QuietStepTells(s, step, p);
    }
  }

  // ----- Stale checks

  /** The check of the patch starts at once, and is refused. */
  predicate Deafens(s: State, step: Step, p: Id) {
    && step == TimerFires(p, true) && !s.watch.closed && !s.closing && p !in s.busy
    && Refusal(s, p, Reconcile).Some?
  }

  lemma WatcherRunning(s: State, step: Step)
    requires Enabled(s, step) && WatcherStep(step) && !step.TimerFires?
    ensures After(s, step).watch.running == s.watch.running
  {
    if step.FileEvent? || step.RootRecovered? {
      hide Lose, HandleEvent, Recover;
      NoticeFacts(s, step.id);
      LoseRest(Marked(s, step.id));
      LoseRest(Rechecked(s, step.id));
    } else {
      hide HandleEvent, Recover, Fire, Start, Return, Write, Record, Finish, Reload;
    }
  }

  lemma CallRunning(s: State, step: Step)
    requires Enabled(s, step) && CallStep(step) && !step.CheckStarts? && !step.CheckEnds?
    ensures After(s, step).watch.running == s.watch.running
  {
    hide Refusal, ScheduleAll, Lose;
    if step.ScheduleStartup? {
      ScheduleWatch(s, step.order);
      LoseRest(ScheduleAll(s, step.order).(stage := Open));
    }
  }

  lemma FinishRunning(s: State, n: nat)
    requires n in s.tasks
    ensures Finish(s, n).watch.running == s.watch.running
  {
  }

  lemma RecordWatch(s: State, n: nat, result: ReconcileResult, pending: bool)
    requires HasTask(s, n)
    ensures RecordOrRefresh(s, n, result, pending).watch == Record(s, n, result, pending).watch == s.watch
  {
    hide DeniedPath, Noted;
  }

  lemma ReturnRunning(s: State, n: nat, setting: Setting)
    requires HasTask(s, n) && s.tasks[n].phase.Written?
    ensures Return(s, n, setting).watch.running == s.watch.running
  {
    hide RecordOrRefresh, Finish, MetadataLost, DisableAutoApply, Lose;
    var p, phase := s.tasks[n].id, s.tasks[n].phase;
    SettingKeepsTask(s, n);
    RecordWatch(s, n, phase.result, phase.pending);
    RecordWatch(StoreSetting(s, p), n, phase.result, phase.pending);
    RecordWatch(Forget(Suppress(s, p), p), n, MetadataLost(phase.result), phase.pending);
    LoseRest(RecordOrRefresh(StoreSetting(s, p), n, phase.result, phase.pending));
    FinishRunning(s, n);
    FinishRunning(Forget(s, p), n);
    SettingWatch(s, p);
  }

  lemma SettingWatch(s: State, p: Id)
    requires p in s.definitions
    ensures StoreSetting(s, p).watch == Forget(Suppress(s, p), p).watch == Forget(s, p).watch == s.watch
  {
    hide AsData;
  }

  lemma TaskRunning(s: State, step: Step)
    requires Enabled(s, step) && TaskStep(step)
    ensures After(s, step).watch.running == s.watch.running
  {
    hide Finish, Record, Reported, Return, Start, Write, Saved;
    match step
    case TaskStarts(n) => StartRunning(s, n);
    case TaskWrote(n, result, synced) => WriteRunning(s, n, result, synced);
    case TaskCrashed(n) => FinishRunning(s, n);
    case TaskReturns(n, setting) => ReturnRunning(s, n, setting);
    case TaskRefreshed(n) => RecordWatch(s, n, s.tasks[n].phase.result, s.tasks[n].phase.pending);
    case TaskSaved(n, ok) => FinishRunning(s, n); SavedRunning(s, n);
  }

  lemma SavedRunning(s: State, n: nat)
    requires n in s.tasks
    ensures n in Saved(s).tasks && Finish(Saved(s), n).watch.running == s.watch.running
  {
    hide Finish, Reasons;
    FinishRunning(Saved(s), n);
  }

  lemma StartRunning(s: State, n: nat)
    requires HasTask(s, n)
    ensures Start(s, n).watch.running == s.watch.running
  {
    hide Finish, Invalidity;
    FinishRunning(s, n);
  }

  lemma WriteRunning(s: State, n: nat, result: ReconcileResult, synced: bool)
    requires HasTask(s, n) && s.tasks[n].phase.Working?
    ensures Write(s, n, result, synced).watch.running == s.watch.running
  {
  }

  lemma OutsideRunning(s: State, step: Step)
    requires Enabled(s, step) && !WatcherStep(step) && !CallStep(step) && !TaskStep(step) && !step.Reloads?
    ensures After(s, step).watch.running == s.watch.running
  {
    if step.EntryEdited? || step.UnloadFails? || step.UnloadRefused? {
      hide ScheduleAll, Lose;
      match step
      case EntryEdited(entry) => LoseRest(s.(entry := entry));
      case UnloadFails => LoseRest(Reopen(s));
      case UnloadRefused(order) => ScheduleWatch(Reopen(s), order);
    } else {
      hide Enabled, Start, Return, Write, Record, Finish, StartBackground, StartCheck, CheckDone, HandleEvent, Recover, Fire, Reload, Reasons;
    }
  }

  lemma OtherRunning(s: State, step: Step)
    requires Enabled(s, step) && !step.TimerFires? && !step.CheckStarts? && !step.CheckEnds? && !step.Reloads?
    ensures After(s, step).watch.running == s.watch.running
  {
    hide Enabled, After;
    if WatcherStep(step) {
      WatcherRunning(s, step);
    } else if CallStep(step) {
      CallRunning(s, step);
    } else if TaskStep(step) {
      TaskRunning(s, step);
    } else {
      OutsideRunning(s, step);
    }
  }

  lemma CheckRunning(s: State, step: Step, p: Id)
    requires Enabled(s, step) && (step.CheckStarts? || step.CheckEnds?)
    ensures Deaf(After(s, step).watch, p) <==> Deaf(s.watch, p)
  {
    hide Refusal;
  }

  lemma TimerRunning(s: State, step: Step, p: Id)
    requires Inv(s) && Enabled(s, step) && step.TimerFires?
    ensures Deaf(After(s, step).watch, p) <==> Deaf(s.watch, p) || Deafens(s, step, p)
  {
    assert step.id !in s.watch.running by { hide LockOk, NumberedBelow, ConfigOk, SuppressedOk, DurableOk, CloseOk, EventsOk; }
    hide Inv, Refusal;
  }

  lemma ReloadRunning(s: State, loaded: bool, p: Id)
    requires Loadable(s.entry, s.checks)
    ensures !Deaf(Reload(s, loaded).watch, p)
  {
    hide Loadable, LostByReload, StillWatched, Loaded, Restored;
  }

  /** A check becomes stale exactly when it starts at once and is refused; only a new runtime is rid of it. */
  lemma DeafStep(s: State, step: Step, p: Id)
    requires Inv(s) && Enabled(s, step)
    ensures Deaf(After(s, step).watch, p) <==> !step.Reloads? && (Deaf(s.watch, p) || Deafens(s, step, p))
  {
    hide Inv, Refusal;
    if step.TimerFires? {
      hide After, Deaf;
      TimerRunning(s, step, p);
    } else if step.Reloads? {
      hide Loadable, Reload, Deaf;
      ReloadRunning(s, step.loaded, p);
    } else if step.CheckStarts? || step.CheckEnds? {
      hide After, Enabled, Deaf;
      CheckRunning(s, step, p);
    } else {
      hide After, Enabled;
      OtherRunning(s, step);
    }
  }

  /** Whether the check of the patch is stale after the run, from whether it is at its start. */
  ghost predicate Deafened(s: State, steps: seq<Step>, p: Id, already: bool)
    decreases |steps|
  {
    if steps == [] then already
    else
      Enabled(s, steps[0]) &&
      Deafened(After(s, steps[0]), steps[1..], p, !steps[0].Reloads? && (already || Deafens(s, steps[0], p)))
  }

  lemma {:induction false} DeafRun(s: State, steps: seq<Step>, t: State, p: Id)
    requires Inv(s) && Leads(s, steps, t)
    ensures Deaf(t.watch, p) <==> Deafened(s, steps, p, Deaf(s.watch, p))
    decreases |steps|
  {
    hide Inv, Enabled, After, Deaf, Deafens;
    if steps != [] {
      DeafStep(s, steps[0], p);
      StepKeeps(s, steps[0]);
      DeafRun(After(s, steps[0]), steps[1..], t, p);
    }
  }

  lemma InitialHears(s: State, p: Id)
    requires Initial(s)
    ensures !Deaf(s.watch, p)
  {
    hide Loadable, Restored, Loaded;
  }

  /** Over all runs: the watcher no longer checks a patch if and only if, under this runtime, a check of it was refused at once. */
  lemma DeafIffRefusedAtOnce(s: State, steps: seq<Step>, t: State, p: Id)
    requires Initial(s) && Leads(s, steps, t)
    ensures Deaf(t.watch, p) <==> Deafened(s, steps, p, false)
  {
    hide Inv, Initial, Leads, Deaf, Deafened;
    InitialIsSafe(s);
    InitialHears(s, p);
    DeafRun(s, steps, t, p);
  }

  // ----- Every run

  lemma {:induction false} LosesOnlyByDrops(s: State, steps: seq<Step>, t: State, p: Id)
    requires Inv(s) && p !in s.facts.missed && Leads(s, steps, t)
    ensures EverLost(s, steps, p) <==> Dropped(s, steps, p)
    decreases |steps|
  {
    hide Inv, Enabled, After, Drops, Lost;
    assert !Lost(s, p) by {
      InvEvents(s);
      if Lost(s, p) {
        LostIsKnown(s, p);
      }
    }
    if steps != [] {
      var u := After(s, steps[0]);
      StepTells(s, steps[0], p);
      StepKeeps(s, steps[0]);
      if Drops(s, steps[0], p) {
        assert EverLost(u, steps[1..], p);
      } else {
        LosesOnlyByDrops(u, steps[1..], t, p);
      }
    }
  }

  lemma InitialMissesNothing(s: State)
    requires Initial(s)
    ensures s.facts.missed == {}
  {
    hide Loadable, Restored, Loaded;
  }

  /** Over all runs: an event is left behind if and only if one of the steps of `Drops` is taken. */
  lemma LostIffDropped(s: State, steps: seq<Step>, t: State, p: Id)
    requires Initial(s) && Leads(s, steps, t)
    ensures EverLost(s, steps, p) <==> Dropped(s, steps, p)
  {
    hide Inv, Initial, Leads, EverLost, Dropped;
    InitialIsSafe(s);
    InitialMissesNothing(s);
    LosesOnlyByDrops(s, steps, t, p);
  }

  lemma {:induction false} LostAtTheEnd(s: State, steps: seq<Step>, t: State, p: Id)
    requires Leads(s, steps, t) && Lost(t, p)
    ensures EverLost(s, steps, p)
    decreases |steps|
  {
    hide Enabled, After, Lost;
    if steps != [] {
      LostAtTheEnd(After(s, steps[0]), steps[1..], t, p);
    }
  }

  /**
   No lost event: in service, and unless one of those steps was taken, an event no action answered yet has a timer,
   a mark, an unstarted check or background task, or a queued action. A mark that counts belongs to a patch whose
   check or action has yet to end; and a patch never has both a timer and a check.
   */
  lemma NoEventIsLost(s: State, steps: seq<Step>, t: State, p: Id)
    requires Initial(s) && Leads(s, steps, t)
    ensures !Dropped(s, steps, p) && p in t.facts.unseen && Current(t) ==> Covered(t, p)
    ensures p in t.watch.dirty && !Deaf(t.watch, p) ==> (p in t.watch.running && !t.watch.running[p].Stale?) || p in t.busy
    ensures p in t.watch.pending ==> p !in t.watch.running && p !in t.watch.dirty
  {
    RunIsSafe(s, steps, t);
    LostIffDropped(s, steps, t, p);
    if Lost(t, p) {
      LostAtTheEnd(s, steps, t, p);
    }
    hide Leads, Initial, Dropped, EverLost, Covered, Current, LockOk, DurableOk, CloseOk, ConfigOk, SuppressedOk, EventsOk;
  }
}
