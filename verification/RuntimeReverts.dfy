/**
 What a revert leaves behind: automatic apply stays off until somebody edits the entry.
 */
module RuntimeReverts {
  import opened Models
  import opened Definitions
  import opened Reconciling
  import opened RuntimeSteps
  import opened RuntimeSafety
  import opened RuntimeTheorems

  // ----- The configuration over one step

  lemma StartConfig(s: State, n: nat)
    requires HasTask(s, n)
    ensures SameConfig(s, Start(s, n))
  {
    FinishFacts(s, n);
    hide Finish, Invalidity;
  }

  lemma RecordConfig(s: State, n: nat, result: ReconcileResult, pending: bool)
    requires n in s.tasks && s.tasks[n].id in s.states
    ensures SameConfig(s, RecordOrRefresh(s, n, result, pending)) && SameConfig(s, Record(s, n, result, pending))
  {
    hide DeniedPath, Noted;
  }

  lemma LostConfig(s: State, p: Id)
    ensures SameConfig(s, Forget(Suppress(s, p), p)) && SameConfig(s, Forget(s, p))
  {
  }

  /** A revert that does not get to save its setting leaves the configuration alone. */
  lemma ReturnConfig(s: State, n: nat, setting: Setting)
    requires HasTask(s, n) && s.tasks[n].phase.Written? && !(setting == Stored && Reverting(s, n))
    ensures SameConfig(s, Return(s, n, setting))
  {
    hide RecordOrRefresh, Finish, MetadataLost, StoreSetting, Forget, Suppress, Lose;
    var p, phase := s.tasks[n].id, s.tasks[n].phase;
    LostConfig(s, p);
    if s.tasks[n].action != Revert || phase.result.inspection.status == SecurityError {
      RecordConfig(s, n, phase.result, phase.pending);
    } else if setting == NotStored {
      SettingKeepsTask(s, n);
      RecordConfig(Forget(Suppress(s, p), p), n, MetadataLost(phase.result), phase.pending);
    } else {
      ForgetsNoTask(s, n);
      FinishFacts(s, n);
      FinishFacts(Forget(s, p), n);
    }
  }

  lemma ForgetsNoTask(s: State, n: nat)
    requires n in s.tasks
    ensures n in Forget(s, s.tasks[n].id).tasks
  {
  }

  lemma TaskConfig(s: State, step: Step)
    requires Enabled(s, step) && TaskStep(step)
    requires !(step.TaskReturns? && step.setting == Stored && Reverting(s, step.n))
    ensures SameConfig(s, After(s, step))
  {
    hide Finish, Record, Reported, Return, Start, Reasons, Reverting;
    match step
    case TaskStarts(n) => StartConfig(s, n);
    case TaskWrote(n, result, synced) =>
    case TaskCrashed(n) => FinishFacts(s, n);
    case TaskReturns(n, setting) => ReturnConfig(s, n, setting);
    case TaskRefreshed(n) => RecordConfig(s, n, s.tasks[n].phase.result, s.tasks[n].phase.pending);
    case TaskSaved(n, ok) => FinishFacts(if ok then Saved(s) else s, n);
  }

  lemma CallConfig(s: State, step: Step)
    requires Enabled(s, step) && CallStep(step)
    ensures SameConfig(s, After(s, step))
  {
    hide Enabled, After, SameConfig;
    if step.ScheduleStartup? {
      StartupSteps(s, step);
    } else if step.CheckEnds? || step.BackgroundEnds? {
      EndSteps(s, step);
    } else {
      CallSteps(s, step);
    }
  }

  lemma OutsideConfig(s: State, step: Step)
    requires Enabled(s, step) && !WatcherStep(step) && !CallStep(step) && !TaskStep(step) && !step.EntryEdited? && !step.Reloads?
    ensures SameConfig(s, After(s, step))
  {
    hide ScheduleAll, Loadable, Lose, Reasons, NoChecks, MatchesEntry;
    match step
    case UnloadRefused(order) => ScheduleFacts(Reopen(s), order);
    case UnloadFails => LoseRest(Reopen(s));
    case _ =>
  }

  /** Only an edit, a revert's save and a new runtime touch the configuration. */
  lemma ConfigStays(s: State, step: Step)
    requires Enabled(s, step) && !step.EntryEdited? && !step.Reloads?
    requires !(step.TaskReturns? && step.setting == Stored && Reverting(s, step.n))
    ensures SameConfig(s, After(s, step))
  {
    hide Enabled, After, SameConfig, Reverting;
    if TaskStep(step) {
      TaskConfig(s, step);
    } else if WatcherStep(step) {
      WatchSteps(s, step);
    } else if CallStep(step) {
      CallConfig(s, step);
    } else {
      OutsideConfig(s, step);
    }
  }

  // ----- Definitions stay as they are read

  /** Every definition is one that an entry of its name could read as. */
  predicate AllRead(s: State) {
    forall p | p in s.definitions :: s.definitions[p].patchId == p && Sound(s.definitions[p], s.checks)
  }

  /** What a revert's save changes: automatic apply of its own patch, in the runtime and in the entry. */
  ghost predicate TurnsOff(s: State, t: State, p: Id) {
    && p in s.definitions && p in t.definitions && p in t.entry.patches && t.checks == s.checks
    && t.definitions.Keys == s.definitions.Keys && t.entry.patches.Keys == s.entry.patches.Keys + {p}
    && (forall q | q in s.definitions && q != p :: t.definitions[q] == s.definitions[q])
    && (forall q | q in s.entry.patches && q != p :: t.entry.patches[q] == s.entry.patches[q])
    && t.entry.retention == s.entry.retention && t.retention == s.retention
    && !t.definitions[p].autoApply && t.definitions[p].(autoApply := s.definitions[p].autoApply) == s.definitions[p]
    && FromMapping(p, t.entry.patches[p], t.checks) == Success(t.definitions[p])
  }

  lemma StoreTurnsOff(s: State, p: Id)
    requires p in s.definitions && AllRead(s)
    ensures TurnsOff(s, StoreSetting(s, p), p)
  {
    hide FromMapping, Sound, AsData;
    var d := s.definitions[p].(autoApply := false);
    assert Sound(d, s.checks) by { SameSound(s.definitions[p], d, s.checks); }
    SoundReads(d, s.checks);
  }

  lemma SameSound(d: PatchDefinition, e: PatchDefinition, checks: Checks)
    requires Sound(d, checks) && e == d.(autoApply := e.autoApply)
    ensures Sound(e, checks)
  {
    hide Filled, RelativePath, Below, SourceProblem, LowerHexDigest;
  }

  lemma TurnedConfig(s: State, t: State, u: State, p: Id)
    requires TurnsOff(s, t, p) && SameConfig(t, u)
    ensures TurnsOff(s, u, p)
  {
    hide FromMapping;
  }

  lemma ReturnTurnsOff(s: State, n: nat)
    requires Reverting(s, n) && AllRead(s)
    ensures TurnsOff(s, Return(s, n, Stored), s.tasks[n].id)
  {
    hide RecordOrRefresh, StoreSetting, Lose, Forget, Suppress, Finish, TurnsOff, AllRead, MetadataLost;
    var p, phase := s.tasks[n].id, s.tasks[n].phase;
    SettingKeepsTask(s, n);
    StoreTurnsOff(s, p);
    var r := RecordOrRefresh(StoreSetting(s, p), n, phase.result, phase.pending);
    RecordConfig(StoreSetting(s, p), n, phase.result, phase.pending);
    TurnedConfig(s, StoreSetting(s, p), r, p);
    LoseRest(r);
    TurnedConfig(s, r, Lose(r), p);
  }

  lemma OneIsRead(id: Id, entry: RawData, checks: Checks)
    requires FromMapping(id, entry, checks).Success?
    ensures FromMapping(id, entry, checks).value.patchId == id && Sound(FromMapping(id, entry, checks).value, checks)
  {
    hide FromMapping, Sound;
    ReadIsSound(id, entry, checks);
  }

  lemma ReloadConfig(s: State, loaded: bool)
    requires Loadable(s.entry, s.checks)
    ensures Reload(s, loaded).definitions == Loaded(s.entry, s.checks)
    ensures Reload(s, loaded).entry == s.entry && Reload(s, loaded).checks == s.checks
  {
    hide FromMapping, Loadable, Loaded, Restored, LostByReload, StillWatched;
  }

  lemma LoadedAreRead(s: State, t: State)
    requires Loadable(s.entry, s.checks) && t.definitions == Loaded(s.entry, s.checks) && t.checks == s.checks
    ensures AllRead(t)
  {
    hide FromMapping, Sound;
    forall p | p in t.definitions ensures t.definitions[p].patchId == p && Sound(t.definitions[p], t.checks) {
      OneIsRead(p, s.entry.patches[p], s.checks);
    }
  }

  lemma StillRead(s: State, t: State)
    requires AllRead(s) && SameConfig(s, t)
    ensures AllRead(t)
  {
    hide Sound;
  }

  lemma TurnedAreRead(s: State, t: State, p: Id)
    requires AllRead(s) && TurnsOff(s, t, p)
    ensures AllRead(t)
  {
    hide FromMapping, Sound;
    SameSound(s.definitions[p], t.definitions[p], s.checks);
  }

  lemma StepReads(s: State, step: Step)
    requires Enabled(s, step) && AllRead(s)
    ensures AllRead(After(s, step))
  {
    hide AllRead, TurnsOff, Reload, Loadable, Loaded, Return, Lose;
    if step.Reloads? {
      ReloadConfig(s, step.loaded);
      LoadedAreRead(s, After(s, step));
    } else if step.EntryEdited? {
      LoseRest(s.(entry := step.entry));
      EditedAreRead(s, After(s, step));
    } else if step.TaskReturns? && step.setting == Stored && Reverting(s, step.n) {
      ReturnTurnsOff(s, step.n);
      TurnedAreRead(s, After(s, step), s.tasks[step.n].id);
    } else {
      hide Enabled, After, Reverting;
      ConfigStays(s, step);
      StillRead(s, After(s, step));
    }
  }

  lemma EditedAreRead(s: State, t: State)
    requires AllRead(s) && t.definitions == s.definitions && t.checks == s.checks
    ensures AllRead(t)
  {
    hide Sound;
  }

  // ----- Automatic apply stays off

  /** Automatic apply is off in the runtime and in the saved entry. */
  predicate AutomaticOff(s: State, p: Id) {
    && p in s.definitions && !s.definitions[p].autoApply && p in s.entry.patches
    && FromMapping(p, s.entry.patches[p], s.checks).Success? && !FromMapping(p, s.entry.patches[p], s.checks).value.autoApply
  }

  lemma TurnedIsOff(s: State, t: State, q: Id, p: Id)
    requires TurnsOff(s, t, q) && (p == q || AutomaticOff(s, p))
    ensures AutomaticOff(t, p)
  {
    hide FromMapping;
  }

  lemma SameOff(s: State, t: State, p: Id)
    requires AutomaticOff(s, p) && SameConfig(s, t)
    ensures AutomaticOff(t, p)
  {
    hide FromMapping;
  }

  lemma ReloadedOff(s: State, t: State, p: Id)
    requires AutomaticOff(s, p) && Loadable(s.entry, s.checks)
    requires t.definitions == Loaded(s.entry, s.checks) && t.entry == s.entry && t.checks == s.checks
    ensures AutomaticOff(t, p)
  {
    hide FromMapping, Loadable;
  }

  lemma StepStaysOff(s: State, step: Step, p: Id)
    requires Enabled(s, step) && AllRead(s) && AutomaticOff(s, p) && !step.EntryEdited?
    ensures AutomaticOff(After(s, step), p)
  {
    hide AllRead, TurnsOff, AutomaticOff, Reload, Loadable, Loaded, Return;
    if step.Reloads? {
      ReloadConfig(s, step.loaded);
      ReloadedOff(s, After(s, step), p);
    } else if step.TaskReturns? && step.setting == Stored && Reverting(s, step.n) {
      ReturnTurnsOff(s, step.n);
      TurnedIsOff(s, After(s, step), s.tasks[step.n].id, p);
    } else {
      hide Enabled, After, Reverting;
      ConfigStays(s, step);
      SameOff(s, After(s, step), p);
    }
  }

  lemma {:induction false} RunReads(s: State, steps: seq<Step>, t: State)
    requires AllRead(s) && Leads(s, steps, t)
    ensures AllRead(t)
    decreases |steps|
  {
    hide AllRead, Enabled, After;
    if steps != [] {
      StepReads(s, steps[0]);
      RunReads(After(s, steps[0]), steps[1..], t);
    }
  }

  lemma {:induction false} RunStaysOff(s: State, steps: seq<Step>, t: State, p: Id)
    requires AllRead(s) && AutomaticOff(s, p) && Leads(s, steps, t) && forall step | step in steps :: !step.EntryEdited?
    ensures AutomaticOff(t, p)
    decreases |steps|
  {
    hide AllRead, AutomaticOff, Enabled, After;
    if steps != [] {
      assert steps[0] in steps;
      StepReads(s, steps[0]);
      StepStaysOff(s, steps[0], p);
      RunStaysOff(After(s, steps[0]), steps[1..], t, p);
    }
  }

  lemma InitialIsRead(s: State)
    requires Initial(s)
    ensures AllRead(s)
  {
    hide FromMapping, Restored, Loadable, AllRead;
    LoadedAreRead(s, s);
  }

  /**
   A revert turns automatic apply off for good. Once a revert that was not denied has saved its setting, the runtime
   and the saved entry of its patch have automatic apply off, and nothing else in either is changed. That lasts
   through every action, unload, close and reload until the entry is edited; so no reconcile of the patch that takes
   its turn meanwhile has anything to write, whatever it finds.
   */
  lemma RevertTurnsAutomaticOff(s: State, before: seq<Step>, t: State, n: nat, later: seq<Step>, u: State)
    requires Initial(s) && Leads(s, before, t) && Reverting(t, n) && Enabled(t, TaskReturns(n, Stored))
    requires Leads(After(t, TaskReturns(n, Stored)), later, u) && forall step | step in later :: !step.EntryEdited?
    ensures TurnsOff(t, After(t, TaskReturns(n, Stored)), t.tasks[n].id)
    ensures AutomaticOff(u, t.tasks[n].id)
    ensures forall k, inspection | k in u.tasks && u.tasks[k].id == t.tasks[n].id && u.tasks[k].phase.Working? ::
              OutputForAction(u.tasks[k].phase.definition, inspection, Reconcile).None?
  {
    hide Initial, Leads, Inv, TurnsOff, AllRead, Return;
    var v, p := After(t, TaskReturns(n, Stored)), t.tasks[n].id;
    InitialIsRead(s);
    RunReads(s, before, t);
    ReturnTurnsOff(t, n);
    StepReads(t, TaskReturns(n, Stored));
    hide Enabled, After, Reverting;
    TurnedIsOff(t, v, p, p);
    RunStaysOff(v, later, u, p);
    RunIsSafe(s, before, t);
    StepKeeps(t, TaskReturns(n, Stored));
    RunKeeps(v, later, u);
    forall k, inspection | k in u.tasks && u.tasks[k].id == p && u.tasks[k].phase.Working?
      ensures OutputForAction(u.tasks[k].phase.definition, inspection, Reconcile).None?
    {
      WorksWithOwn(u, k);
    }
  }

  /**
   After a revert that was not denied its patch is suppressed exactly if its setting was refused, or if saving it
   broke off and the patch was suppressed before; no other patch is concerned.
   */
  lemma RevertSuppressesIff(s: State, n: nat, setting: Setting, p: Id)
    requires Reverting(s, n)
    ensures p in Return(s, n, setting).suppressed <==>
            if p != s.tasks[n].id then p in s.suppressed
            else setting == NotStored || (setting == Broke && p in s.suppressed)
  {
    hide RecordOrRefresh, Finish, MetadataLost, AsData, Lose, Reconciles;
    var q, phase := s.tasks[n].id, s.tasks[n].phase;
    SettingKeepsTask(s, n);
    ForgetsNoTask(s, n);
    match setting
    case Stored =>
      RecordTasks(StoreSetting(s, q), n, phase.result, phase.pending, p);
      LoseTasks(RecordOrRefresh(StoreSetting(s, q), n, phase.result, phase.pending), p);
    case NotStored => RecordTasks(Forget(Suppress(s, q), q), n, MetadataLost(phase.result), phase.pending, p);
    case Broke =>
      FinishFacts(s, n);
      FinishFacts(Forget(s, q), n);
  }

  lemma WorksWithOwn(s: State, n: nat)
    requires Inv(s) && n in s.tasks && s.tasks[n].phase.Working?
    ensures s.tasks[n].id in s.definitions && s.tasks[n].phase.definition == s.definitions[s.tasks[n].id]
  {
    hide WatchOk, LockOk, NumberedBelow, SuppressedOk, DurableOk, CloseOk, EventsOk;
  }
}
