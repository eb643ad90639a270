/**
 The runtime as a state machine: what the event loop does between two awaits is one step.

 One runtime is live at a time. The environment chooses when tasks, timers, observer threads, the
 configuration and Home Assistant itself move. `Facts` is bookkeeping no code reads: what is true of the disk
 and of file events, as opposed to what the runtime has noted about them.
 */
module RuntimeSteps {
  import opened Models
  import opened Definitions
  import opened Reconciling

  type Id = string

  datatype Entry = Entry(patches: Entries, retention: int)

  /** The operational state of one patch. */
  datatype Patch = Patch(status: Status, lastError: Option<Reason>, available: bool, recheck: bool)

  /** How far an admitted action has come; from `Working` on it holds the lock. */
  datatype Phase =
    | Waiting
    | Working(definition: PatchDefinition, pending: bool)
    | Written(definition: PatchDefinition, pending: bool, result: ReconcileResult)
    | Refreshing(pending: bool, result: ReconcileResult)
    | Saving

  datatype Task = Task(id: Id, action: Action, phase: Phase)

  /**
   A task that asks for a reconcile and then waits for the admitted action. A check that is over before the watcher
   has stored it is stale: nothing removes it.
   */
  datatype Call = Created | Awaiting(task: nat) | Stale

  datatype Background = Background(id: Id, call: Call)

  datatype Holder = ByTask(task: nat) | ByConfiguration | ByReader | ByClose

  datatype Watch = Watch(pending: set<Id>, running: map<Id, Call>, dirty: set<Id>, closed: bool)

  datatype Stage = Starting | Open | StoppingWatch | Draining(left: set<nat>) | SavingStates | Closed

  /**
   Patches whose rename is not known durable; those whose obligation the runtime lost sight of; those with a file
   event no action followed yet, under this runtime or an earlier one; those of them that were left behind; when
   suppression began; whether an unload not carried out reopened admission behind a close.
   */
  datatype Facts = Facts(unsynced: set<Id>, forgotten: set<Id>, unseen: set<Id>, missed: set<Id>,
                         suppressedAt: map<Id, nat>, reopened: bool)

  datatype State = State(
    checks: Checks,
    entry: Entry,
    definitions: map<Id, PatchDefinition>,
    retention: int,
    states: map<Id, Patch>,
    suppressed: set<Id>,
    busy: set<Id>,
    tasks: map<nat, Task>,
    background: map<nat, Background>,
    next: nat,
    lock: Option<Holder>,
    closing: bool,
    stage: Stage,
    watch: Watch,
    saved: map<Id, Option<Reason>>,
    facts: Facts)

  // ----- Admission

  ghost predicate SameConfig(s: State, t: State) {
    t.definitions == s.definitions && t.entry == s.entry && t.retention == s.retention && t.checks == s.checks
  }

  predicate MatchesEntry(s: State) {
    Matches(s.entry.patches, s.definitions, s.checks) && s.entry.retention == s.retention
  }

  function Invalidity(s: State, p: Id): Option<Reason> {
    if p !in s.definitions || p !in s.entry.patches then Some(UnknownPatch)
    else if Get(s.entry.patches[p], "enabled", Bool(true)) != Bool(true) then Some(DisabledPatch)
    else if !MatchesEntry(s) then Some(RuntimeReloading)
    else None
  }

  function Refusal(s: State, p: Id, action: Action): Option<Reason> {
    if s.closing then Some(RuntimeClosing)
    else if Invalidity(s, p).Some? then Invalidity(s, p)
    else if action == Reconcile && p in s.suppressed then Some(RevertMetadataUnavailable)
    else None
  }

  function Admit(s: State, p: Id, action: Action): State {
    s.(tasks := s.tasks[s.next := Task(p, action, Waiting)], next := s.next + 1)
  }

  function Schedule(s: State, p: Id): State {
    if s.closing || p in s.suppressed then s
    else s.(background := s.background[s.next := Background(p, Created)], next := s.next + 1)
  }

  function ScheduleAll(s: State, order: seq<Id>): State
    decreases |order|
  {
    if order == [] then s else ScheduleAll(Schedule(s, order[0]), order[1..])
  }

  /** The event is answered: an action on the patch begins. */
  function Seen(s: State, p: Id): State {
    s.(facts := s.facts.(unseen := s.facts.unseen - {p}))
  }

  function Noticed(s: State, p: Id): State {
    if p in s.suppressed then s
    else s.(facts := s.facts.(unseen := s.facts.unseen + {p}))
  }

  // ----- Events under way

  /** A stale check makes the watcher mark the patch for ever, and never check it. */
  predicate Deaf(watch: Watch, p: Id) {
    p in watch.running && watch.running[p].Stale?
  }

  predicate WatchCovers(watch: Watch, p: Id) {
    !Deaf(watch, p) && (p in watch.pending || p in watch.dirty || (p in watch.running && watch.running[p].Created?))
  }

  predicate BackgroundCovers(background: map<nat, Background>, p: Id) {
    exists n :: n in background && background[n] == Background(p, Created)
  }

  predicate TaskCovers(tasks: map<nat, Task>, p: Id) {
    exists n :: n in tasks && tasks[n].id == p && tasks[n].phase.Waiting?
  }

  /** Something is under way that will ask for an action on the patch, or have one take the lock. */
  predicate Covered(s: State, p: Id) {
    WatchCovers(s.watch, p) || BackgroundCovers(s.background, p) || TaskCovers(s.tasks, p)
  }

  /** The runtime is in service: it admits and watches, and holds what its entry says. */
  predicate Current(s: State) {
    s.stage.Open? && !s.closing && !s.watch.closed && MatchesEntry(s)
  }

  /** In service, with an event that nothing under way will answer. */
  predicate Lost(s: State, p: Id) {
    Current(s) && p in s.facts.unseen && !Covered(s, p)
  }

  /** Note what is lost; nothing but the facts changes. */
  function Lose(s: State): State {
    if Current(s) then s.(facts := s.facts.(missed := s.facts.missed + set p | p in s.facts.unseen && !Covered(s, p)))
    else s
  }

  // ----- The watcher

  /** A check is asked for: after the quiet time, or after the action that is under way. */
  function Postpone(watch: Watch, p: Id, busy: bool): Watch {
    if p in watch.running || busy then watch.(pending := watch.pending - {p}, dirty := watch.dirty + {p})
    else watch.(pending := watch.pending + {p})
  }

  function Debounced(watch: Watch, p: Id, busy: bool, suppressed: bool): Watch {
    if watch.closed || suppressed then watch else Postpone(watch, p, busy)
  }

  /** The end of a check or an action: what was marked meanwhile is asked for again. */
  function Completed(watch: Watch, p: Id, busy: bool, suppressed: bool): Watch {
    if p !in watch.running && p in watch.dirty
    then Debounced(watch.(dirty := watch.dirty - {p}), p, busy, suppressed)
    else watch
  }

  function Debounce(s: State, p: Id): State {
    s.(watch := Debounced(s.watch, p, p in s.busy, p in s.suppressed))
  }

  function ActionComplete(s: State, p: Id): State {
    s.(watch := Completed(s.watch, p, p in s.busy, p in s.suppressed))
  }

  function HandleEvent(s: State, p: Id): State {
    Lose(if s.watch.closed || s.closing then Noticed(s, p) else Debounce(Noticed(s, p), p))
  }

  function Expire(watch: Watch, p: Id, closing: bool, busy: bool, refused: bool): Watch {
    var idle := watch.(pending := watch.pending - {p});
    if idle.closed || closing then idle
    else if busy then idle.(dirty := idle.dirty + {p})
    else idle.(running := idle.running[p := if refused then Stale else Created])
  }

  /** The quiet time is over. A check that starts at once and is refused ends before it is stored. */
  function Fire(s: State, p: Id, atOnce: bool): State {
    s.(watch := Expire(s.watch, p, s.closing, p in s.busy, atOnce && Refusal(s, p, Reconcile).Some?))
  }

  function CheckDone(s: State, p: Id): State {
    ActionComplete(s.(watch := s.watch.(running := s.watch.running - {p})), p)
  }

  function StartCheck(s: State, p: Id): State {
    if Refusal(s, p, Reconcile).Some? then CheckDone(s, p)
    else
      var admitted := Admit(s, p, Reconcile);
      admitted.(watch := s.watch.(running := s.watch.running[p := Awaiting(s.next)]))
  }

  function StartBackground(s: State, n: nat): State
    requires n in s.background
  {
    var p := s.background[n].id;
    if Refusal(s, p, Reconcile).Some? then s.(background := s.background - {n})
    else Admit(s, p, Reconcile).(background := s.background[n := Background(p, Awaiting(s.next))])
  }

  function Available(s: State, p: Id, available: bool): State
    requires p in s.states
  {
    var was := s.states[p];
    s.(states := s.states[p := was.(available := available, recheck := was.recheck || !available)])
  }

  /** A denied root; an outstanding directory sync stays on record. */
  function Denied(s: State, p: Id, reason: Reason): State
    requires p in s.states
  {
    var was := s.states[p];
    var kept := if was.lastError == Some(DurabilityUnconfirmed) then was.lastError else Some(reason);
    s.(states := s.states[p := Patch(SecurityError, kept, false, true)])
  }

  function Recover(s: State, p: Id): State
    requires p in s.states
  {
    Lose(Debounce(Noticed(Available(s, p, true), p), p))
  }

  // ----- One admitted action

  /** The end of an action, however it ends. */
  function Finish(s: State, n: nat): State
    requires n in s.tasks
  {
    var p := s.tasks[n].id;
    ActionComplete(s.(tasks := s.tasks - {n}, busy := s.busy - {p},
                      lock := if s.lock == Some(ByTask(n)) then None else s.lock), p)
  }

  /** The tasks once one of them entered another phase. */
  function Moved(tasks: map<nat, Task>, n: nat, phase: Phase): map<nat, Task>
    requires n in tasks
  {
    tasks[n := tasks[n].(phase := phase)]
  }

  function InPhase(s: State, n: nat, phase: Phase): State
    requires n in s.tasks
  {
    s.(tasks := Moved(s.tasks, n, phase))
  }

  predicate HasTask(s: State, n: nat) {
    n in s.tasks && s.tasks[n].id in s.states && s.tasks[n].id in s.definitions
  }

  /** The action takes the lock, with the definition and the owed sync as they are now. */
  function Begin(s: State, n: nat): State
    requires HasTask(s, n)
  {
    var p := s.tasks[n].id;
    var pending := s.states[p].lastError == Some(DurabilityUnconfirmed);
    InPhase(s, n, Working(s.definitions[p], pending)).(lock := Some(ByTask(n)), busy := s.busy + {p})
  }

  /** It is the turn of the action: the configuration may have changed while it waited. */
  function Start(s: State, n: nat): State
    requires HasTask(s, n)
  {
    var p := s.tasks[n].id;
    if Invalidity(s, p).Some? || !s.definitions[p].enabled then Finish(s, n) else Begin(Seen(s, p), n)
  }

  /** What a policy or source error reported before the reconciler ran becomes. */
  function SourceFailure(error: PatchError, pending: bool): ReconcileResult {
    var noted := if pending && error.status != SecurityError then PatchError(DurabilityUnconfirmed, ApplyError) else error;
    ReconcileResult(PatchInspection(noted.status, Some(noted.reason), None, None), "", None, false, Some(noted.reason))
  }

  /** The worker thread is done; the disk is as it left it. */
  function Write(s: State, n: nat, result: ReconcileResult, synced: bool): State
    requires n in s.tasks && s.tasks[n].phase.Working?
  {
    var p, phase := s.tasks[n].id, s.tasks[n].phase;
    InPhase(s, n, Written(phase.definition, phase.pending, result))
    .(facts := if synced then s.facts.(unsynced := s.facts.unsynced - {p}, forgotten := s.facts.forgotten - {p})
               else s.facts.(unsynced := s.facts.unsynced + {p}))
  }

  /** How saving a revert's changed setting goes: stored, refused with a handled error, or failing otherwise. */
  datatype Setting = Stored | NotStored | Broke

  function MetadataLost(result: ReconcileResult): ReconcileResult {
    result.(inspection := PatchInspection(ApplyError, Some(RevertMetadataUnavailable), None, None),
            serviceError := Some(RevertMetadataUnavailable))
  }

  /** A successful save of automatic apply turned off. */
  function DisableAutoApply(s: State, p: Id): State
    requires p in s.definitions
  {
    var d := s.definitions[p].(autoApply := false);
    s.(definitions := s.definitions[p := d], entry := s.entry.(patches := s.entry.patches[p := AsData(d)]))
  }

  /** The setting is saved, and reconciles may come again. */
  function StoreSetting(s: State, p: Id): State
    requires p in s.definitions
  {
    DisableAutoApply(s, p).(suppressed := s.suppressed - {p})
  }

  /** From now on nothing reconciles the patch; reconciles admitted earlier keep their place. */
  function Suppress(s: State, p: Id): State {
    s.(suppressed := s.suppressed + {p},
       facts := s.facts.(suppressedAt := if p in s.suppressed then s.facts.suppressedAt else s.facts.suppressedAt[p := s.next],
                         unseen := s.facts.unseen - {p}))
  }

  /** The obligation is lost sight of, if there is one that is not on record. */
  function Forget(s: State, p: Id): State {
    if p in s.facts.unsynced then s.(facts := s.facts.(forgotten := s.facts.forgotten + {p})) else s
  }

  predicate DeniedPath(result: ReconcileResult) {
    result.inspection.status == SecurityError && result.inspection.reason == Some(HaPathNotAllowed)
  }

  /** A denied path whose root the watcher already reported missing is not noted again. */
  function Noted(was: Patch, result: ReconcileResult, pending: bool): Patch {
    var error := if pending && result.inspection.status == SecurityError then Some(DurabilityUnconfirmed)
                 else result.inspection.reason;
    if DeniedPath(result) && !was.available && was.recheck then was
    else Patch(result.inspection.status, error, was.available, !was.available && was.recheck)
  }

  function Record(s: State, n: nat, result: ReconcileResult, pending: bool): State
    requires n in s.tasks && s.tasks[n].id in s.states
  {
    var p := s.tasks[n].id;
    InPhase(s, n, Saving).(states := s.states[p := Noted(s.states[p], result, pending)])
  }

  function RecordOrRefresh(s: State, n: nat, result: ReconcileResult, pending: bool): State
    requires n in s.tasks && s.tasks[n].id in s.states
  {
    if DeniedPath(result) then InPhase(s, n, Refreshing(pending, result)) else Record(s, n, result, pending)
  }

  /** The result is back on the event loop; a revert saves its setting. */
  function Return(s: State, n: nat, setting: Setting): State
    requires HasTask(s, n) && s.tasks[n].phase.Written?
  {
    var p, phase := s.tasks[n].id, s.tasks[n].phase;
    if s.tasks[n].action != Revert || phase.result.inspection.status == SecurityError then
      RecordOrRefresh(s, n, phase.result, phase.pending)
    else match setting
      case Stored => Lose(RecordOrRefresh(StoreSetting(s, p), n, phase.result, phase.pending))
      case NotStored => RecordOrRefresh(Forget(Suppress(s, p), p), n, MetadataLost(phase.result), phase.pending)
      case Broke =>
        Finish(if s.states[p].lastError == Some(DurabilityUnconfirmed) then s else Forget(s, p), n)
  }

  // ----- Unload, close, reload

  function Reasons(s: State): map<Id, Option<Reason>> {
    map p | p in s.states :: s.states[p].lastError
  }

  function Saved(s: State): State {
    s.(saved := Reasons(s))
  }

  function Reopen(s: State): State {
    s.(closing := false, facts := s.facts.(reopened := s.facts.reopened || s.watch.closed))
  }

  /** The patches to look at once the watcher is up are scheduled, and the runtime is set up. */
  function Startup(s: State, order: seq<Id>): State {
    Lose(ScheduleAll(s, order).(stage := Open))
  }

  function CloseBegin(s: State): State {
    s.(closing := true, stage := StoppingWatch, watch := s.watch.(pending := {}, dirty := {}, closed := true))
  }

  function CloseSaved(s: State, ok: bool): State {
    if ok then Saved(s).(lock := None, stage := Closed) else s.(lock := None, stage := Open)
  }

  predicate Gate(reason: Option<Reason>) {
    reason == Some(DurabilityUnconfirmed) || reason == Some(RevertMetadataUnavailable)
  }

  /** A patch state at load: only the two safety gates survive. */
  function Restored(d: PatchDefinition, saved: Option<Reason>): Patch {
    var status := if d.enabled then Unknown else Disabled;
    var error := if Gate(saved) then saved else None;
    if d.sourceType == "url" && d.sourceSha256.None? && error.None? then
      Patch(if d.enabled then SourceError else status, Some(SourceHashRequired), false, false)
    else Patch(if error.Some? && d.enabled then ApplyError else status, error, false, false)
  }

  function Find(saved: map<Id, Option<Reason>>, p: Id): Option<Reason> {
    if p in saved then saved[p] else None
  }

  /** Whether a runtime can be set up for this entry. */
  predicate Loadable(entry: Entry, checks: Checks) {
    && (forall p | p in entry.patches :: FromMapping(p, entry.patches[p], checks).Success?)
    && (forall p, q | p in entry.patches && q in entry.patches && p != q ::
          FromMapping(p, entry.patches[p], checks).value.targetPath != FromMapping(q, entry.patches[q], checks).value.targetPath)
    && 1 <= entry.retention <= 100
  }

  function Loaded(entry: Entry, checks: Checks): map<Id, PatchDefinition>
    requires Loadable(entry, checks)
  {
    map p | p in entry.patches :: FromMapping(p, entry.patches[p], checks).value
  }

  /** A new runtime for the entry, with the reasons the store returns, and events that are still unanswered. */
  function Boot(entry: Entry, checks: Checks, stored: map<Id, Option<Reason>>, saved: map<Id, Option<Reason>>, next: nat,
                unsynced: set<Id>, forgotten: set<Id>, unseen: set<Id>): State
    requires Loadable(entry, checks)
  {
    var definitions := Loaded(entry, checks);
    var states := map p | p in definitions :: Restored(definitions[p], Find(stored, p));
    var suppressed := set p | p in states && states[p].lastError == Some(RevertMetadataUnavailable);
    State(checks, entry, definitions, entry.retention, states, suppressed, {}, map[], map[], next, None, false, Starting,
          Watch({}, map[], {}, false), saved,
          Facts(unsynced, forgotten, unseen, {}, map p | p in suppressed :: next, false))
  }

  /** Patches whose obligation a reload cannot carry over: gone, given another target, or not read back. */
  function LostByReload(s: State, loaded: bool): set<Id>
    requires Loadable(s.entry, s.checks)
  {
    var definitions := Loaded(s.entry, s.checks);
    set p | p in s.facts.unsynced &&
            (!loaded || p !in definitions || p !in s.definitions || definitions[p].targetPath != s.definitions[p].targetPath)
  }

  function StoredReasons(s: State, loaded: bool): map<Id, Option<Reason>> {
    if loaded then s.saved else map[]
  }

  /** The new runtime has the patch enabled, for the same target, and not suppressed. */
  predicate StillWatched(s: State, loaded: bool, p: Id)
    requires Loadable(s.entry, s.checks)
  {
    var definitions := Loaded(s.entry, s.checks);
    && p in definitions && definitions[p].enabled
    && p in s.definitions && definitions[p].targetPath == s.definitions[p].targetPath
    && Find(StoredReasons(s, loaded), p) != Some(RevertMetadataUnavailable)
  }

  function Reload(s: State, loaded: bool): State
    requires Loadable(s.entry, s.checks)
  {
    Boot(s.entry, s.checks, StoredReasons(s, loaded), s.saved, s.next, s.facts.unsynced,
         s.facts.forgotten + LostByReload(s, loaded), set p | p in s.facts.unseen && StillWatched(s, loaded, p))
  }

  // ----- Steps

  datatype Step =
    | Request(id: Id, action: Action)
    | ScheduleStartup(order: seq<Id>)
    | BackgroundStarts(n: nat) | BackgroundEnds(n: nat)
    | FileEvent(id: Id) | RootRecovered(id: Id) | RootAvailable(id: Id, available: bool) | RootDenied(id: Id, reason: Reason)
    | TimerFires(id: Id, atOnce: bool) | CheckStarts(id: Id) | CheckEnds(id: Id)
    | TaskStarts(n: nat) | TaskWrote(n: nat, result: ReconcileResult, synced: bool) | TaskCrashed(n: nat)
    | TaskReturns(n: nat, setting: Setting) | TaskRefreshed(n: nat) | TaskSaved(n: nat, ok: bool)
    | LockTaken(holder: Holder) | LockReleased | EntryEdited(entry: Entry)
    | UnloadBegins | UnloadRefused(order: seq<Id>) | UnloadFails
    | CloseBegins | CloseDrains | CloseLocks | CloseSaves(ok: bool) | Reloads(loaded: bool)

  predicate EnabledPatch(s: State, p: Id) {
    p in s.definitions && p in s.states && s.definitions[p].enabled
  }

  /** All that is left in the watcher are stale checks, which are over. */
  predicate NoChecks(watch: Watch) {
    forall p | p in watch.running :: watch.running[p].Stale?
  }

  /** The watcher still follows its roots. */
  predicate Refreshable(s: State) {
    !s.watch.closed || s.stage.StoppingWatch?
  }

  /** The contract of a run, given what is owed; a run that was not told about an owed sync promises nothing. */
  predicate Reported(s: State, n: nat, result: ReconcileResult, synced: bool)
    requires HasTask(s, n) && s.tasks[n].phase.Working?
  {
    var owed := s.tasks[n].id in s.facts.unsynced;
    s.tasks[n].phase.pending || !owed ==> Reports(s.tasks[n].phase.pending, !owed, result, synced)
  }

  predicate Enabled(s: State, step: Step) {
    match step
    case Request(_, _) => true
    case ScheduleStartup(order) =>
      && s.stage.Starting?
      && (forall p | p in order :: EnabledPatch(s, p) && s.definitions[p].reconcileOnStartup)
      && (forall p | p in s.definitions && s.definitions[p].enabled && s.definitions[p].reconcileOnStartup :: p in order)
    case BackgroundStarts(n) => n in s.background && s.background[n].call.Created?
    case BackgroundEnds(n) => n in s.background && s.background[n].call.Awaiting? && s.background[n].call.task !in s.tasks
    case FileEvent(p) => EnabledPatch(s, p)
    case RootRecovered(p) => EnabledPatch(s, p) && Refreshable(s)
    case RootAvailable(p, _) => EnabledPatch(s, p) && Refreshable(s)
    case RootDenied(p, reason) => EnabledPatch(s, p) && Refreshable(s) && !Gate(Some(reason))
    case TimerFires(p, _) => p in s.watch.pending
    case CheckStarts(p) => p in s.watch.running && s.watch.running[p].Created?
    case CheckEnds(p) => p in s.watch.running && s.watch.running[p].Awaiting? && s.watch.running[p].task !in s.tasks
    case TaskStarts(n) => HasTask(s, n) && s.tasks[n].phase.Waiting? && s.lock.None?
    case TaskWrote(n, result, synced) => HasTask(s, n) && s.tasks[n].phase.Working? && Reported(s, n, result, synced)
    case TaskCrashed(n) => HasTask(s, n) && s.tasks[n].phase.Working?
    case TaskReturns(n, setting) =>
      HasTask(s, n) && s.tasks[n].phase.Written? && (setting != Broke ==> s.tasks[n].id in s.entry.patches)
    case TaskRefreshed(n) => HasTask(s, n) && s.tasks[n].phase.Refreshing?
    case TaskSaved(n, _) => HasTask(s, n) && s.tasks[n].phase.Saving?
    case LockTaken(holder) => s.lock.None? && (holder == ByReader || (holder == ByConfiguration && !s.closing && MatchesEntry(s)))
    case LockReleased => s.lock == Some(ByReader) || s.lock == Some(ByConfiguration)
    case EntryEdited(_) => true
    case UnloadBegins => s.stage.Open?
    case UnloadRefused(order) => 
      && s.closing && (forall p | p in order :: EnabledPatch(s, p))
      && (forall p | p in s.definitions && s.definitions[p].enabled :: p in order)
    case UnloadFails => s.closing
    case CloseBegins => s.stage.Starting? || s.stage.Open?
    case CloseDrains => s.stage.StoppingWatch? && NoChecks(s.watch)
    case CloseLocks => s.stage.Draining? && s.stage.left !! s.tasks.Keys + s.background.Keys && s.lock.None?
    case CloseSaves(_) => s.stage.SavingStates? && s.lock == Some(ByClose)
    case Reloads(_) => s.stage.Closed? && !s.facts.reopened && s.lock.None? && Loadable(s.entry, s.checks)
  }

  function After(s: State, step: Step): State
    requires Enabled(s, step)
  {
    match step
    case Request(p, action) => if Refusal(s, p, action).Some? then s else Admit(s, p, action)
    case ScheduleStartup(order) => Startup(s, order)
    case BackgroundStarts(n) => StartBackground(s, n)
    case BackgroundEnds(n) => s.(background := s.background - {n})
    case FileEvent(p) => HandleEvent(s, p)
    case RootRecovered(p) => Recover(s, p)
    case RootAvailable(p, available) => Available(s, p, available)
    case RootDenied(p, reason) => Denied(s, p, reason)
    case TimerFires(p, atOnce) => Fire(s, p, atOnce)
    case CheckStarts(p) => StartCheck(s, p)
    case CheckEnds(p) => CheckDone(s, p)
    case TaskStarts(n) => Start(s, n)
    case TaskWrote(n, result, synced) => Write(s, n, result, synced)
    case TaskCrashed(n) => Finish(s, n)
    case TaskReturns(n, setting) => Return(s, n, setting)
    case TaskRefreshed(n) => Record(s, n, s.tasks[n].phase.result, s.tasks[n].phase.pending)
    case TaskSaved(n, ok) => Finish(if ok then Saved(s) else s, n)
    case LockTaken(holder) => s.(lock := Some(holder))
    case LockReleased => s.(lock := None)
    case EntryEdited(entry) => Lose(s.(entry := entry))
    case UnloadBegins => s.(closing := true)
    case UnloadRefused(order) => ScheduleAll(Reopen(s), order)
    case UnloadFails => Lose(Reopen(s))
    case CloseBegins => CloseBegin(s)
    case CloseDrains => s.(stage := Draining(s.tasks.Keys + s.background.Keys))
    case CloseLocks => s.(lock := Some(ByClose), stage := SavingStates)
    case CloseSaves(ok) => CloseSaved(s, ok)
    case Reloads(loaded) => Reload(s, loaded)
  }

  predicate WatcherStep(step: Step) {
    step.FileEvent? || step.RootRecovered? || step.RootAvailable? || step.RootDenied? || step.TimerFires?
  }

  predicate CallStep(step: Step) {
    step.Request? || step.CheckStarts? || step.CheckEnds? || step.BackgroundStarts? || step.BackgroundEnds? || step.ScheduleStartup?
  }

  predicate TaskStep(step: Step) {
    step.TaskStarts? || step.TaskWrote? || step.TaskCrashed? || step.TaskReturns? || step.TaskRefreshed? || step.TaskSaved?
  }

  /** A new runtime with nothing owed. */
  ghost predicate Initial(s: State) {
    Loadable(s.entry, s.checks) && s == Boot(s.entry, s.checks, s.saved, s.saved, s.next, {}, {}, {})
  }

  /** These steps can be taken one after the other from s, and end in t. */
  ghost predicate Leads(s: State, steps: seq<Step>, t: State)
    decreases |steps|
  {
    if steps == [] then s == t else Enabled(s, steps[0]) && Leads(After(s, steps[0]), steps[1..], t)
  }
}
