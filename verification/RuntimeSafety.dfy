/**
 What holds in every state of every run of the runtime.
 */
module RuntimeSafety {
  import opened Models
  import opened Definitions
  import opened Reconciling
  import opened RuntimeSteps

  // ----- The invariant, part by part

  /** A patch is waiting for its timer, being checked, or marked for another check: never two of the first two. */
  predicate WatchOk(watch: Watch, busy: set<Id>, ids: set<Id>) {
    && (forall q | q in watch.pending :: q in ids && q !in watch.running && q !in watch.dirty)
    && (forall q | q in watch.dirty :: q in ids && (q in watch.running || q in busy))
    && (forall q | q in watch.running :: q in ids)
    && (watch.closed ==> watch.pending == {} && watch.dirty == {})
  }

  function BusyWith(tasks: map<nat, Task>, lock: Option<Holder>): set<Id> {
    if lock.Some? && lock.value.ByTask? && lock.value.task in tasks then {tasks[lock.value.task].id} else {}
  }

  /** Exactly one admitted action is past the lock, and only while it holds it. */
  predicate LockOk(tasks: map<nat, Task>, lock: Option<Holder>, busy: set<Id>) {
    && (forall n | n in tasks :: tasks[n].phase.Waiting? <==> lock != Some(ByTask(n)))
    && (lock.Some? && lock.value.ByTask? ==> lock.value.task in tasks)
    && busy == BusyWith(tasks, lock)
  }

  predicate NumberedBelow(tasks: map<nat, Task>, background: map<nat, Background>, next: nat) {
    (forall n | n in tasks :: n < next) && (forall n | n in background :: n < next)
  }

  /** An action works with the definition the runtime holds. */
  predicate ConfigOk(definitions: map<Id, PatchDefinition>, states: map<Id, Patch>, tasks: map<nat, Task>) {
    && states.Keys == definitions.Keys
    && (forall n | n in tasks :: tasks[n].id in definitions)
    && (forall n | n in tasks && (tasks[n].phase.Working? || tasks[n].phase.Written?) ::
          tasks[n].phase.definition == definitions[tasks[n].id] && tasks[n].phase.definition.enabled)
  }

  /** The reconciles of a suppressed patch are those admitted before its suppression. */
  predicate SuppressedOk(tasks: map<nat, Task>, suppressed: set<Id>, since: map<Id, nat>) {
    && suppressed <= since.Keys
    && forall n | n in tasks && tasks[n].action == Reconcile && tasks[n].id in suppressed :: n < since[tasks[n].id]
  }

  /** Only enabled patches that are not suppressed are owed an action. */
  predicate EventsHeld(s: State) {
    && s.facts.unseen !! s.suppressed
    && (forall p | p in s.facts.unseen :: p in s.definitions && s.definitions[p].enabled)
  }

  /** In service, every event not answered yet will lead to another action, or is known to be left behind. */
  predicate EventsOk(s: State) {
    && EventsHeld(s)
    && (Current(s) ==> forall p | p in s.facts.unseen && p !in s.facts.missed :: Covered(s, p))
  }

  predicate OnRecord(states: map<Id, Patch>, p: Id) {
    p in states && states[p].lastError == Some(DurabilityUnconfirmed)
  }

  predicate SaysUnconfirmed(result: ReconcileResult) {
    result.inspection.status == ApplyError && result.inspection.reason == Some(DurabilityUnconfirmed)
  }

  /** The action holding the lock has the unconfirmed rename in its result. */
  predicate InHand(tasks: map<nat, Task>, p: Id) {
    exists n :: n in tasks && tasks[n].id == p && tasks[n].phase.Written? && SaysUnconfirmed(tasks[n].phase.result)
  }

  predicate TaskDurable(t: Task, states: map<Id, Patch>, owed: set<Id>) {
    match t.phase
    case Waiting => true
    case Working(_, pending) => (pending ==> OnRecord(states, t.id)) && (t.id in owed ==> pending)
    case Written(_, pending, result) =>
      && (pending ==> OnRecord(states, t.id))
      && (t.id in owed ==> SaysUnconfirmed(result) || (result.inspection.status == SecurityError && pending))
    case Refreshing(pending, result) =>
      DeniedPath(result) && (pending ==> OnRecord(states, t.id)) && (t.id in owed ==> pending)
    case Saving => true
  }

  /** An owed sync is on record, or about to be recorded. */
  predicate DurableOk(tasks: map<nat, Task>, states: map<Id, Patch>, owed: set<Id>) {
    && (forall p | p in owed :: p in states && (OnRecord(states, p) || InHand(tasks, p)))
    && (forall n | n in tasks :: TaskDurable(tasks[n], states, owed))
  }

  function Owing(facts: Facts): set<Id> {
    facts.unsynced - facts.forgotten
  }

  predicate Idle(s: State) {
    NoChecks(s.watch) && s.tasks == map[] && s.background == map[]
  }

  /** What a close has drained stays drained, unless an unload not carried out reopened admission behind it. */
  predicate CloseOk(s: State) {
    && (s.stage.Starting? ==> !s.closing && !s.watch.closed && !s.facts.reopened)
    && (!s.stage.Starting? && !s.stage.Open? ==> s.watch.closed)
    && (s.facts.reopened ==> s.watch.closed)
    && (!s.facts.reopened ==>
          && (s.watch.closed ==> s.closing)
          && (s.stage.Draining? ==> NoChecks(s.watch) && s.tasks.Keys + s.background.Keys <= s.stage.left)
          && (s.stage.SavingStates? || s.stage.Closed? ==> Idle(s))
          && (s.stage.Closed? ==> s.saved == Reasons(s)))
  }

  predicate Core(s: State) {
    && WatchOk(s.watch, s.busy, s.definitions.Keys)
    && LockOk(s.tasks, s.lock, s.busy)
    && NumberedBelow(s.tasks, s.background, s.next)
    && ConfigOk(s.definitions, s.states, s.tasks)
    && SuppressedOk(s.tasks, s.suppressed, s.facts.suppressedAt)
    && DurableOk(s.tasks, s.states, Owing(s.facts)) && s.facts.forgotten <= s.facts.unsynced
    && CloseOk(s)
  }

  predicate Inv(s: State) {
    Core(s) && EventsOk(s)
  }

  // ----- The watcher's moves

  lemma DebouncedKeeps(watch: Watch, busy: set<Id>, ids: set<Id>, p: Id, suppressed: bool)
    requires WatchOk(watch, busy, ids) && p in ids
    ensures WatchOk(Debounced(watch, p, p in busy, suppressed), busy, ids)
    ensures !watch.closed && !suppressed && !Deaf(watch, p) ==> WatchCovers(Debounced(watch, p, p in busy, suppressed), p)
    ensures forall q | WatchCovers(watch, q) :: WatchCovers(Debounced(watch, p, p in busy, suppressed), q)
    ensures Debounced(watch, p, p in busy, suppressed).closed == watch.closed
  {
  }

  lemma ExpireKeeps(watch: Watch, busy: set<Id>, ids: set<Id>, p: Id, closing: bool, refused: bool)
    requires WatchOk(watch, busy, ids) && p in watch.pending
    ensures WatchOk(Expire(watch, p, closing, p in busy, refused), busy, ids)
    ensures !closing ==> forall q | WatchCovers(watch, q) && (q != p || !refused) ::
              WatchCovers(Expire(watch, p, closing, p in busy, refused), q)
    ensures Expire(watch, p, closing, p in busy, refused).closed == watch.closed
    ensures watch.closed ==> Expire(watch, p, closing, p in busy, refused).running == watch.running
  {
  }

  /** A patch whose action just ended may still be marked. */
  predicate Settling(watch: Watch, busy: set<Id>, ids: set<Id>, p: Id) {
    && (forall q | q in watch.pending :: q in ids && q !in watch.running && q !in watch.dirty)
    && (forall q | q in watch.dirty :: q in ids && (q == p || q in watch.running || q in busy))
    && (forall q | q in watch.running :: q in ids)
    && (watch.closed ==> watch.pending == {} && watch.dirty == {})
  }

  lemma CompletedKeeps(watch: Watch, busy: set<Id>, ids: set<Id>, p: Id, suppressed: bool)
    requires Settling(watch, busy, ids, p)
    ensures WatchOk(Completed(watch, p, p in busy, suppressed), busy, ids)
    ensures forall q | WatchCovers(watch, q) && (q != p || !suppressed) :: WatchCovers(Completed(watch, p, p in busy, suppressed), q)
    ensures Completed(watch, p, p in busy, suppressed).running == watch.running
    ensures Completed(watch, p, p in busy, suppressed).closed == watch.closed
  {
  }

  lemma DebounceKeeps(s: State, p: Id)
    requires Core(s) && p in s.definitions
    ensures Core(Debounce(s, p))
    ensures forall q | Covered(s, q) :: Covered(Debounce(s, p), q)
    ensures Debounce(s, p).watch.closed == s.watch.closed && Debounce(s, p).watch.running == s.watch.running
    ensures !s.watch.closed && p !in s.suppressed && !Deaf(s.watch, p) ==> Covered(Debounce(s, p), p)
  {
    hide WatchOk, LockOk, NumberedBelow, ConfigOk, SuppressedOk, DurableOk, WatchCovers, BackgroundCovers, TaskCovers, NoChecks;
    DebouncedKeeps(s.watch, s.busy, s.definitions.Keys, p, p in s.suppressed);
  }

  // ----- What is left behind

  /** While its entry says something else, or while it is suppressed, an action on a patch is refused. */
  lemma InvalidIsStale(s: State, p: Id)
    requires EventsHeld(s) && p in s.facts.unseen && Invalidity(s, p).Some?
    ensures !Current(s)
  {
    hide FromMapping;
    if MatchesEntry(s) {
      EnabledIsRead(p, s.entry.patches[p], s.checks);
    }
  }

  lemma RefusedIsStale(s: State, p: Id)
    requires EventsHeld(s) && p in s.facts.unseen && Refusal(s, p, Reconcile).Some?
    ensures !Current(s)
  {
    hide Invalidity, MatchesEntry;
    if Invalidity(s, p).Some? {
      InvalidIsStale(s, p);
    }
  }

  /** What is noted about events is no part of the rest of the invariant. */
  lemma EventFactsCore(s: State, t: State)
    requires Core(s) && t == s.(facts := s.facts.(unseen := t.facts.unseen, missed := t.facts.missed))
    ensures Core(t)
  {
    hide WatchOk, LockOk, NumberedBelow, ConfigOk, SuppressedOk, DurableOk, CloseOk;
    assert Owing(t.facts) == Owing(s.facts);
    CloseSame(s, t);
  }

  lemma LostIsMissed(s: State)
    requires EventsHeld(s)
    ensures EventsOk(Lose(s))
  {
    hide Covered, Matches;
    CoveredSame(s, Lose(s));
  }

  /** Noting what is lost keeps the invariant, whatever is covered. */
  lemma LoseKeeps(s: State)
    requires Core(s) && EventsHeld(s)
    ensures Inv(Lose(s))
  {
    LostIsMissed(s);
    hide Core, EventsOk, Covered, Current;
    EventFactsCore(s, Lose(s));
  }

  /** Nothing about service changed, and nothing that covers an event was dropped. */
  lemma EventsStay(s: State, t: State)
    requires EventsOk(s) && EventsHeld(t) && t.facts.unseen <= s.facts.unseen && s.facts.missed <= t.facts.missed
    requires SameConfig(s, t) && t.stage == s.stage && t.closing == s.closing && t.watch.closed == s.watch.closed
    requires forall q | q in t.facts.unseen && Covered(s, q) :: Covered(t, q) || !Current(s)
    ensures EventsOk(t)
  {
    hide Covered, Matches, EventsHeld;
  }

  lemma NoticeKeeps(s: State, p: Id)
    requires Inv(s) && p in s.definitions && s.definitions[p].enabled
    ensures Core(Noticed(s, p)) && EventsHeld(Noticed(s, p))
    ensures Core(Debounce(Noticed(s, p), p)) && EventsHeld(Debounce(Noticed(s, p), p))
  {
    hide Core, Current, Covered, Debounced;
    EventFactsCore(s, Noticed(s, p));
    DebounceKeeps(Noticed(s, p), p);
  }

  lemma EventKeeps(s: State, p: Id)
    requires Inv(s) && EnabledPatch(s, p)
    ensures Inv(HandleEvent(s, p))
  {
    hide Inv, Core, EventsHeld, Noticed, Debounce, Lose;
    NoticeKeeps(s, p);
    LoseKeeps(if s.watch.closed || s.closing then Noticed(s, p) else Debounce(Noticed(s, p), p));
  }

  /** Another watch, closed as before, whose checks are over if they were. */
  lemma WatchCore(s: State, watch: Watch)
    requires Core(s) && WatchOk(watch, s.busy, s.definitions.Keys) && watch.closed == s.watch.closed
    requires watch.closed && NoChecks(s.watch) ==> NoChecks(watch)
    ensures Core(s.(watch := watch))
  {
    hide WatchOk, LockOk, NumberedBelow, ConfigOk, SuppressedOk, DurableOk, NoChecks;
  }

  lemma ExpiredCovers(s: State, p: Id, atOnce: bool)
    requires Inv(s) && p in s.watch.pending
    ensures forall q | q in s.facts.unseen && Covered(s, q) :: Covered(Fire(s, p, atOnce), q) || !Current(s)
  {
    var refused := atOnce && Refusal(s, p, Reconcile).Some?;
    ExpireKeeps(s.watch, s.busy, s.definitions.Keys, p, s.closing, refused);
    hide Core, WatchCovers, BackgroundCovers, TaskCovers, Expire, Refusal, Matches;
    if refused && p in s.facts.unseen {
      RefusedIsStale(s, p);
    }
  }

  lemma FireKeeps(s: State, p: Id, atOnce: bool)
    requires Inv(s) && p in s.watch.pending
    ensures Inv(Fire(s, p, atOnce))
  {
    var t := Fire(s, p, atOnce);
    ExpireKeeps(s.watch, s.busy, s.definitions.Keys, p, s.closing, atOnce && Refusal(s, p, Reconcile).Some?);
    ExpiredCovers(s, p, atOnce);
    hide WatchOk, LockOk, NumberedBelow, ConfigOk, SuppressedOk, DurableOk, CloseOk, EventsHeld, Covered, Expire, Refusal, Current, NoChecks;
    if s.watch.closed {
      SameChecks(s.watch, t.watch);
    }
    assert EventsHeld(t) by { HeldSame(s, t); }
    EventsStay(s, t);
    WatchCore(s, t.watch);
  }

  lemma HeldSame(s: State, t: State)
    requires EventsHeld(s) && t.facts.unseen <= s.facts.unseen && t.suppressed == s.suppressed && t.definitions == s.definitions
    ensures EventsHeld(t)
  {
  }

  lemma AvailableDurable(s: State, p: Id, available: bool)
    requires Core(s) && EnabledPatch(s, p)
    ensures DurableOk(s.tasks, Available(s, p, available).states, Owing(s.facts))
  {
    hide WatchOk, LockOk, NumberedBelow, SuppressedOk, CloseOk;
    var states := Available(s, p, available).states;
    assert forall q :: OnRecord(s.states, q) ==> OnRecord(states, q);
  }

  lemma AvailableKeeps(s: State, p: Id, available: bool)
    requires Inv(s) && EnabledPatch(s, p) && Refreshable(s)
    ensures Inv(Available(s, p, available))
  {
    AvailableDurable(s, p, available);
    hide WatchOk, LockOk, NumberedBelow, SuppressedOk, DurableOk, Covered, Matches;
    CoveredSame(s, Available(s, p, available));
  }

  lemma DeniedDurable(s: State, p: Id, reason: Reason)
    requires Core(s) && EnabledPatch(s, p)
    ensures DurableOk(s.tasks, Denied(s, p, reason).states, Owing(s.facts))
  {
    hide WatchOk, LockOk, NumberedBelow, SuppressedOk, CloseOk;
    var states := Denied(s, p, reason).states;
    assert forall q :: OnRecord(s.states, q) ==> OnRecord(states, q);
  }

  lemma DeniedKeeps(s: State, p: Id, reason: Reason)
    requires Inv(s) && EnabledPatch(s, p) && Refreshable(s)
    ensures Inv(Denied(s, p, reason))
  {
    DeniedDurable(s, p, reason);
    hide WatchOk, LockOk, NumberedBelow, SuppressedOk, DurableOk, Covered, Matches;
    CoveredSame(s, Denied(s, p, reason));
  }

  lemma RecoverKeeps(s: State, p: Id)
    requires Inv(s) && EnabledPatch(s, p) && Refreshable(s)
    ensures Inv(Recover(s, p))
  {
    AvailableKeeps(s, p, true);
    var t := Available(s, p, true);
    assert t.definitions == s.definitions;
    hide Inv, Core, EventsHeld, Noticed, Debounce, Lose, Available;
    NoticeKeeps(t, p);
    LoseKeeps(Debounce(Noticed(t, p), p));
  }

  // ----- Requests, checks and background tasks

  lemma AdmitTasks(s: State, p: Id, action: Action)
    requires LockOk(s.tasks, s.lock, s.busy) && NumberedBelow(s.tasks, s.background, s.next)
    requires ConfigOk(s.definitions, s.states, s.tasks) && p in s.definitions
    requires SuppressedOk(s.tasks, s.suppressed, s.facts.suppressedAt) && (action == Reconcile ==> p !in s.suppressed)
    ensures
      var t := Admit(s, p, action);
      && LockOk(t.tasks, t.lock, t.busy) && NumberedBelow(t.tasks, t.background, t.next)
      && ConfigOk(t.definitions, t.states, t.tasks) && SuppressedOk(t.tasks, t.suppressed, t.facts.suppressedAt)
  {
  }

  lemma AdmitDurable(tasks: map<nat, Task>, next: nat, t: Task, states: map<Id, Patch>, owed: set<Id>)
    requires DurableOk(tasks, states, owed) && next !in tasks && t.phase.Waiting?
    ensures DurableOk(tasks[next := t], states, owed)
  {
    hide OnRecord;
    forall p | p in owed && InHand(tasks, p) ensures InHand(tasks[next := t], p) {
      var n :| n in tasks && tasks[n].id == p && tasks[n].phase.Written? && SaysUnconfirmed(tasks[n].phase.result);
      assert tasks[next := t][n] == tasks[n];
    }
  }

  lemma TaskCoversMore(tasks: map<nat, Task>, next: nat, t: Task)
    requires next !in tasks && t.phase.Waiting?
    ensures TaskCovers(tasks[next := t], t.id) && forall q | TaskCovers(tasks, q) :: TaskCovers(tasks[next := t], q)
  {
    assert tasks[next := t][next] == t;
    forall q | TaskCovers(tasks, q) ensures TaskCovers(tasks[next := t], q) {
      var n :| n in tasks && tasks[n].id == q && tasks[n].phase.Waiting?;
      assert tasks[next := t][n] == tasks[n];
    }
  }

  lemma AdmitKeeps(s: State, p: Id, action: Action)
    requires Core(s) && Refusal(s, p, action).None?
    ensures Core(Admit(s, p, action))
    ensures TaskCovers(Admit(s, p, action).tasks, p)
    ensures forall q | TaskCovers(s.tasks, q) :: TaskCovers(Admit(s, p, action).tasks, q)
  {
    AdmitTasks(s, p, action);
    assert s.next !in s.tasks;
    AdmitDurable(s.tasks, s.next, Task(p, action, Waiting), s.states, Owing(s.facts));
    TaskCoversMore(s.tasks, s.next, Task(p, action, Waiting));
    hide WatchOk, LockOk, NumberedBelow, ConfigOk, SuppressedOk, DurableOk, TaskCovers;
  }

  lemma RequestKeeps(s: State, p: Id, action: Action)
    requires Inv(s) && Refusal(s, p, action).None?
    ensures Inv(Admit(s, p, action))
  {
    AdmitKeeps(s, p, action);
    hide Core, WatchCovers, BackgroundCovers, TaskCovers, Matches;
  }

  lemma DropRunning(watch: Watch, busy: set<Id>, ids: set<Id>, p: Id)
    requires WatchOk(watch, busy, ids)
    ensures Settling(watch.(running := watch.running - {p}), busy, ids, p)
    ensures forall q | WatchCovers(watch, q) && (q == p ==> p !in watch.running || !watch.running[p].Created?) ::
              WatchCovers(watch.(running := watch.running - {p}), q)
    ensures NoChecks(watch) ==> NoChecks(watch.(running := watch.running - {p}))
  {
  }

  /** The end of a check; nothing was owed to it if it asked for nothing. */
  lemma CheckDoneKeeps(s: State, p: Id)
    requires Inv(s) && p in s.watch.running && !s.watch.running[p].Stale?
    requires s.watch.running[p].Created? ==> !Current(s) || p !in s.facts.unseen
    ensures Inv(CheckDone(s, p))
  {
    var t := CheckDone(s, p);
    DoneCovers(s, p);
    hide WatchOk, LockOk, NumberedBelow, ConfigOk, SuppressedOk, DurableOk, CloseOk, EventsHeld, Covered, Completed, Current, NoChecks;
    assert EventsHeld(t) by { HeldSame(s, t); }
    EventsStay(s, t);
    WatchCore(s, t.watch);
  }

  lemma DoneCovers(s: State, p: Id)
    requires Inv(s) && p in s.watch.running && !s.watch.running[p].Stale?
    requires s.watch.running[p].Created? ==> !Current(s) || p !in s.facts.unseen
    ensures
      var t := CheckDone(s, p);
      && WatchOk(t.watch, s.busy, s.definitions.Keys) && t.watch.closed == s.watch.closed
      && (NoChecks(s.watch) ==> NoChecks(t.watch))
      && forall q | q in s.facts.unseen && Covered(s, q) :: Covered(t, q) || !Current(s)
  {
    var watch := s.watch.(running := s.watch.running - {p});
    DropRunning(s.watch, s.busy, s.definitions.Keys, p);
    CompletedKeeps(watch, s.busy, s.definitions.Keys, p, p in s.suppressed);
    hide WatchOk, Settling, LockOk, NumberedBelow, ConfigOk, SuppressedOk, DurableOk, CloseOk, WatchCovers, BackgroundCovers, TaskCovers,
         Completed, Current, NoChecks;
    SameChecks(watch, CheckDone(s, p).watch);
  }

  lemma SameChecks(watch: Watch, later: Watch)
    requires later.running == watch.running
    ensures NoChecks(later) <==> NoChecks(watch)
  {
  }

  lemma AwaitWatch(watch: Watch, busy: set<Id>, ids: set<Id>, p: Id, n: nat)
    requires WatchOk(watch, busy, ids) && p in watch.running
    ensures WatchOk(watch.(running := watch.running[p := Awaiting(n)]), busy, ids)
    ensures forall q | q != p && WatchCovers(watch, q) :: WatchCovers(watch.(running := watch.running[p := Awaiting(n)]), q)
  {
  }

  lemma SeenKeeps(s: State, p: Id)
    requires Inv(s)
    ensures Inv(Seen(s, p)) && Owing(Seen(s, p).facts) == Owing(s.facts)
  {
    hide Core, Covered, Current;
    EventFactsCore(s, Seen(s, p));
    CoveredSame(s, Seen(s, p));
    hide EventsHeld;
    assert EventsHeld(Seen(s, p)) by { HeldSame(s, Seen(s, p)); }
    EventsStay(s, Seen(s, p));
  }

  lemma StartCheckKeeps(s: State, p: Id)
    requires Inv(s) && p in s.watch.running && s.watch.running[p].Created?
    ensures Inv(StartCheck(s, p))
  {
    if Refusal(s, p, Reconcile).Some? {
      if p in s.facts.unseen {
        RefusedIsStale(s, p);
      }
      hide Inv;
      CheckDoneKeeps(s, p);
    } else {
      AdmittedCheckKeeps(s, p);
    }
  }

  lemma AdmittedCheckKeeps(s: State, p: Id)
    requires Inv(s) && p in s.watch.running && s.watch.running[p].Created? && Refusal(s, p, Reconcile).None?
    ensures Inv(StartCheck(s, p))
  {
    AdmitKeeps(s, p, Reconcile);
    AwaitWatch(s.watch, s.busy, s.definitions.Keys, p, s.next);
    var t := StartCheck(s, p);
    assert !s.closing;
    hide WatchOk, LockOk, NumberedBelow, ConfigOk, SuppressedOk, DurableOk, WatchCovers, BackgroundCovers, TaskCovers, Matches,
         EventsHeld, Refusal;
    assert EventsHeld(t) by { HeldSame(s, t); }
    EventsStay(s, t);
  }

  lemma BackgroundLess(background: map<nat, Background>, n: nat)
    requires n in background
    ensures forall q | BackgroundCovers(background, q) && (q != background[n].id || !background[n].call.Created?) ::
              BackgroundCovers(background - {n}, q)
  {
    forall q | BackgroundCovers(background, q) && (q != background[n].id || !background[n].call.Created?)
      ensures BackgroundCovers(background - {n}, q)
    {
      var k :| k in background && background[k] == Background(q, Created);
      assert (background - {n})[k] == background[k];
    }
  }

  lemma BackgroundAwaits(background: map<nat, Background>, n: nat, m: nat)
    requires n in background
    ensures forall q | BackgroundCovers(background, q) && q != background[n].id ::
              BackgroundCovers(background[n := Background(background[n].id, Awaiting(m))], q)
  {
    var later := background[n := Background(background[n].id, Awaiting(m))];
    forall q | BackgroundCovers(background, q) && q != background[n].id ensures BackgroundCovers(later, q) {
      var k :| k in background && background[k] == Background(q, Created);
      assert later[k] == background[k];
    }
  }

  lemma BackgroundEndsKeeps(s: State, n: nat)
    requires Inv(s) && n in s.background
    requires s.background[n].call.Created? ==> !Current(s) || s.background[n].id !in s.facts.unseen
    ensures Inv(s.(background := s.background - {n}))
  {
    BackgroundLess(s.background, n);
    assert NumberedBelow(s.tasks, s.background - {n}, s.next);
    var t := s.(background := s.background - {n});
    hide WatchOk, LockOk, NumberedBelow, ConfigOk, SuppressedOk, DurableOk, WatchCovers, BackgroundCovers, TaskCovers, Matches, EventsHeld;
    assert s.background == map[] ==> s.background - {n} == map[];
    assert EventsHeld(t) by { HeldSame(s, t); }
    EventsStay(s, t);
  }

  lemma BackgroundStartsKeeps(s: State, n: nat)
    requires Inv(s) && n in s.background && s.background[n].call.Created?
    ensures Inv(StartBackground(s, n))
  {
    var p := s.background[n].id;
    if Refusal(s, p, Reconcile).Some? {
      if p in s.facts.unseen {
        RefusedIsStale(s, p);
      }
      hide Inv;
      BackgroundEndsKeeps(s, n);
    } else {
      AdmittedBackgroundKeeps(s, n);
    }
  }

  lemma AdmittedBackgroundKeeps(s: State, n: nat)
    requires Inv(s) && n in s.background && Refusal(s, s.background[n].id, Reconcile).None?
    ensures Inv(StartBackground(s, n))
  {
    AdmitKeeps(s, s.background[n].id, Reconcile);
    BackgroundAwaits(s.background, n, s.next);
    var t := StartBackground(s, n);
    assert NumberedBelow(t.tasks, t.background, t.next);
    hide WatchOk, LockOk, NumberedBelow, ConfigOk, SuppressedOk, DurableOk, WatchCovers, BackgroundCovers, TaskCovers, Matches, EventsHeld, Refusal;
    assert EventsHeld(t) by { HeldSame(s, t); }
    EventsStay(s, t);
  }

  lemma ScheduleCovers(background: map<nat, Background>, next: nat, p: Id)
    requires next !in background
    ensures BackgroundCovers(background[next := Background(p, Created)], p)
    ensures forall q | BackgroundCovers(background, q) :: BackgroundCovers(background[next := Background(p, Created)], q)
  {
    var later := background[next := Background(p, Created)];
    assert later[next] == Background(p, Created);
    forall q | BackgroundCovers(background, q) ensures BackgroundCovers(later, q) {
      var k :| k in background && background[k] == Background(q, Created);
      assert later[k] == background[k];
    }
  }

  /** Only admission changes. */
  ghost predicate OnlySchedules(s: State, t: State) {
    t.definitions == s.definitions && t.suppressed == s.suppressed && t.watch == s.watch && t.tasks == s.tasks
    && t.closing == s.closing && t.facts == s.facts && SameConfig(s, t) && t.stage == s.stage
  }

  lemma ScheduleKeeps(s: State, p: Id)
    requires Core(s)
    ensures Core(Schedule(s, p)) && OnlySchedules(s, Schedule(s, p))
    ensures forall q | BackgroundCovers(s.background, q) :: BackgroundCovers(Schedule(s, p).background, q)
    ensures !s.closing && p !in s.suppressed ==> BackgroundCovers(Schedule(s, p).background, p)
  {
    ScheduleCovers(s.background, s.next, p);
    var t := Schedule(s, p);
    assert NumberedBelow(t.tasks, t.background, t.next);
    hide WatchOk, LockOk, NumberedBelow, ConfigOk, SuppressedOk, DurableOk, BackgroundCovers;
  }

  lemma {:induction false} ScheduleAllKeeps(s: State, order: seq<Id>)
    requires Core(s)
    ensures Core(ScheduleAll(s, order)) && OnlySchedules(s, ScheduleAll(s, order))
    ensures forall q | BackgroundCovers(s.background, q) :: BackgroundCovers(ScheduleAll(s, order).background, q)
    ensures !s.closing ==> forall q | q in order && q !in s.suppressed :: BackgroundCovers(ScheduleAll(s, order).background, q)
    decreases |order|
  {
    hide Core, BackgroundCovers;
    if order != [] {
      ScheduleKeeps(s, order[0]);
      ScheduleAllKeeps(Schedule(s, order[0]), order[1..]);
    }
  }

  lemma StartupKeeps(s: State, order: seq<Id>)
    requires Inv(s) && s.stage.Starting?
    ensures Inv(Startup(s, order))
  {
    ScheduleAllKeeps(s, order);
    var u := ScheduleAll(s, order);
    var t := u.(stage := Open);
    hide WatchOk, LockOk, NumberedBelow, ConfigOk, SuppressedOk, DurableOk, Covered, BackgroundCovers, Matches, ScheduleAll, EventsHeld, Lose;
    assert Core(t);
    assert EventsHeld(t) by { HeldSame(s, t); }
    LoseKeeps(t);
  }

  // ----- Actions

  /** The task holds the lock, or nobody does. */
  predicate MayMove(tasks: map<nat, Task>, lock: Option<Holder>, n: nat) {
    n in tasks && (lock == Some(ByTask(n)) || (lock.None? && tasks[n].phase.Waiting?))
  }

  lemma FinishLock(tasks: map<nat, Task>, lock: Option<Holder>, busy: set<Id>, n: nat)
    requires LockOk(tasks, lock, busy) && MayMove(tasks, lock, n)
    ensures LockOk(tasks - {n}, None, busy - {tasks[n].id})
  {
  }

  lemma FinishDurable(tasks: map<nat, Task>, states: map<Id, Patch>, owed: set<Id>, n: nat)
    requires DurableOk(tasks, states, owed) && n in tasks
    requires tasks[n].id in owed ==> OnRecord(states, tasks[n].id) || !tasks[n].phase.Written?
    ensures DurableOk(tasks - {n}, states, owed)
  {
    hide OnRecord;
    forall p | p in owed && !OnRecord(states, p) ensures InHand(tasks - {n}, p) {
      var k :| k in tasks && tasks[k].id == p && tasks[k].phase.Written? && SaysUnconfirmed(tasks[k].phase.result);
      assert (tasks - {n})[k] == tasks[k];
    }
  }

  lemma FinishCovers(tasks: map<nat, Task>, n: nat)
    requires n in tasks
    ensures forall q | TaskCovers(tasks, q) && (q != tasks[n].id || !tasks[n].phase.Waiting?) :: TaskCovers(tasks - {n}, q)
  {
    forall q | TaskCovers(tasks, q) && (q != tasks[n].id || !tasks[n].phase.Waiting?) ensures TaskCovers(tasks - {n}, q) {
      var k :| k in tasks && tasks[k].id == q && tasks[k].phase.Waiting?;
      assert (tasks - {n})[k] == tasks[k];
    }
  }

  lemma FinishWatch(watch: Watch, busy: set<Id>, ids: set<Id>, p: Id)
    requires WatchOk(watch, busy, ids)
    ensures Settling(watch, busy - {p}, ids, p)
  {
  }

  lemma FinishRest(s: State, n: nat)
    requires Core(s) && n in s.tasks
    ensures NumberedBelow(s.tasks - {n}, s.background, s.next) && ConfigOk(s.definitions, s.states, s.tasks - {n})
    ensures SuppressedOk(s.tasks - {n}, s.suppressed, s.facts.suppressedAt)
  {
    hide WatchOk, LockOk, DurableOk, CloseOk;
  }

  lemma FinishCore(s: State, n: nat)
    requires Core(s) && MayMove(s.tasks, s.lock, n)
    requires s.tasks[n].id in Owing(s.facts) ==> OnRecord(s.states, s.tasks[n].id) || !s.tasks[n].phase.Written?
    ensures Core(Finish(s, n))
  {
    var p := s.tasks[n].id;
    FinishRest(s, n);
    FinishLock(s.tasks, s.lock, s.busy, n);
    FinishDurable(s.tasks, s.states, Owing(s.facts), n);
    FinishWatch(s.watch, s.busy, s.definitions.Keys, p);
    CompletedKeeps(s.watch, s.busy - {p}, s.definitions.Keys, p, p in s.suppressed);
    assert s.tasks == map[] ==> s.tasks - {n} == map[];
    hide WatchOk, Settling, LockOk, NumberedBelow, ConfigOk, SuppressedOk, DurableOk, Completed, NoChecks;
    SameChecks(s.watch, Finish(s, n).watch);
  }

  lemma FinishKeepsCover(s: State, n: nat)
    requires Inv(s) && MayMove(s.tasks, s.lock, n)
    requires s.tasks[n].phase.Waiting? ==> !Current(s) || s.tasks[n].id !in s.facts.unseen
    ensures forall q | q in s.facts.unseen && Covered(s, q) :: Covered(Finish(s, n), q) || !Current(s)
    ensures Finish(s, n).watch.closed == s.watch.closed
  {
    var p := s.tasks[n].id;
    FinishCovers(s.tasks, n);
    FinishWatch(s.watch, s.busy, s.definitions.Keys, p);
    CompletedKeeps(s.watch, s.busy - {p}, s.definitions.Keys, p, p in s.suppressed);
    hide WatchOk, Settling, LockOk, NumberedBelow, ConfigOk, SuppressedOk, DurableOk, CloseOk, WatchCovers, BackgroundCovers, TaskCovers,
         Completed, Current;
  }

  lemma FinishKeeps(s: State, n: nat)
    requires Inv(s) && MayMove(s.tasks, s.lock, n)
    requires s.tasks[n].phase.Waiting? ==> !Current(s) || s.tasks[n].id !in s.facts.unseen
    requires s.tasks[n].id in Owing(s.facts) ==> OnRecord(s.states, s.tasks[n].id) || !s.tasks[n].phase.Written?
    ensures Inv(Finish(s, n))
  {
    var t := Finish(s, n);
    FinishKeepsCover(s, n);
    hide Core, EventsHeld, Covered, Current, Completed;
    FinishCore(s, n);
    assert EventsHeld(t) by { HeldSame(s, t); }
    EventsStay(s, t);
  }

  lemma HolderIsAlone(tasks: map<nat, Task>, lock: Option<Holder>, busy: set<Id>, n: nat)
    requires LockOk(tasks, lock, busy) && MayMove(tasks, lock, n)
    ensures forall k | k in tasks && k != n :: tasks[k].phase.Waiting?
  {
  }

  lemma MovedLock(tasks: map<nat, Task>, lock: Option<Holder>, busy: set<Id>, n: nat, phase: Phase)
    requires LockOk(tasks, lock, busy) && MayMove(tasks, lock, n) && !phase.Waiting?
    ensures LockOk(Moved(tasks, n, phase), Some(ByTask(n)), busy + {tasks[n].id})
  {
  }

  lemma MovedCovers(tasks: map<nat, Task>, n: nat, phase: Phase)
    requires n in tasks
    ensures forall q | TaskCovers(tasks, q) && (q != tasks[n].id || !tasks[n].phase.Waiting?) :: TaskCovers(Moved(tasks, n, phase), q)
  {
    forall q | TaskCovers(tasks, q) && (q != tasks[n].id || !tasks[n].phase.Waiting?) ensures TaskCovers(Moved(tasks, n, phase), q) {
      var k :| k in tasks && tasks[k].id == q && tasks[k].phase.Waiting?;
      assert Moved(tasks, n, phase)[k] == tasks[k];
    }
  }

  /** What the invariant says of tasks besides durability, after one of them entered another phase. */
  lemma MovedKeeps(s: State, n: nat, phase: Phase)
    requires Core(s) && MayMove(s.tasks, s.lock, n) && !phase.Waiting?
    requires phase.Working? || phase.Written? ==>
               phase.definition.enabled && s.tasks[n].id in s.definitions && phase.definition == s.definitions[s.tasks[n].id]
    ensures
      var tasks := Moved(s.tasks, n, phase);
      && NumberedBelow(tasks, s.background, s.next) && ConfigOk(s.definitions, s.states, tasks)
      && SuppressedOk(tasks, s.suppressed, s.facts.suppressedAt)
      && tasks.Keys == s.tasks.Keys
  {
    hide WatchOk, LockOk, DurableOk, CloseOk;
  }

  lemma BusierWatch(watch: Watch, busy: set<Id>, ids: set<Id>, p: Id)
    requires WatchOk(watch, busy, ids)
    ensures WatchOk(watch, busy + {p}, ids)
  {
  }

  /** Durability when one task moves and all others wait. */
  lemma MovedDurable(tasks: map<nat, Task>, states: map<Id, Patch>, owed: set<Id>, n: nat, phase: Phase,
                     states': map<Id, Patch>, owed': set<Id>)
    requires DurableOk(tasks, states, owed) && n in tasks
    requires forall k | k in tasks && k != n :: tasks[k].phase.Waiting?
    requires forall q | q != tasks[n].id ::
               (q in owed' ==> q in owed) && (OnRecord(states, q) ==> OnRecord(states', q))
    requires states'.Keys == states.Keys && tasks[n].id in states
    requires TaskDurable(tasks[n].(phase := phase), states', owed')
    requires tasks[n].id in owed' ==> OnRecord(states', tasks[n].id) || (phase.Written? && SaysUnconfirmed(phase.result))
    ensures DurableOk(Moved(tasks, n, phase), states', owed')
  {
    var later := Moved(tasks, n, phase);
    assert later[n] == tasks[n].(phase := phase);
    hide OnRecord, TaskDurable;
    assert forall q | q != tasks[n].id :: !InHand(tasks, q);
    forall q | q in owed' ensures q in states' && (OnRecord(states', q) || InHand(later, q)) {
    }
    forall k | k in later ensures TaskDurable(later[k], states', owed') {
      if k != n {
        WaitingIsDurable(later[k], states', owed');
      }
    }
  }

  lemma WaitingIsDurable(t: Task, states: map<Id, Patch>, owed: set<Id>)
    requires t.phase.Waiting?
    ensures TaskDurable(t, states, owed)
  {
  }

  lemma StartDurable(s: State, n: nat, phase: Phase)
    requires Core(s) && HasTask(s, n) && s.tasks[n].phase.Waiting? && s.lock.None?
    requires phase.Working? && (phase.pending <==> s.states[s.tasks[n].id].lastError == Some(DurabilityUnconfirmed))
    ensures DurableOk(Moved(s.tasks, n, phase), s.states, Owing(s.facts))
  {
    hide WatchOk, NumberedBelow, ConfigOk, SuppressedOk, CloseOk;
    MovedDurable(s.tasks, s.states, Owing(s.facts), n, phase, s.states, Owing(s.facts));
  }

  lemma CloseMoves(s: State, t: State, n: nat)
    requires CloseOk(s) && n in s.tasks && t.tasks.Keys == s.tasks.Keys
    requires t.closing == s.closing && t.stage == s.stage && t.watch == s.watch && t.background == s.background
    requires t.facts.reopened == s.facts.reopened
    ensures CloseOk(t)
  {
    assert n in t.tasks;
  }

  /** A state in which one task entered another phase, with what that phase changed. */
  ghost predicate TaskMoved(s: State, t: State, n: nat, phase: Phase)
    requires n in s.tasks
  {
    && t.tasks == Moved(s.tasks, n, phase) && t.lock == Some(ByTask(n)) && t.busy == s.busy + {s.tasks[n].id}
    && t.watch == s.watch && t.background == s.background && t.next == s.next
    && t.closing == s.closing && t.stage == s.stage && t.facts.reopened == s.facts.reopened
    && SameConfig(s, t)
  }

  lemma EventsMove(s: State, t: State, n: nat, phase: Phase)
    requires EventsOk(s) && n in s.tasks && TaskMoved(s, t, n, phase)
    requires t.facts.unseen <= s.facts.unseen && t.facts.unseen !! t.suppressed && t.facts.missed == s.facts.missed
    requires s.tasks[n].phase.Waiting? ==> s.tasks[n].id !in t.facts.unseen
    ensures EventsOk(t)
  {
    MovedCovers(s.tasks, n, phase);
    hide WatchCovers, BackgroundCovers, TaskCovers, Moved, Current;
    EventsStay(s, t);
  }

  lemma TaskMoves(s: State, t: State, n: nat, phase: Phase)
    requires Inv(s) && MayMove(s.tasks, s.lock, n) && !phase.Waiting? && TaskMoved(s, t, n, phase)
    requires ConfigOk(t.definitions, t.states, t.tasks)
    requires SuppressedOk(t.tasks, t.suppressed, t.facts.suppressedAt)
    requires DurableOk(t.tasks, t.states, Owing(t.facts)) && t.facts.forgotten <= t.facts.unsynced
    requires t.facts.unseen <= s.facts.unseen && t.facts.unseen !! t.suppressed && t.facts.missed == s.facts.missed
    requires s.tasks[n].phase.Waiting? ==> s.tasks[n].id !in t.facts.unseen
    ensures Inv(t)
  {
    hide WatchOk, LockOk, NumberedBelow, ConfigOk, SuppressedOk, DurableOk, CloseOk, EventsOk, Moved;
    var p := s.tasks[n].id;
    MovedLock(s.tasks, s.lock, s.busy, n, phase);
    BusierWatch(s.watch, s.busy, s.definitions.Keys, p);
    MovedNumbers(s.tasks, s.background, s.next, n, phase);
    CloseMoves(s, t, n);
    EventsMove(s, t, n, phase);
  }

  lemma MovedNumbers(tasks: map<nat, Task>, background: map<nat, Background>, next: nat, n: nat, phase: Phase)
    requires NumberedBelow(tasks, background, next) && n in tasks
    ensures NumberedBelow(Moved(tasks, n, phase), background, next) && Moved(tasks, n, phase).Keys == tasks.Keys
  {
  }

  lemma BeginKeeps(s: State, n: nat)
    requires Inv(s) && HasTask(s, n) && s.tasks[n].phase.Waiting? && s.lock.None?
    requires s.definitions[s.tasks[n].id].enabled && s.tasks[n].id !in s.facts.unseen
    ensures Inv(Begin(s, n))
  {
    hide WatchOk, LockOk, NumberedBelow, ConfigOk, SuppressedOk, DurableOk, CloseOk, Covered;
    var p := s.tasks[n].id;
    var phase := Working(s.definitions[p], s.states[p].lastError == Some(DurabilityUnconfirmed));
    StartDurable(s, n, phase);
    MovedKeeps(s, n, phase);
    TaskMoves(s, Begin(s, n), n, phase);
  }

  lemma StartKeeps(s: State, n: nat)
    requires Inv(s) && HasTask(s, n) && s.tasks[n].phase.Waiting? && s.lock.None?
    ensures Inv(Start(s, n))
  {
    var p := s.tasks[n].id;
    if Invalidity(s, p).Some? || !s.definitions[p].enabled {
      if p in s.facts.unseen {
        HeldIsEnabled(s, p);
        InvalidIsStale(s, p);
      }
      hide Inv, Invalidity, Finish, Current;
      FinishKeeps(s, n);
    } else {
      SeenKeeps(s, p);
      hide Inv, Invalidity, Begin;
      BeginKeeps(Seen(s, p), n);
    }
  }

  lemma HeldIsEnabled(s: State, p: Id)
    requires EventsHeld(s) && p in s.facts.unseen
    ensures p in s.definitions && s.definitions[p].enabled
  {
  }

  // ----- The worker returns

  lemma WriteDurable(s: State, n: nat, result: ReconcileResult, synced: bool)
    requires Core(s) && HasTask(s, n) && s.tasks[n].phase.Working? && Reported(s, n, result, synced)
    ensures
      var t := Write(s, n, result, synced);
      DurableOk(t.tasks, t.states, Owing(t.facts)) && t.facts.forgotten <= t.facts.unsynced
  {
    var p, t := s.tasks[n].id, Write(s, n, result, synced);
    HolderIsAlone(s.tasks, s.lock, s.busy, n);
    assert TaskDurable(s.tasks[n], s.states, Owing(s.facts));
    hide WatchOk, LockOk, NumberedBelow, ConfigOk, SuppressedOk, CloseOk;
    assert p in Owing(t.facts) ==> !synced && (p in s.facts.unsynced ==> p in Owing(s.facts));
    MovedDurable(s.tasks, s.states, Owing(s.facts), n, t.tasks[n].phase, s.states, Owing(t.facts));
  }

  lemma WorkingIsOwn(s: State, n: nat)
    requires Core(s) && n in s.tasks && s.tasks[n].phase.Working?
    ensures
      var p, d := s.tasks[n].id, s.tasks[n].phase.definition;
      p in s.definitions && d == s.definitions[p] && d.enabled
  {
    hide WatchOk, LockOk, NumberedBelow, SuppressedOk, DurableOk, CloseOk;
  }

  lemma WriteKeeps(s: State, n: nat, result: ReconcileResult, synced: bool)
    requires Inv(s) && HasTask(s, n) && s.tasks[n].phase.Working? && Reported(s, n, result, synced)
    ensures Inv(Write(s, n, result, synced))
  {
    var phase := Written(s.tasks[n].phase.definition, s.tasks[n].phase.pending, result);
    WorkingIsOwn(s, n);
    hide WatchOk, LockOk, NumberedBelow, ConfigOk, SuppressedOk, DurableOk, CloseOk, Covered, Reported;
    WriteDurable(s, n, result, synced);
    HolderMoves(s, n);
    MovedKeeps(s, n, phase);
    TaskMoves(s, Write(s, n, result, synced), n, phase);
  }

  /** What may be recorded for a patch: nothing that would lose an owed sync. */
  predicate Recordable(s: State, n: nat, result: ReconcileResult, pending: bool) {
    && n in s.tasks && !s.tasks[n].phase.Waiting?
    && (pending ==> OnRecord(s.states, s.tasks[n].id))
    && (s.tasks[n].id in Owing(s.facts) ==>
          SaysUnconfirmed(result) || (result.inspection.status == SecurityError && pending))
  }

  lemma RecordDurable(s: State, n: nat, result: ReconcileResult, pending: bool)
    requires Core(s) && HasTask(s, n) && Recordable(s, n, result, pending)
    ensures DurableOk(Record(s, n, result, pending).tasks, Record(s, n, result, pending).states, Owing(s.facts))
  {
    HolderIsAlone(s.tasks, s.lock, s.busy, n);
    hide WatchOk, LockOk, NumberedBelow, ConfigOk, SuppressedOk, CloseOk, DurableOk;
    var t := Record(s, n, result, pending);
    MovedDurable(s.tasks, s.states, Owing(s.facts), n, Saving, t.states, Owing(s.facts));
  }

  lemma RefreshDurable(s: State, n: nat, result: ReconcileResult, pending: bool)
    requires Core(s) && HasTask(s, n) && Recordable(s, n, result, pending) && DeniedPath(result)
    ensures DurableOk(Moved(s.tasks, n, Refreshing(pending, result)), s.states, Owing(s.facts))
  {
    HolderIsAlone(s.tasks, s.lock, s.busy, n);
    hide WatchOk, LockOk, NumberedBelow, ConfigOk, SuppressedOk, CloseOk, DurableOk;
    MovedDurable(s.tasks, s.states, Owing(s.facts), n, Refreshing(pending, result), s.states, Owing(s.facts));
  }

  lemma HolderMoves(s: State, n: nat)
    requires Core(s) && n in s.tasks && !s.tasks[n].phase.Waiting?
    ensures MayMove(s.tasks, s.lock, n) && s.lock == Some(ByTask(n)) && s.busy + {s.tasks[n].id} == s.busy
  {
  }

  lemma RecordMoves(s: State, n: nat, result: ReconcileResult, pending: bool)
    requires Core(s) && HasTask(s, n) && !s.tasks[n].phase.Waiting?
    ensures
      var t := Record(s, n, result, pending);
      && TaskMoved(s, t, n, Saving) && t.facts == s.facts && t.suppressed == s.suppressed
      && ConfigOk(t.definitions, t.states, t.tasks) && SuppressedOk(t.tasks, t.suppressed, t.facts.suppressedAt)
  {
    hide WatchOk, LockOk, NumberedBelow, ConfigOk, SuppressedOk, DurableOk, CloseOk, MayMove, DeniedPath;
    HolderMoves(s, n);
    MovedKeeps(s, n, Saving);
    var t := Record(s, n, result, pending);
    assert t.states.Keys == s.states.Keys;
    RecordedConfig(s, t, n);
  }

  lemma RecordKeeps(s: State, n: nat, result: ReconcileResult, pending: bool)
    requires Inv(s) && HasTask(s, n) && Recordable(s, n, result, pending)
    ensures Inv(Record(s, n, result, pending))
  {
    HolderMoves(s, n);
    RecordMoves(s, n, result, pending);
    RecordDurable(s, n, result, pending);
    hide WatchOk, LockOk, NumberedBelow, ConfigOk, SuppressedOk, DurableOk, CloseOk, Covered, Record, TaskMoved;
    TaskMoves(s, Record(s, n, result, pending), n, Saving);
  }

  lemma RecordedConfig(s: State, t: State, n: nat)
    requires n in s.tasks && ConfigOk(s.definitions, s.states, Moved(s.tasks, n, Saving))
    requires t.definitions == s.definitions && t.states.Keys == s.states.Keys && t.tasks == Moved(s.tasks, n, Saving)
    ensures ConfigOk(t.definitions, t.states, t.tasks)
  {
    hide Moved;
  }

  lemma RecordOrRefreshKeeps(s: State, n: nat, result: ReconcileResult, pending: bool)
    requires Inv(s) && HasTask(s, n) && Recordable(s, n, result, pending)
    ensures Inv(RecordOrRefresh(s, n, result, pending))
  {
    if DeniedPath(result) {
      hide WatchOk, LockOk, NumberedBelow, ConfigOk, SuppressedOk, DurableOk, CloseOk, Covered;
      var phase := Refreshing(pending, result);
      RefreshDurable(s, n, result, pending);
      HolderMoves(s, n);
      MovedKeeps(s, n, phase);
      TaskMoves(s, RecordOrRefresh(s, n, result, pending), n, phase);
    } else {
      hide Inv, Recordable, DeniedPath;
      RecordKeeps(s, n, result, pending);
    }
  }

  /** A smaller obligation is kept as well. */
  lemma OwingLess(tasks: map<nat, Task>, states: map<Id, Patch>, owed: set<Id>, fewer: set<Id>)
    requires DurableOk(tasks, states, owed) && fewer <= owed
    ensures DurableOk(tasks, states, fewer)
  {
  }

  /** Only the facts changed, and no event was added. */
  lemma FactsKeep(s: State, t: State)
    requires Inv(s) && t == s.(facts := t.facts) && t.facts.reopened == s.facts.reopened && t.facts.missed == s.facts.missed
    requires t.facts.unseen <= s.facts.unseen && t.facts.forgotten <= t.facts.unsynced
    requires t.facts.suppressedAt == s.facts.suppressedAt && DurableOk(s.tasks, s.states, Owing(t.facts))
    ensures Inv(t)
  {
    hide WatchOk, LockOk, NumberedBelow, ConfigOk, SuppressedOk, DurableOk, CloseOk, Covered, Owing, Matches;
    CloseSame(s, t);
    CoveredSame(s, t);
  }

  lemma ForgetKeeps(s: State, p: Id)
    requires Inv(s)
    ensures Inv(Forget(s, p)) && p !in Owing(Forget(s, p).facts)
  {
    var t := Forget(s, p);
    OwingLess(s.tasks, s.states, Owing(s.facts), Owing(t.facts));
    hide WatchOk, LockOk, NumberedBelow, ConfigOk, SuppressedOk, DurableOk, CloseOk, EventsOk, Covered;
    FactsKeep(s, t);
  }

  lemma CloseSame(s: State, t: State)
    requires CloseOk(s) && t.closing == s.closing && t.stage == s.stage && t.watch == s.watch && t.tasks == s.tasks
    requires t.background == s.background && t.saved == s.saved && t.states == s.states && t.facts.reopened == s.facts.reopened
    ensures CloseOk(t)
  {
  }

  lemma CoveredSame(s: State, t: State)
    requires t.watch == s.watch && t.background == s.background && t.tasks == s.tasks
    ensures forall q :: Covered(t, q) <==> Covered(s, q)
  {
    hide WatchCovers, BackgroundCovers, TaskCovers;
  }

  lemma SuppressTasks(s: State, p: Id)
    requires Core(s)
    ensures SuppressedOk(s.tasks, Suppress(s, p).suppressed, Suppress(s, p).facts.suppressedAt)
  {
    hide WatchOk, LockOk, ConfigOk, DurableOk, CloseOk;
  }

  lemma SuppressKeeps(s: State, p: Id)
    requires Inv(s)
    ensures Inv(Suppress(s, p)) && Owing(Suppress(s, p).facts) == Owing(s.facts)
  {
    var t := Suppress(s, p);
    SuppressTasks(s, p);
    hide WatchOk, LockOk, NumberedBelow, ConfigOk, SuppressedOk, DurableOk, CloseOk, Covered, Matches;
    assert CloseOk(t) by { CloseSame(s, t); }
    CoveredSame(s, t);
  }

  lemma StoredConfig(s: State, p: Id)
    requires ConfigOk(s.definitions, s.states, s.tasks) && p in s.definitions
    requires forall n | n in s.tasks :: !s.tasks[n].phase.Working? && !s.tasks[n].phase.Written?
    ensures ConfigOk(StoreSetting(s, p).definitions, s.states, s.tasks)
  {
    hide AsData;
  }

  lemma StoreKeeps(s: State, p: Id)
    requires Inv(s) && p in s.definitions
    requires forall n | n in s.tasks :: !s.tasks[n].phase.Working? && !s.tasks[n].phase.Written?
    ensures Core(StoreSetting(s, p)) && EventsHeld(StoreSetting(s, p))
  {
    var t := StoreSetting(s, p);
    StoredConfig(s, p);
    assert SuppressedOk(s.tasks, t.suppressed, s.facts.suppressedAt);
    assert t.definitions.Keys == s.definitions.Keys;
    hide WatchOk, LockOk, NumberedBelow, ConfigOk, SuppressedOk, DurableOk, CloseOk, Current, AsData;
    assert CloseOk(t) by { CloseSame(s, t); }
  }

  lemma OthersWait(s: State, n: nat)
    requires Inv(s) && n in s.tasks
    requires s.tasks[n].phase.Saving? || s.tasks[n].phase.Refreshing?
    ensures forall k | k in s.tasks :: !s.tasks[k].phase.Working? && !s.tasks[k].phase.Written?
  {
    HolderIsAlone(s.tasks, s.lock, s.busy, n);
  }

  lemma RecordCommutes(s: State, n: nat, result: ReconcileResult, pending: bool)
    requires HasTask(s, n)
    ensures Record(StoreSetting(s, s.tasks[n].id), n, result, pending) == StoreSetting(Record(s, n, result, pending), s.tasks[n].id)
  {
    hide AsData, DeniedPath;
  }

  lemma StoringCommutes(s: State, n: nat, result: ReconcileResult, pending: bool)
    requires HasTask(s, n)
    ensures
      var p := s.tasks[n].id;
      && HasTask(StoreSetting(s, p), n)
      && RecordOrRefresh(StoreSetting(s, p), n, result, pending) == StoreSetting(RecordOrRefresh(s, n, result, pending), p)
  {
    RecordCommutes(s, n, result, pending);
    hide AsData, DeniedPath, Record;
  }

  lemma WrittenIsRecordable(s: State, n: nat)
    requires Inv(s) && n in s.tasks && s.tasks[n].phase.Written?
    ensures Recordable(s, n, s.tasks[n].phase.result, s.tasks[n].phase.pending)
  {
    hide WatchOk, LockOk, NumberedBelow, ConfigOk, SuppressedOk, CloseOk;
    assert TaskDurable(s.tasks[n], s.states, Owing(s.facts));
  }

  lemma RecordPhase(s: State, n: nat, result: ReconcileResult, pending: bool)
    requires HasTask(s, n)
    ensures
      var t := RecordOrRefresh(s, n, result, pending);
      HasTask(t, n) && (t.tasks[n].phase.Saving? || t.tasks[n].phase.Refreshing?) && t.tasks[n].id == s.tasks[n].id
  {
    hide DeniedPath, Noted;
  }

  lemma StoredKeeps(s: State, n: nat)
    requires Inv(s) && HasTask(s, n) && s.tasks[n].phase.Written?
    ensures Inv(Lose(RecordOrRefresh(StoreSetting(s, s.tasks[n].id), n, s.tasks[n].phase.result, s.tasks[n].phase.pending)))
  {
    hide Inv, Core, EventsHeld, RecordOrRefresh, StoreSetting, Recordable, Lose;
    var p, phase := s.tasks[n].id, s.tasks[n].phase;
    WrittenIsRecordable(s, n);
    RecordOrRefreshKeeps(s, n, phase.result, phase.pending);
    StoringCommutes(s, n, phase.result, phase.pending);
    RecordPhase(s, n, phase.result, phase.pending);
    OthersWait(RecordOrRefresh(s, n, phase.result, phase.pending), n);
    StoreKeeps(RecordOrRefresh(s, n, phase.result, phase.pending), p);
    LoseKeeps(StoreSetting(RecordOrRefresh(s, n, phase.result, phase.pending), p));
  }

  lemma NotStoredKeeps(s: State, n: nat)
    requires Inv(s) && HasTask(s, n) && s.tasks[n].phase.Written?
    ensures Inv(RecordOrRefresh(Forget(Suppress(s, s.tasks[n].id), s.tasks[n].id), n, MetadataLost(s.tasks[n].phase.result),
                                s.tasks[n].phase.pending))
  {
    var p, phase := s.tasks[n].id, s.tasks[n].phase;
    WrittenIsRecordable(s, n);
    SuppressKeeps(s, p);
    ForgetKeeps(Suppress(s, p), p);
    hide Inv, RecordOrRefresh;
    RecordOrRefreshKeeps(Forget(Suppress(s, p), p), n, MetadataLost(phase.result), phase.pending);
  }

  lemma BrokeKeeps(s: State, n: nat)
    requires Inv(s) && HasTask(s, n) && s.tasks[n].phase.Written?
    ensures Inv(Finish(if s.states[s.tasks[n].id].lastError == Some(DurabilityUnconfirmed) then s else Forget(s, s.tasks[n].id), n))
  {
    HolderMoves(s, n);
    ForgetKeeps(s, s.tasks[n].id);
    hide Inv, Finish;
    FinishKeeps(if s.states[s.tasks[n].id].lastError == Some(DurabilityUnconfirmed) then s else Forget(s, s.tasks[n].id), n);
  }

  lemma ReturnKeeps(s: State, n: nat, setting: Setting)
    requires Inv(s) && HasTask(s, n) && s.tasks[n].phase.Written?
    ensures Inv(Return(s, n, setting))
  {
    hide Inv, RecordOrRefresh, Forget, Suppress, Finish, DisableAutoApply, MetadataLost, Lose;
    if s.tasks[n].action != Revert || s.tasks[n].phase.result.inspection.status == SecurityError {
      PlainReturnKeeps(s, n);
    } else {
      match setting {
        case Stored => StoredKeeps(s, n);
        case NotStored => NotStoredKeeps(s, n);
        case Broke => BrokeKeeps(s, n);
      }
    }
  }

  lemma PlainReturnKeeps(s: State, n: nat)
    requires Inv(s) && HasTask(s, n) && s.tasks[n].phase.Written?
    ensures Inv(RecordOrRefresh(s, n, s.tasks[n].phase.result, s.tasks[n].phase.pending))
  {
    WrittenIsRecordable(s, n);
    hide Inv, Core, RecordOrRefresh;
    RecordOrRefreshKeeps(s, n, s.tasks[n].phase.result, s.tasks[n].phase.pending);
  }

  lemma RefreshedKeeps(s: State, n: nat)
    requires Inv(s) && HasTask(s, n) && s.tasks[n].phase.Refreshing?
    ensures Inv(Record(s, n, s.tasks[n].phase.result, s.tasks[n].phase.pending))
  {
    assert TaskDurable(s.tasks[n], s.states, Owing(s.facts));
    hide Inv, Core;
    RecordKeeps(s, n, s.tasks[n].phase.result, s.tasks[n].phase.pending);
  }

  lemma SavedKeeps(s: State, n: nat)
    requires Inv(s) && HasTask(s, n)
    ensures Inv(Saved(s))
  {
    hide WatchOk, LockOk, NumberedBelow, ConfigOk, SuppressedOk, DurableOk, Covered, Reasons, Matches;
    CoveredSame(s, Saved(s));
  }

  lemma TaskSavedKeeps(s: State, n: nat, ok: bool)
    requires Inv(s) && HasTask(s, n) && s.tasks[n].phase.Saving?
    ensures Inv(Finish(if ok then Saved(s) else s, n))
  {
    SavedKeeps(s, n);
    HolderMoves(s, n);
    hide Inv, Core, Finish, Reasons;
    FinishKeeps(if ok then Saved(s) else s, n);
  }

  lemma TaskCrashedKeeps(s: State, n: nat)
    requires Inv(s) && HasTask(s, n) && s.tasks[n].phase.Working?
    ensures Inv(Finish(s, n))
  {
    HolderMoves(s, n);
    hide Inv, Core, Finish;
    FinishKeeps(s, n);
  }

  // ----- Configuration, unload and close

  lemma LockKeeps(s: State, lock: Option<Holder>)
    requires Inv(s) && (s.lock.Some? ==> !s.lock.value.ByTask?) && (lock.Some? ==> !lock.value.ByTask?)
    ensures Inv(s.(lock := lock))
  {
    assert LockOk(s.tasks, lock, s.busy);
    hide WatchOk, NumberedBelow, ConfigOk, SuppressedOk, DurableOk, CloseOk, Covered, Matches;
    assert CloseOk(s.(lock := lock)) by { CloseSame(s, s.(lock := lock)); }
    CoveredSame(s, s.(lock := lock));
  }

  lemma EditKeeps(s: State, entry: Entry)
    requires Inv(s)
    ensures Inv(Lose(s.(entry := entry)))
  {
    var t := s.(entry := entry);
    assert Core(t) by {
      hide WatchOk, LockOk, NumberedBelow, ConfigOk, SuppressedOk, DurableOk, CloseOk, EventsOk;
      assert CloseOk(t) by { CloseSame(s, t); }
    }
    assert EventsHeld(t) by { HeldSame(s, t); }
    hide Inv, Core, EventsHeld, Lose;
    LoseKeeps(t);
  }

  lemma ClosingKeeps(s: State)
    requires Inv(s) && s.stage.Open?
    ensures Inv(s.(closing := true))
  {
    hide WatchOk, LockOk, NumberedBelow, ConfigOk, SuppressedOk, DurableOk, Covered, Matches;
  }

  lemma ReopenCore(s: State)
    requires Core(s) && s.closing
    ensures Core(Reopen(s)) && Reopen(s).facts.unseen == s.facts.unseen
  {
    hide WatchOk, LockOk, NumberedBelow, ConfigOk, SuppressedOk, DurableOk;
  }

  /** A refused unload schedules every enabled patch, so events dropped while it was pending are answered. */
  lemma UnloadRefusedKeeps(s: State, order: seq<Id>)
    requires Inv(s) && Enabled(s, UnloadRefused(order))
    ensures Inv(ScheduleAll(Reopen(s), order))
  {
    ReopenCore(s);
    hide Core, Covered, BackgroundCovers, Matches;
    ScheduleAllKeeps(Reopen(s), order);
    var t := ScheduleAll(Reopen(s), order);
    forall p | p in s.facts.unseen ensures Covered(t, p) {
      assert p in order;
      BackgroundIsCover(t, p);
    }
  }

  lemma BackgroundIsCover(s: State, p: Id)
    requires BackgroundCovers(s.background, p)
    ensures Covered(s, p)
  {
  }

  lemma UnloadFailsKeeps(s: State)
    requires Inv(s) && s.closing
    ensures Inv(Lose(Reopen(s)))
  {
    ReopenCore(s);
    assert EventsHeld(Reopen(s)) by { HeldSame(s, Reopen(s)); }
    hide Inv, Core, EventsHeld, Reopen, Lose;
    LoseKeeps(Reopen(s));
  }

  lemma CloseBeginKeeps(s: State)
    requires Inv(s) && (s.stage.Starting? || s.stage.Open?)
    ensures Inv(CloseBegin(s))
  {
    assert WatchOk(CloseBegin(s).watch, s.busy, s.definitions.Keys);
    hide WatchOk, LockOk, NumberedBelow, ConfigOk, SuppressedOk, DurableOk, Covered, Matches;
  }

  lemma CloseDrainKeeps(s: State)
    requires Inv(s) && s.stage.StoppingWatch? && NoChecks(s.watch)
    ensures Inv(s.(stage := Draining(s.tasks.Keys + s.background.Keys)))
  {
    var t := s.(stage := Draining(s.tasks.Keys + s.background.Keys));
    hide WatchOk, LockOk, NumberedBelow, ConfigOk, SuppressedOk, DurableOk, Covered, Matches, NoChecks;
    CoveredSame(s, t);
  }

  lemma CloseLockKeeps(s: State)
    requires Inv(s) && Enabled(s, CloseLocks)
    ensures Inv(s.(lock := Some(ByClose), stage := SavingStates))
  {
    var t := s.(lock := Some(ByClose), stage := SavingStates);
    assert LockOk(s.tasks, Some(ByClose), s.busy);
    assert CloseOk(t) by { Drained(s); }
    hide WatchOk, LockOk, NumberedBelow, ConfigOk, SuppressedOk, DurableOk, CloseOk, Covered, Matches;
    CoveredSame(s, t);
  }

  lemma Drained(s: State)
    requires CloseOk(s) && s.stage.Draining? && s.stage.left !! s.tasks.Keys + s.background.Keys
    ensures !s.facts.reopened ==> Idle(s)
  {
    if !s.facts.reopened {
      NothingLeft(s.tasks.Keys + s.background.Keys, s.stage.left);
      assert s.tasks.Keys == {} && s.background.Keys == {};
    }
  }

  lemma NothingLeft(k: set<nat>, left: set<nat>)
    requires k <= left && left !! k
    ensures k == {}
  {
    assert k * left == k;
  }

  lemma CloseSavedKeeps(s: State, ok: bool)
    requires Inv(s) && s.stage.SavingStates? && s.lock == Some(ByClose)
    ensures Inv(CloseSaved(s, ok))
  {
    var t := CloseSaved(s, ok);
    assert LockOk(s.tasks, None, s.busy);
    hide WatchOk, LockOk, NumberedBelow, ConfigOk, SuppressedOk, DurableOk, Covered, Reasons, Matches;
    CoveredSame(s, t);
  }

  // ----- A new runtime

  /** What the last save wrote for an owed patch is still there after the reload. */
  lemma ReloadOwed(s: State, loaded: bool, p: Id)
    requires Inv(s) && s.stage.Closed? && !s.facts.reopened && Loadable(s.entry, s.checks)
    requires p in s.facts.unsynced - (s.facts.forgotten + LostByReload(s, loaded))
    ensures loaded && p in s.entry.patches && Find(s.saved, p) == Some(DurabilityUnconfirmed)
  {
    hide WatchOk, LockOk, NumberedBelow, ConfigOk, SuppressedOk, EventsOk, FromMapping, Loadable;
    assert p !in LostByReload(s, loaded) && p in Owing(s.facts);
    assert !InHand(s.tasks, p);
  }

  lemma BootKeeps(entry: Entry, checks: Checks, stored: map<Id, Option<Reason>>, saved: map<Id, Option<Reason>>, next: nat,
                  unsynced: set<Id>, forgotten: set<Id>, unseen: set<Id>)
    requires Loadable(entry, checks) && forgotten <= unsynced
    requires forall p | p in unsynced - forgotten :: p in entry.patches && Find(stored, p) == Some(DurabilityUnconfirmed)
    requires forall p | p in unseen ::
               p in entry.patches && Loaded(entry, checks)[p].enabled && Find(stored, p) != Some(RevertMetadataUnavailable)
    ensures Inv(Boot(entry, checks, stored, saved, next, unsynced, forgotten, unseen))
  {
    hide FromMapping, Loadable, Current, NoChecks;
    var s := Boot(entry, checks, stored, saved, next, unsynced, forgotten, unseen);
    assert s.states.Keys == s.definitions.Keys;
    BootHolds(entry, checks, stored, saved, next, unsynced, forgotten, unseen);
    hide EventsHeld;
    assert !Current(s) by { StartingIsNotCurrent(s); }
  }

  lemma StartingIsNotCurrent(s: State)
    requires !s.stage.Open?
    ensures !Current(s)
  {
    hide MatchesEntry;
  }

  lemma BootHolds(entry: Entry, checks: Checks, stored: map<Id, Option<Reason>>, saved: map<Id, Option<Reason>>, next: nat,
                  unsynced: set<Id>, forgotten: set<Id>, unseen: set<Id>)
    requires Loadable(entry, checks)
    requires forall p | p in unseen ::
               p in entry.patches && Loaded(entry, checks)[p].enabled && Find(stored, p) != Some(RevertMetadataUnavailable)
    ensures EventsHeld(Boot(entry, checks, stored, saved, next, unsynced, forgotten, unseen))
  {
    hide FromMapping, Loadable;
  }

  lemma ReloadRestores(s: State, loaded: bool)
    requires Inv(s) && s.stage.Closed? && !s.facts.reopened && Loadable(s.entry, s.checks)
    ensures s.facts.forgotten + LostByReload(s, loaded) <= s.facts.unsynced
    ensures forall p | p in s.facts.unsynced - (s.facts.forgotten + LostByReload(s, loaded)) ::
              p in s.entry.patches && Find(StoredReasons(s, loaded), p) == Some(DurabilityUnconfirmed)
  {
    hide Inv, Find, Loadable, Core;
    var lost := LostByReload(s, loaded);
    assert s.facts.forgotten <= s.facts.unsynced by { ForgottenIsOwed(s); }
    assert lost <= s.facts.unsynced;
    forall p | p in s.facts.unsynced - (s.facts.forgotten + lost)
      ensures p in s.entry.patches && Find(StoredReasons(s, loaded), p) == Some(DurabilityUnconfirmed)
    {
      ReloadOwed(s, loaded, p);
    }
  }

  lemma ForgottenIsOwed(s: State)
    requires Inv(s)
    ensures s.facts.forgotten <= s.facts.unsynced
  {
    hide WatchOk, LockOk, NumberedBelow, ConfigOk, SuppressedOk, DurableOk, CloseOk, EventsOk;
  }

  lemma ReloadKeeps(s: State, loaded: bool)
    requires Inv(s) && s.stage.Closed? && !s.facts.reopened && Loadable(s.entry, s.checks)
    ensures Inv(Reload(s, loaded))
  {
    ReloadRestores(s, loaded);
    var unseen := set p | p in s.facts.unseen && StillWatched(s, loaded, p);
    hide Inv, Loadable, Boot, Find, LostByReload, StoredReasons, FromMapping;
    BootKeeps(s.entry, s.checks, StoredReasons(s, loaded), s.saved, s.next, s.facts.unsynced,
              s.facts.forgotten + LostByReload(s, loaded), unseen);
  }

  // ----- Every step, every run

  lemma WatcherStepKeeps(s: State, step: Step)
    requires Inv(s) && Enabled(s, step) && WatcherStep(step)
    ensures Inv(After(s, step))
  {
    hide Inv, HandleEvent, Recover, Available, Denied, Fire;
    match step
    case FileEvent(p) => EventKeeps(s, p);
    case RootRecovered(p) => RecoverKeeps(s, p);
    case RootAvailable(p, available) => AvailableKeeps(s, p, available);
    case RootDenied(p, reason) => DeniedKeeps(s, p, reason);
    case TimerFires(p, atOnce) => FireKeeps(s, p, atOnce);
  }

  lemma CallStepKeeps(s: State, step: Step)
    requires Inv(s) && Enabled(s, step) && CallStep(step)
    ensures Inv(After(s, step))
  {
    hide Inv, Refusal, Admit, StartBackground, StartCheck, CheckDone, Startup;
    match step
    case Request(p, action) => if Refusal(s, p, action).None? { RequestKeeps(s, p, action); }
    case ScheduleStartup(order) => StartupKeeps(s, order);
    case BackgroundStarts(n) => BackgroundStartsKeeps(s, n);
    case BackgroundEnds(n) => BackgroundEndsKeeps(s, n);
    case CheckStarts(p) => StartCheckKeeps(s, p);
    case CheckEnds(p) => CheckDoneKeeps(s, p);
  }

  lemma TaskStepKeeps(s: State, step: Step)
    requires Inv(s) && Enabled(s, step) && TaskStep(step)
    ensures Inv(After(s, step))
  {
    hide Inv, Start, Write, Finish, Return, Record, Reported;
    match step
    case TaskStarts(n) => StartKeeps(s, n);
    case TaskWrote(n, result, synced) => WriteKeeps(s, n, result, synced);
    case TaskCrashed(n) => TaskCrashedKeeps(s, n);
    case TaskReturns(n, setting) => ReturnKeeps(s, n, setting);
    case TaskRefreshed(n) => RefreshedKeeps(s, n);
    case TaskSaved(n, ok) => TaskSavedKeeps(s, n, ok);
  }

  lemma OutsideStepKeeps(s: State, step: Step)
    requires Inv(s) && Enabled(s, step) && !WatcherStep(step) && !CallStep(step) && !TaskStep(step)
    ensures Inv(After(s, step))
  {
    hide Inv, ScheduleAll, Reopen, Lose, CloseBegin, CloseSaved, Reload, Loadable, NoChecks, MatchesEntry;
    match step
    case LockTaken(holder) => LockKeeps(s, Some(holder));
    case LockReleased => LockKeeps(s, None);
    case EntryEdited(entry) => EditKeeps(s, entry);
    case UnloadBegins => ClosingKeeps(s);
    case UnloadRefused(order) => UnloadRefusedKeeps(s, order);
    case UnloadFails => UnloadFailsKeeps(s);
    case CloseBegins => CloseBeginKeeps(s);
    case CloseDrains => CloseDrainKeeps(s);
    case CloseLocks => CloseLockKeeps(s);
    case CloseSaves(ok) => CloseSavedKeeps(s, ok);
    case Reloads(loaded) => ReloadKeeps(s, loaded);
  }

  lemma StepKeeps(s: State, step: Step)
    requires Inv(s) && Enabled(s, step)
    ensures Inv(After(s, step))
  {
    hide Inv, Enabled, After;
    if WatcherStep(step) {
      WatcherStepKeeps(s, step);
    } else if CallStep(step) {
      CallStepKeeps(s, step);
    } else if TaskStep(step) {
      TaskStepKeeps(s, step);
    } else {
      OutsideStepKeeps(s, step);
    }
  }

  lemma InitialIsSafe(s: State)
    requires Initial(s)
    ensures Inv(s)
  {
    hide Inv, Boot, Loadable;
    BootKeeps(s.entry, s.checks, s.saved, s.saved, s.next, {}, {}, {});
  }

  lemma {:induction false} RunKeeps(s: State, steps: seq<Step>, t: State)
    requires Inv(s) && Leads(s, steps, t)
    ensures Inv(t)
    decreases |steps|
  {
    hide Inv, Enabled, After;
    if steps != [] {
      StepKeeps(s, steps[0]);
      RunKeeps(After(s, steps[0]), steps[1..], t);
    }
  }

  /** Every state a new runtime can reach. */
  lemma RunIsSafe(s: State, steps: seq<Step>, t: State)
    requires Initial(s) && Leads(s, steps, t)
    ensures Inv(t)
  {
    hide Inv, Initial, Leads;
    InitialIsSafe(s);
    RunKeeps(s, steps, t);
  }
}
