/**
 The content-addressed patch store, with several publishers at work in one directory.

 A revision is the hash of its bytes; the hash is a parameter. Names are hard links to inodes, so bytes written
 through one name show under every other. Each system call is one step, may fail, and a publisher may stop for
 good between any two. For the store as an object, when this happens is fixed from outside.
 */
module ManagedStore {
  import opened Models
  import opened Outside
  import opened LineEndings

  type Hash = string -> string

  ghost predicate CollisionFree(hash: Hash) {
    forall a, b | hash(a) == hash(b) :: a == b
  }

  datatype Name = Revision(digest: string) | Pending(id: nat)

  /** Where a publisher stands; `good` is whether its own calls succeeded so far. */
  datatype Phase =
    | Checking
    | Creating
    | Writing(temp: Name, inode: nat)
    | Linking(temp: Name, inode: nat)
    | Cleaning(temp: Name, good: bool)
    | Confirming
    | Succeeded
    | Failed

  datatype Publisher = Publisher(data: string, phase: Phase)

  datatype Store = Store(names: map<Name, nat>, bytes: map<nat, string>, next: nat, publishers: map<nat, Publisher>)

  // ----- Reading

  /** The file has no second name. */
  predicate OnlyName(s: Store, n: Name)
    requires n in s.names
  {
    forall m | m in s.names && s.names[m] == s.names[n] :: m == n
  }

  /** What a revision reads as: its bytes, if nothing else names them and they hash to its name. */
  function ReadRevision(hash: Hash, s: Store, revision: string): Result<string> {
    var n := Revision(revision);
    if n !in s.names || s.names[n] !in s.bytes then Failure(PatchError(TargetMissing, MissingTarget))
    else if !OnlyName(s, n) then Failure(PatchError(UnsafeFile, SecurityError))
    else
      var data := s.bytes[s.names[n]];
      if ByteLen(data) > MAX_PATCH_BYTES then Failure(Invalid(SizeLimit))
      else if hash(data) != revision then Failure(PatchError(SourceHashMismatch, SourceError))
      else Success(data)
  }

  function Load(hash: Hash, s: Store, revision: string): Result<string> {
    var r := ReadRevision(hash, s, revision);
    if r.Failure? && r.error.status == MissingTarget then Failure(PatchError(ManagedSourceUnavailable, SourceError)) else r
  }

  /** A revision is loaded exactly if its name is there, names a file of its own, and the bytes fit the limit and hash to it. */
  lemma LoadExactly(hash: Hash, s: Store, revision: string, data: string)
    ensures Load(hash, s, revision) == Success(data) <==>
            && Revision(revision) in s.names && s.names[Revision(revision)] in s.bytes && s.bytes[s.names[Revision(revision)]] == data
            && (forall m | m in s.names :: s.names[m] == s.names[Revision(revision)] ==> m == Revision(revision))
            && ByteLen(data) <= MAX_PATCH_BYTES && hash(data) == revision
  {
  }

  function ValidateContent(data: string): Option<PatchError> {
    if data == "" then Some(Invalid(EmptyPatch))
    else if ByteLen(data) > MAX_PATCH_BYTES then Some(Invalid(SourceTooLarge))
    else None
  }

  // ----- Steps of a save

  datatype Step =
    | Begin(k: nat, data: string)
    | Check(k: nat, ok: bool)
    | Create(k: nat, temp: nat, ok: bool)
    | Write(k: nat, written: string, ok: bool)
    | Link(k: nat, ok: bool)
    | Unlink(k: nat, ok: bool)
    | Confirm(k: nat, ok: bool)
    | Stop(k: nat)

  function To(s: Store, k: nat, phase: Phase): Store
    requires k in s.publishers
  {
    s.(publishers := s.publishers[k := s.publishers[k].(phase := phase)])
  }

  predicate Enabled(s: Store, step: Step) {
    match step
    case Begin(k, data) => k !in s.publishers && ValidateContent(data).None?
    case Check(k, _) => k in s.publishers && s.publishers[k].phase.Checking?
    case Create(k, _, _) => k in s.publishers && s.publishers[k].phase.Creating?
    case Write(k, written, ok) => k in s.publishers && s.publishers[k].phase.Writing? && (ok ==> written == s.publishers[k].data)
    case Link(k, _) => k in s.publishers && s.publishers[k].phase.Linking?
    case Unlink(k, _) => k in s.publishers && s.publishers[k].phase.Cleaning?
    case Confirm(k, _) => k in s.publishers && s.publishers[k].phase.Confirming?
    case Stop(k) => k in s.publishers && !s.publishers[k].phase.Succeeded?
  }

  /** The revision may already be there. */
  function CheckStep(hash: Hash, s: Store, k: nat, ok: bool): Store
    requires k in s.publishers
  {
    var r := ReadRevision(hash, s, hash(s.publishers[k].data));
    To(s, k, if r.Success? && ok then Succeeded
             else if r.Failure? && r.error.status == MissingTarget then Creating else Failed)
  }

  /** A temporary name of its own. */
  function CreateStep(s: Store, k: nat, temp: nat, ok: bool): Store
    requires k in s.publishers
  {
    if !ok || Pending(temp) in s.names then To(s, k, Failed)
    else To(s.(names := s.names[Pending(temp) := s.next], bytes := s.bytes[s.next := ""], next := s.next + 1),
            k, Writing(Pending(temp), s.next))
  }

  /** All the bytes, or some and a failure. */
  function WriteStep(s: Store, k: nat, written: string, ok: bool): Store
    requires k in s.publishers && s.publishers[k].phase.Writing?
  {
    var phase := s.publishers[k].phase;
    To(s.(bytes := s.bytes[phase.inode := written]), k, if ok then Linking(phase.temp, phase.inode) else Cleaning(phase.temp, false))
  }

  /** Publish under the digest; a name that exists is never replaced. */
  function LinkStep(hash: Hash, s: Store, k: nat, ok: bool): Store
    requires k in s.publishers && s.publishers[k].phase.Linking?
  {
    var phase, n := s.publishers[k].phase, Revision(hash(s.publishers[k].data));
    if n in s.names then To(s, k, Cleaning(phase.temp, ReadRevision(hash, s, n.digest).Success?))
    else if !ok then To(s, k, Cleaning(phase.temp, false))
    else To(s.(names := s.names[n := phase.inode]), k, Cleaning(phase.temp, true))
  }

  function UnlinkStep(s: Store, k: nat, ok: bool): Store
    requires k in s.publishers && s.publishers[k].phase.Cleaning?
  {
    var phase := s.publishers[k].phase;
    if !ok then To(s, k, Failed)
    else To(s.(names := s.names - {phase.temp}), k, if phase.good then Confirming else Failed)
  }

  function After(hash: Hash, s: Store, step: Step): Store
    requires Enabled(s, step)
  {
    match step
    case Begin(k, data) => s.(publishers := s.publishers[k := Publisher(data, Checking)])
    case Check(k, ok) => CheckStep(hash, s, k, ok)
    case Create(k, temp, ok) => CreateStep(s, k, temp, ok)
    case Write(k, written, ok) => WriteStep(s, k, written, ok)
    case Link(k, ok) => LinkStep(hash, s, k, ok)
    case Unlink(k, ok) => UnlinkStep(s, k, ok)
    case Confirm(k, ok) =>
      To(s, k, if ok && ReadRevision(hash, s, hash(s.publishers[k].data)).Success? then Succeeded else Failed)
    case Stop(k) => To(s, k, Failed)
  }

  ghost predicate Leads(hash: Hash, s: Store, steps: seq<Step>, t: Store)
    decreases |steps|
  {
    if steps == [] then s == t else Enabled(s, steps[0]) && Leads(hash, After(hash, s, steps[0]), steps[1..], t)
  }

  // ----- What every step keeps

  predicate Owner(phase: Phase) {
    phase.Writing? || phase.Linking? || phase.Cleaning?
  }

  /** Published names hold bytes of a size that can be read, and that hash to them. */
  predicate Published(hash: Hash, s: Store) {
    forall n | n in s.names && n.Revision? ::
      s.names[n] in s.bytes && hash(s.bytes[s.names[n]]) == n.digest && ByteLen(s.bytes[s.names[n]]) <= MAX_PATCH_BYTES
  }

  /** No two temporary names share a file. */
  predicate Singles(s: Store) {
    forall m, n | m in s.names && n in s.names && m.Pending? && n.Pending? && s.names[m] == s.names[n] :: m == n
  }

  /** A publisher's content was validated; once it succeeded, its revision has no second name. */
  predicate Successful(hash: Hash, s: Store, p: Publisher) {
    && ValidateContent(p.data).None?
    && (p.phase.Succeeded? ==> Revision(hash(p.data)) in s.names && OnlyName(s, Revision(hash(p.data))))
  }

  /** An inode still being written has one name, the temporary name of its only writer. */
  predicate Private(s: Store, p: Publisher) {
    && (Owner(p.phase) ==> p.phase.temp.Pending? && p.phase.temp in s.names)
    && (p.phase.Writing? || p.phase.Linking? ==>
          p.phase.inode in s.bytes && s.names[p.phase.temp] == p.phase.inode && OnlyName(s, p.phase.temp))
    && (p.phase.Linking? ==> s.bytes[p.phase.inode] == p.data)
  }

  predicate Apart(s: Store) {
    forall j, k | j in s.publishers && k in s.publishers && j != k && Owner(s.publishers[j].phase) && Owner(s.publishers[k].phase) ::
      s.publishers[j].phase.temp != s.publishers[k].phase.temp
  }

  predicate Below(s: Store) {
    (forall n | n in s.names :: s.names[n] < s.next) && (forall i | i in s.bytes :: i < s.next)
  }

  predicate Inv(hash: Hash, s: Store) {
    && Published(hash, s) && Singles(s) && Below(s) && Apart(s)
    && (forall k | k in s.publishers :: Private(s, s.publishers[k]))
    && (forall k | k in s.publishers :: Successful(hash, s, s.publishers[k]))
  }

  /** Every published revision keeps its name, its file and its bytes. */
  predicate Kept(s: Store, t: Store) {
    forall n | n in s.names && n.Revision? ::
      n in t.names && t.names[n] == s.names[n] && (s.names[n] in s.bytes ==> s.names[n] in t.bytes && t.bytes[s.names[n]] == s.bytes[s.names[n]])
  }

  /** One publisher moved to a phase in which it owns no name it did not own before. */
  lemma PhaseKeeps(hash: Hash, s: Store, k: nat, phase: Phase)
    requires Inv(hash, s) && k in s.publishers
    requires Owner(phase) ==> Owner(s.publishers[k].phase) && phase.temp == s.publishers[k].phase.temp && phase.Cleaning?
    requires phase.Succeeded? ==> Revision(hash(s.publishers[k].data)) in s.names && OnlyName(s, Revision(hash(s.publishers[k].data)))
    ensures Inv(hash, To(s, k, phase)) && Kept(s, To(s, k, phase))
  {
    hide ByteLen, ValidateContent;
    var t := To(s, k, phase);
    forall j | j in t.publishers ensures Private(t, t.publishers[j]) && Successful(hash, t, t.publishers[j]) {
      assert Private(s, s.publishers[j]) && Successful(hash, s, s.publishers[j]);
    }
  }

  lemma CreatedNames(hash: Hash, s: Store, k: nat, temp: nat)
    requires Inv(hash, s) && k in s.publishers && s.publishers[k].phase.Creating? && Pending(temp) !in s.names
    ensures
      var t := CreateStep(s, k, temp, true);
      Published(hash, t) && Singles(t) && Below(t) && Apart(t) && Kept(s, t)
  {
    hide ByteLen, Successful;
    assert forall j | j in s.publishers :: Private(s, s.publishers[j]);
  }

  lemma CreatedOwner(hash: Hash, s: Store, k: nat, temp: nat, j: nat)
    requires Inv(hash, s) && k in s.publishers && s.publishers[k].phase.Creating? && Pending(temp) !in s.names
    requires j in s.publishers
    ensures var t := CreateStep(s, k, temp, true); Private(t, t.publishers[j]) && Successful(hash, t, t.publishers[j])
  {
    hide ByteLen, ValidateContent, Singles, Apart, Published;
    assert Private(s, s.publishers[j]) && Successful(hash, s, s.publishers[j]);
  }

  lemma CreateKeeps(hash: Hash, s: Store, k: nat, temp: nat, ok: bool)
    requires Inv(hash, s) && Enabled(s, Create(k, temp, ok))
    ensures Inv(hash, CreateStep(s, k, temp, ok)) && Kept(s, CreateStep(s, k, temp, ok))
  {
    hide Published, Singles, Below, Apart, Private, Successful, Kept;
    if !ok || Pending(temp) in s.names {
      PhaseKeeps(hash, s, k, Failed);
    } else {
      CreatedNames(hash, s, k, temp);
      forall j | j in s.publishers
        ensures var t := CreateStep(s, k, temp, true); Private(t, t.publishers[j]) && Successful(hash, t, t.publishers[j])
      {
        CreatedOwner(hash, s, k, temp, j);
      }
    }
  }

  lemma WriteKeeps(hash: Hash, s: Store, k: nat, written: string, ok: bool)
    requires Inv(hash, s) && Enabled(s, Write(k, written, ok))
    ensures Inv(hash, WriteStep(s, k, written, ok)) && Kept(s, WriteStep(s, k, written, ok))
  {
    hide ByteLen, ValidateContent;
    var t, phase := WriteStep(s, k, written, ok), s.publishers[k].phase;
    assert Private(s, s.publishers[k]);
    forall j | j in t.publishers ensures Private(t, t.publishers[j]) && Successful(hash, t, t.publishers[j]) {
      assert Private(s, s.publishers[j]) && Successful(hash, s, s.publishers[j]);
    }
  }

  lemma LinkKeeps(hash: Hash, s: Store, k: nat, ok: bool)
    requires Inv(hash, s) && Enabled(s, Link(k, ok))
    ensures Inv(hash, LinkStep(hash, s, k, ok)) && Kept(s, LinkStep(hash, s, k, ok))
  {
    hide ReadRevision;
    var t, phase, n := LinkStep(hash, s, k, ok), s.publishers[k].phase, Revision(hash(s.publishers[k].data));
    assert Private(s, s.publishers[k]);
    if n in s.names {
      PhaseKeeps(hash, s, k, Cleaning(phase.temp, ReadRevision(hash, s, n.digest).Success?));
    } else if !ok {
      PhaseKeeps(hash, s, k, Cleaning(phase.temp, false));
    } else {
      forall j | j in t.publishers ensures Private(t, t.publishers[j]) && Successful(hash, t, t.publishers[j]) {
        assert Private(s, s.publishers[j]) && Successful(hash, s, s.publishers[j]);
      }
    }
  }

  lemma UnlinkKeeps(hash: Hash, s: Store, k: nat, ok: bool)
    requires Inv(hash, s) && Enabled(s, Unlink(k, ok))
    ensures Inv(hash, UnlinkStep(s, k, ok)) && Kept(s, UnlinkStep(s, k, ok))
  {
    hide ByteLen, ValidateContent;
    assert Private(s, s.publishers[k]);
    if !ok {
      PhaseKeeps(hash, s, k, Failed);
    } else {
      var t := UnlinkStep(s, k, ok);
      forall j | j in t.publishers ensures Private(t, t.publishers[j]) && Successful(hash, t, t.publishers[j]) {
        assert Private(s, s.publishers[j]) && Successful(hash, s, s.publishers[j]);
      }
    }
  }

  lemma BeginKeeps(hash: Hash, s: Store, k: nat, data: string)
    requires Inv(hash, s) && k !in s.publishers && ValidateContent(data).None?
    ensures Inv(hash, s.(publishers := s.publishers[k := Publisher(data, Checking)]))
  {
    var t := s.(publishers := s.publishers[k := Publisher(data, Checking)]);
    forall j | j in t.publishers ensures Private(t, t.publishers[j]) && Successful(hash, t, t.publishers[j]) {
      if j != k { assert Private(s, s.publishers[j]) && Successful(hash, s, s.publishers[j]); }
    }
  }

  lemma ReadIsNamed(hash: Hash, s: Store, revision: string)
    requires ReadRevision(hash, s, revision).Success?
    ensures Revision(revision) in s.names && OnlyName(s, Revision(revision))
  {
    hide ByteLen;
  }

  /** Publication is final: no step of any publisher, failing or not, changes what a published name holds. */
  lemma StepKeeps(hash: Hash, s: Store, step: Step)
    requires Inv(hash, s) && Enabled(s, step)
    ensures Inv(hash, After(hash, s, step)) && Kept(s, After(hash, s, step))
  {
    hide Inv, ReadRevision, ValidateContent;
    match step
    case Begin(k, data) => BeginKeeps(hash, s, k, data);
    case Check(k, ok) => ReadKeeps(hash, s, k, ok);
    case Create(k, temp, ok) => CreateKeeps(hash, s, k, temp, ok);
    case Write(k, written, ok) => WriteKeeps(hash, s, k, written, ok);
    case Link(k, ok) => LinkKeeps(hash, s, k, ok);
    case Unlink(k, ok) => UnlinkKeeps(hash, s, k, ok);
    case Confirm(k, ok) => ReadKeeps(hash, s, k, ok);
    case Stop(k) => PhaseKeeps(hash, s, k, Failed);
  }

  lemma ReadKeeps(hash: Hash, s: Store, k: nat, ok: bool)
    requires Inv(hash, s) && k in s.publishers
    ensures Inv(hash, CheckStep(hash, s, k, ok)) && Kept(s, CheckStep(hash, s, k, ok))
    ensures
      var t := To(s, k, if ok && ReadRevision(hash, s, hash(s.publishers[k].data)).Success? then Succeeded else Failed);
      Inv(hash, t) && Kept(s, t)
  {
    hide Inv, ReadRevision;
    if ReadRevision(hash, s, hash(s.publishers[k].data)).Success? {
      ReadIsNamed(hash, s, hash(s.publishers[k].data));
      PhaseKeeps(hash, s, k, Succeeded);
    }
    PhaseKeeps(hash, s, k, Failed);
    PhaseKeeps(hash, s, k, Creating);
  }

  lemma KeptTwice(s: Store, t: Store, u: Store)
    requires Kept(s, t) && Kept(t, u)
    ensures Kept(s, u)
  {
  }

  lemma KeptSame(s: Store)
    ensures Kept(s, s)
  {
  }

  /** The same over any run of any number of publishers. */
  lemma {:induction false} RunKeeps(hash: Hash, s: Store, steps: seq<Step>, t: Store)
    requires Inv(hash, s) && Leads(hash, s, steps, t)
    ensures Inv(hash, t) && Kept(s, t)
    decreases |steps|
  {
    hide Inv, Enabled, After;
    if steps == [] {
    } else {
      StepKeeps(hash, s, steps[0]);
      RunKeeps(hash, After(hash, s, steps[0]), steps[1..], t);
      KeptTwice(s, After(hash, s, steps[0]), t);
    }
  }

  lemma SucceededIsSound(hash: Hash, s: Store, k: nat)
    requires Inv(hash, s) && k in s.publishers && s.publishers[k].phase.Succeeded?
    ensures Successful(hash, s, s.publishers[k]) && Published(hash, s)
  {
    hide Published, Singles, Below, Apart, Private, Successful;
  }

  /** A publisher that succeeded keeps its content and its success. */
  lemma SuccessStays(hash: Hash, s: Store, step: Step, k: nat)
    requires Enabled(s, step) && k in s.publishers && s.publishers[k].phase.Succeeded?
    ensures k in After(hash, s, step).publishers && After(hash, s, step).publishers[k] == s.publishers[k]
  {
    hide ReadRevision, ValidateContent;
  }

  lemma {:induction false} SuccessLasts(hash: Hash, s: Store, steps: seq<Step>, t: Store, k: nat)
    requires Leads(hash, s, steps, t) && k in s.publishers && s.publishers[k].phase.Succeeded?
    ensures k in t.publishers && t.publishers[k] == s.publishers[k]
    decreases |steps|
  {
    hide Enabled, After;
    if steps != [] {
      SuccessStays(hash, s, steps[0], k);
      SuccessLasts(hash, After(hash, s, steps[0]), steps[1..], t, k);
    }
  }

  lemma SuccessLoads(hash: Hash, s: Store, k: nat)
    requires CollisionFree(hash) && Inv(hash, s) && k in s.publishers && s.publishers[k].phase.Succeeded?
    ensures Load(hash, s, hash(s.publishers[k].data)) == Success(s.publishers[k].data)
  {
    hide Inv, ByteLen;
    SucceededIsSound(hash, s, k);
  }

  /** Save, then load: once a save succeeded, a load of its revision returns exactly the saved bytes, after any further steps. */
  lemma SavedThenLoaded(hash: Hash, s: Store, steps: seq<Step>, t: Store, k: nat)
    requires CollisionFree(hash) && Inv(hash, s) && Leads(hash, s, steps, t)
    requires k in s.publishers && s.publishers[k].phase.Succeeded?
    ensures Load(hash, t, hash(s.publishers[k].data)) == Success(s.publishers[k].data)
  {
    hide Inv, Leads, Load, CollisionFree;
    RunKeeps(hash, s, steps, t);
    SuccessLasts(hash, s, steps, t, k);
    SuccessLoads(hash, t, k);
  }

  // ----- Revisions whose publisher did not get so far

  /** A temporary name still names the file of this revision. */
  predicate Aliased(s: Store, revision: string, temp: nat) {
    && Revision(revision) in s.names && Pending(temp) in s.names && s.names[Pending(temp)] == s.names[Revision(revision)]
  }

  /** A published revision can be loaded exactly while no temporary name names its file. */
  lemma UnreadableWhileAliased(hash: Hash, s: Store, revision: string)
    requires Inv(hash, s) && Revision(revision) in s.names
    ensures Load(hash, s, revision).Success? <==> forall temp :: !Aliased(s, revision, temp)
    ensures Load(hash, s, revision).Failure? ==> Load(hash, s, revision) == Failure(PatchError(UnsafeFile, SecurityError))
  {
    hide Singles, Below, Apart, Private, Successful, ByteLen;
    var n := Revision(revision);
    if !OnlyName(s, n) {
      var m :| m in s.names && s.names[m] == s.names[n] && m != n;
      assert m.Pending?;
      assert Aliased(s, revision, m.id);
    }
  }

  /** A publisher on its way to removing this temporary name. */
  predicate Tended(s: Store, temp: nat) {
    exists k :: k in s.publishers && s.publishers[k].phase.Cleaning? && s.publishers[k].phase.temp == Pending(temp)
  }

  /** A second name of the revision that nobody will remove. */
  predicate Stranded(s: Store, revision: string, temp: nat) {
    Aliased(s, revision, temp) && !Tended(s, temp)
  }

  /** Only a publisher that is about to remove it owns a temporary name of a published file. */
  lemma OwnerIsCleaning(hash: Hash, s: Store, revision: string, temp: nat, k: nat)
    requires Inv(hash, s) && Aliased(s, revision, temp)
    requires k in s.publishers && Owner(s.publishers[k].phase) && s.publishers[k].phase.temp == Pending(temp)
    ensures s.publishers[k].phase.Cleaning?
  {
    hide Published, Singles, Below, Apart, Successful;
    assert Private(s, s.publishers[k]);
  }

  lemma StrandedStays(hash: Hash, s: Store, step: Step, revision: string, temp: nat)
    requires Inv(hash, s) && Enabled(s, step) && Stranded(s, revision, temp)
    ensures Stranded(After(hash, s, step), revision, temp)
  {
    hide ReadRevision, ValidateContent, Published, Singles, Below, Apart, Successful, Inv;
    PrivateTo(hash, s, Actor(step));
    if Actor(step) in s.publishers && s.publishers[Actor(step)].phase.Linking? {
      LinkerHasAnother(hash, s, revision, temp, Actor(step));
    }
  }

  lemma PrivateTo(hash: Hash, s: Store, k: nat)
    requires Inv(hash, s)
    ensures k in s.publishers ==> Private(s, s.publishers[k])
  {
    hide Published, Singles, Below, Apart, Successful, Private;
  }

  lemma LinkerHasAnother(hash: Hash, s: Store, revision: string, temp: nat, k: nat)
    requires Inv(hash, s) && Aliased(s, revision, temp) && k in s.publishers && s.publishers[k].phase.Linking?
    ensures s.publishers[k].phase.temp != Pending(temp)
  {
    hide Inv, Aliased;
    if s.publishers[k].phase.temp == Pending(temp) {
      OwnerIsCleaning(hash, s, revision, temp, k);
    }
  }

  /** A stranded revision stays unreadable: every later load and every later save of the same content fails. */
  lemma {:induction false} StrandedForever(hash: Hash, s: Store, steps: seq<Step>, t: Store, revision: string, temp: nat)
    requires Inv(hash, s) && Leads(hash, s, steps, t) && Stranded(s, revision, temp)
    ensures Load(hash, t, revision) == Failure(PatchError(UnsafeFile, SecurityError))
    decreases |steps|
  {
    hide Inv, Enabled, After, Load;
    if steps == [] {
      UnreadableWhileAliased(hash, t, revision);
    } else {
      hide Stranded;
      StepKeeps(hash, s, steps[0]);
      StrandedStays(hash, s, steps[0], revision, temp);
      StrandedForever(hash, After(hash, s, steps[0]), steps[1..], t, revision, temp);
    }
  }

  /** A tended name can still be removed, and then the revision is readable. */
  lemma UnlinkHeals(hash: Hash, s: Store, revision: string, temp: nat, k: nat)
    requires Inv(hash, s) && Aliased(s, revision, temp)
    requires k in s.publishers && s.publishers[k].phase.Cleaning? && s.publishers[k].phase.temp == Pending(temp)
    ensures Enabled(s, Unlink(k, true)) && Load(hash, After(hash, s, Unlink(k, true)), revision).Success?
  {
    var t := After(hash, s, Unlink(k, true));
    StepKeeps(hash, s, Unlink(k, true));
    forall other ensures !Aliased(t, revision, other) {
      SingleAlias(hash, s, revision, temp, other);
    }
    hide Inv, Load;
    UnreadableWhileAliased(hash, t, revision);
  }

  lemma SingleAlias(hash: Hash, s: Store, revision: string, temp: nat, other: nat)
    requires Inv(hash, s) && Aliased(s, revision, temp)
    ensures Aliased(s, revision, other) ==> other == temp
  {
    hide Published, Below, Apart, Private, Successful;
  }

  /** Whether some run from here ends with the revision readable. */
  ghost predicate Recoverable(hash: Hash, s: Store, revision: string) {
    exists steps, t :: Leads(hash, s, steps, t) && Load(hash, t, revision).Success?
  }

  /** A published revision is lost for good exactly when a temporary name that nobody will remove names its file. */
  lemma LostIffStranded(hash: Hash, s: Store, revision: string)
    requires Inv(hash, s) && Revision(revision) in s.names
    ensures !Recoverable(hash, s, revision) <==> exists temp :: Stranded(s, revision, temp)
  {
    hide Inv, Load, After, Enabled;
    UnreadableWhileAliased(hash, s, revision);
    if temp :| Stranded(s, revision, temp) {
      forall steps, t | Leads(hash, s, steps, t) ensures !Load(hash, t, revision).Success? {
        StrandedForever(hash, s, steps, t, revision, temp);
      }
    } else if temp :| Aliased(s, revision, temp) {
      assert !Stranded(s, revision, temp);
      var k :| k in s.publishers && s.publishers[k].phase.Cleaning? && s.publishers[k].phase.temp == Pending(temp);
      UnlinkHeals(hash, s, revision, temp, k);
      OneStep(hash, s, Unlink(k, true));
    } else {
      assert Leads(hash, s, [], s);
    }
  }

  lemma OneStep(hash: Hash, s: Store, step: Step)
    requires Enabled(s, step)
    ensures Leads(hash, s, [step], After(hash, s, step))
  {
    hide Enabled, After;
    assert [step][1..] == [];
    assert Leads(hash, After(hash, s, step), [], After(hash, s, step));
  }

  // ----- How a revision is stranded

  /** The publisher of a revision stops, or fails to unlink, after its link and before its unlink. */
  predicate Abandons(s: Store, step: Step, revision: string, temp: nat) {
    && (step.Stop? || (step.Unlink? && !step.ok)) && Aliased(s, revision, temp)
    && step.k in s.publishers && s.publishers[step.k].phase.Cleaning? && s.publishers[step.k].phase.temp == Pending(temp)
  }

  /** The one tender of a temporary name gave up. */
  lemma AbandonedIsStranded(hash: Hash, s: Store, step: Step, revision: string, temp: nat)
    requires Inv(hash, s) && Enabled(s, step) && Abandons(s, step, revision, temp)
    ensures Stranded(After(hash, s, step), revision, temp)
  {
    hide Published, Singles, Below, Private, Successful, ReadRevision, ValidateContent;
  }

  /** A step after which a revision is newly stranded. */
  lemma StrandedWasAbandoned(hash: Hash, s: Store, step: Step, revision: string, temp: nat)
    requires Inv(hash, s) && Enabled(s, step) && Stranded(After(hash, s, step), revision, temp)
    ensures Stranded(s, revision, temp) || Abandons(s, step, revision, temp)
  {
    hide Inv, ReadRevision, ValidateContent;
    var k := Actor(step);
    var t := After(hash, s, step);
    PrivateTo(hash, s, k);
    if !Aliased(s, revision, temp) {
      NewAlias(hash, s, step, revision, temp);
    } else if j :| j in s.publishers && s.publishers[j].phase.Cleaning? && s.publishers[j].phase.temp == Pending(temp) {
      if j != k {
        OthersStay(hash, s, step, j);
      }
    }
  }

  /** A new alias comes only from a link, and its publisher tends it. */
  lemma NewAlias(hash: Hash, s: Store, step: Step, revision: string, temp: nat)
    requires Inv(hash, s) && Enabled(s, step) && !Aliased(s, revision, temp) && Aliased(After(hash, s, step), revision, temp)
    ensures Tended(After(hash, s, step), temp)
  {
    hide ReadRevision, ValidateContent, Singles, Apart, Successful, Published;
    var k, t := Actor(step), After(hash, s, step);
    PrivateTo(hash, s, k);
    assert step.Link?;
    assert t.publishers[k].phase.Cleaning? && t.publishers[k].phase.temp == Pending(temp);
  }

  /** Somewhere in the run the publisher of this revision gives up between its link and its unlink. */
  ghost predicate Abandoned(hash: Hash, s: Store, steps: seq<Step>, revision: string)
    decreases |steps|
  {
    steps != [] && Enabled(s, steps[0]) &&
    ((exists temp :: Abandons(s, steps[0], revision, temp)) || Abandoned(hash, After(hash, s, steps[0]), steps[1..], revision))
  }

  ghost predicate Strands(s: Store, revision: string) {
    exists temp :: Stranded(s, revision, temp)
  }

  lemma StepStrands(hash: Hash, s: Store, step: Step, revision: string)
    requires Inv(hash, s) && Enabled(s, step)
    ensures Strands(After(hash, s, step), revision) <==> Strands(s, revision) || exists temp :: Abandons(s, step, revision, temp)
  {
    hide Inv, Enabled, After, Stranded, Abandons;
    forall temp | Stranded(After(hash, s, step), revision, temp)
      ensures Stranded(s, revision, temp) || Abandons(s, step, revision, temp)
    {
      StrandedWasAbandoned(hash, s, step, revision, temp);
    }
    forall temp | Stranded(s, revision, temp) ensures Stranded(After(hash, s, step), revision, temp) {
      StrandedStays(hash, s, step, revision, temp);
    }
    forall temp | Abandons(s, step, revision, temp) ensures Stranded(After(hash, s, step), revision, temp) {
      AbandonedIsStranded(hash, s, step, revision, temp);
    }
  }

  lemma {:induction false} RunStrands(hash: Hash, s: Store, steps: seq<Step>, t: Store, revision: string)
    requires Inv(hash, s) && Leads(hash, s, steps, t)
    ensures Strands(t, revision) <==> Strands(s, revision) || Abandoned(hash, s, steps, revision)
    decreases |steps|
  {
    hide Inv, Enabled, After, Strands, Abandons;
    if steps != [] {
      StepStrands(hash, s, steps[0], revision);
      StepKeeps(hash, s, steps[0]);
      RunStrands(hash, After(hash, s, steps[0]), steps[1..], t, revision);
    }
  }

  /**
   From an empty store, whatever the publishers do: a published revision is lost for good if and only if, in that
   run, its publisher stopped or failed to unlink between its link and its unlink.
   */
  lemma LostIffAbandoned(hash: Hash, steps: seq<Step>, t: Store, revision: string)
    requires Leads(hash, Store(map[], map[], 0, map[]), steps, t) && Revision(revision) in t.names
    ensures !Recoverable(hash, t, revision) <==> Abandoned(hash, Store(map[], map[], 0, map[]), steps, revision)
  {
    var empty := Store(map[], map[], 0, map[]);
    assert Inv(hash, empty) && !Strands(empty, revision);
    hide Inv, Leads, Recoverable, Abandoned, Stranded;
    RunKeeps(hash, empty, steps, t);
    RunStrands(hash, empty, steps, t, revision);
    LostIffStranded(hash, t, revision);
  }

  /** Stopping right after the link is enough: that revision is lost. */
  lemma StopStrands(hash: Hash, s: Store, k: nat)
    requires Inv(hash, s) && k in s.publishers && s.publishers[k].phase.Linking? && Revision(hash(s.publishers[k].data)) !in s.names
    ensures Enabled(s, Link(k, true)) && Enabled(After(hash, s, Link(k, true)), Stop(k))
    ensures !Recoverable(hash, After(hash, After(hash, s, Link(k, true)), Stop(k)), hash(s.publishers[k].data))
  {
    hide Inv, Recoverable, ReadRevision, ValidateContent, Stranded;
    var data, phase := s.publishers[k].data, s.publishers[k].phase;
    PrivateTo(hash, s, k);
    StepKeeps(hash, s, Link(k, true));
    var t := After(hash, s, Link(k, true));
    StepKeeps(hash, t, Stop(k));
    assert Abandons(t, Stop(k), hash(data), phase.temp.id);
    AbandonedIsStranded(hash, t, Stop(k), hash(data), phase.temp.id);
    LostIffStranded(hash, After(hash, t, Stop(k)), hash(data));
  }

  lemma {:induction false} LeadsOn(hash: Hash, s: Store, steps: seq<Step>, t: Store, step: Step)
    requires Leads(hash, s, steps, t) && Enabled(t, step)
    ensures Leads(hash, s, steps + [step], After(hash, t, step))
    decreases |steps|
  {
    hide Enabled, After;
    if steps == [] {
      OneStep(hash, s, step);
      assert [] + [step] == [step];
    } else {
      assert (steps + [step])[1..] == steps[1..] + [step];
      LeadsOn(hash, After(hash, s, steps[0]), steps[1..], t, step);
    }
  }

  /** A first publisher up to its link. */
  lemma FirstPublisher(hash: Hash, data: string) returns (steps: seq<Step>, t: Store)
    requires ValidateContent(data).None?
    ensures Leads(hash, Store(map[], map[], 0, map[]), steps, t) && t.names == map[Pending(0) := 0]
    ensures t.publishers == map[0 := Publisher(data, Linking(Pending(0), 0))]
  {
    hide Leads, ValidateContent;
    var empty := Store(map[], map[], 0, map[]);
    assert Leads(hash, empty, [], empty) by { NoStep(hash, empty); }
    LeadsOn(hash, empty, [], empty, Begin(0, data));
    var a := empty.(publishers := map[0 := Publisher(data, Checking)]);
    LeadsOn(hash, empty, [] + [Begin(0, data)], a, Check(0, true));
    var b := To(a, 0, Creating);
    LeadsOn(hash, empty, [] + [Begin(0, data)] + [Check(0, true)], b, Create(0, 0, true));
    var c := CreateStep(b, 0, 0, true);
    LeadsOn(hash, empty, [] + [Begin(0, data)] + [Check(0, true)] + [Create(0, 0, true)], c, Write(0, data, true));
    steps := [] + [Begin(0, data)] + [Check(0, true)] + [Create(0, 0, true)] + [Write(0, data, true)];
    t := WriteStep(c, 0, data, true);
  }

  lemma NoStep(hash: Hash, s: Store)
    ensures Leads(hash, s, [], s)
  {
  }

  /** So for any content, one publisher in an empty store can lose its revision. */
  lemma OneStopLoses(hash: Hash, data: string) returns (steps: seq<Step>, t: Store)
    requires ValidateContent(data).None?
    ensures Leads(hash, Store(map[], map[], 0, map[]), steps, t) && !Recoverable(hash, t, hash(data))
  {
    hide Leads, ValidateContent, After, Enabled, Recoverable;
    var empty := Store(map[], map[], 0, map[]);
    var s;
    steps, s := FirstPublisher(hash, data);
    assert Inv(hash, s) by { EmptyIsSound(hash); RunKeeps(hash, empty, steps, s); }
    StopStrands(hash, s, 0);
    LeadsOn(hash, empty, steps, s, Link(0, true));
    LeadsOn(hash, empty, steps + [Link(0, true)], After(hash, s, Link(0, true)), Stop(0));
    steps, t := steps + [Link(0, true)] + [Stop(0)], After(hash, After(hash, s, Link(0, true)), Stop(0));
  }

  lemma EmptyIsSound(hash: Hash)
    ensures Inv(hash, Store(map[], map[], 0, map[]))
  {
  }

  // ----- The store

  function Actor(step: Step): nat {
    step.k
  }

  lemma OthersStay(hash: Hash, s: Store, step: Step, k: nat)
    requires Enabled(s, step) && k in s.publishers && Actor(step) != k
    ensures k in After(hash, s, step).publishers && After(hash, s, step).publishers[k] == s.publishers[k]
  {
    hide ReadRevision, ValidateContent;
  }

  /** What a publisher's own step does to it. */
  lemma NextPhase(hash: Hash, s: Store, step: Step)
    requires Enabled(s, step) && (step.Create? || step.Write? || step.Link? || step.Unlink?)
    ensures
      var t := After(hash, s, step);
      && step.k in t.publishers && t.publishers[step.k].data == s.publishers[step.k].data
      && var phase := t.publishers[step.k].phase;
         match step
         case Create(_, _, _) => phase.Failed? || phase.Writing?
         case Write(_, _, _) => phase.Linking? || phase.Cleaning?
         case Link(_, _) => phase.Cleaning?
         case Unlink(_, _) => phase.Failed? || phase.Confirming?
         case _ => true
  {
    hide ReadRevision;
  }

  lemma UnusedIsFree(names: map<Name, nat>, temp: nat)
    requires temp !in (set m | m in names && m.Pending? :: m.id)
    ensures Pending(temp) !in names
  {
  }

  /** What the first check of a publisher alone finds is what was there before it began. */
  lemma FirstCheck(hash: Hash, s: Store, k: nat, data: string)
    requires Inv(hash, s)
    ensures
      var t := s.(publishers := s.publishers[k := Publisher(data, Checking)]);
      ReadRevision(hash, t, hash(data)) == ReadRevision(hash, s, hash(data))
    ensures
      var r := ReadRevision(hash, s, hash(data));
      Revision(hash(data)) !in s.names <==> r.Failure? && r.error.status == MissingTarget
  {
    hide ByteLen;
  }

  /** From a created temporary file on, every call of the publisher is possible in turn. */
  predicate Publishes(hash: Hash, s: Store, k: nat) {
    && k in s.publishers && s.publishers[k].phase.Writing?
    && var a := After(hash, s, Write(k, s.publishers[k].data, true));
       && Enabled(a, Link(k, true)) && Enabled(After(hash, a, Link(k, true)), Unlink(k, true))
  }

  /** Written, linked, and the temporary name removed, with nothing in between. */
  function Written(hash: Hash, s: Store, k: nat): Store
    requires Publishes(hash, s, k)
  {
    After(hash, After(hash, After(hash, s, Write(k, s.publishers[k].data, true)), Link(k, true)), Unlink(k, true))
  }

  /** A publisher alone, whose calls succeed, publishes a revision that was not there. */
  lemma AloneItPublishes(hash: Hash, s: Store, k: nat, temp: nat)
    requires Inv(hash, s) && k in s.publishers && s.publishers[k].phase.Creating? && Pending(temp) !in s.names
    requires Revision(hash(s.publishers[k].data)) !in s.names
    ensures
      var data, t := s.publishers[k].data, After(hash, s, Create(k, temp, true));
      && Publishes(hash, t, k)
      && var u := Written(hash, t, k);
         k in u.publishers && u.publishers[k] == Publisher(data, Confirming) && ReadRevision(hash, u, hash(data)) == Success(data)
  {
    var data, n := s.publishers[k].data, Revision(hash(s.publishers[k].data));
    assert Successful(hash, s, s.publishers[k]) && Below(s);
    hide Inv, ByteLen, Private, Successful, Published, Singles, Apart;
    var c := LinkStep(hash, WriteStep(CreateStep(s, k, temp, true), k, data, true), k, true);
    assert c.names == s.names[Pending(temp) := s.next][n := s.next] && c.bytes == s.bytes[s.next := ""][s.next := data];
    assert c.publishers[k] == Publisher(data, Cleaning(Pending(temp), true));
    var d := UnlinkStep(c, k, true);
    assert d.names == c.names - {Pending(temp)};
  }

  lemma ConfirmPhase(hash: Hash, s: Store, k: nat, ok: bool)
    requires Enabled(s, Confirm(k, ok))
    ensures
      var t := After(hash, s, Confirm(k, ok));
      && k in t.publishers && t.publishers[k].data == s.publishers[k].data
      && (t.publishers[k].phase.Succeeded? <==> ok && ReadRevision(hash, s, hash(s.publishers[k].data)).Success?)
  {
    hide ReadRevision;
  }

  class ManagedPatchStore {
    const trouble: nat -> bool
    var moments: nat
    const hash: Hash
    var names: map<Name, nat>
    var bytes: map<nat, string>
    var next: nat
    var publishers: map<nat, Publisher>

    constructor (hash: Hash, trouble: nat -> bool)
      ensures this.hash == hash && this.trouble == trouble && View() == Store(map[], map[], 0, map[]) && Inv(hash, View())
    {
      this.hash, this.trouble, moments := hash, trouble, 0;
      names, bytes, next, publishers := map[], map[], 0, map[];
    }

    function View(): Store reads this {
      Store(names, bytes, next, publishers)
    }

    /** No call failed since, and no other publisher was at work. */
    ghost predicate Calm(since: nat) reads this {
      Quiet(trouble, since, moments)
    }

    method Succeeds() returns (ok: bool)
      modifies this`moments
      ensures moments == old(moments) + 1 && ok == !trouble(old(moments))
    {
      ok := !trouble(moments);
      moments := moments + 1;
    }

    /** One system call of one publisher. */
    method Take(step: Step, ghost start: Store)
      requires Inv(hash, View()) && Enabled(View(), step) && Kept(start, View())
      modifies this`names, this`bytes, this`next, this`publishers
      ensures View() == After(hash, old(View()), step) && Inv(hash, View()) && Kept(start, View())
    {
      StepKeeps(hash, View(), step);
      KeptTwice(start, View(), After(hash, View(), step));
      hide Inv, Kept, Enabled;
      var after := After(hash, View(), step);
      names, bytes, next, publishers := after.names, after.bytes, after.next, after.publishers;
    }

    /** Any number of calls of the other publishers. */
    method Interfere(k: nat, ghost start: Store)
      requires Inv(hash, View()) && k in publishers && Kept(start, View())
      modifies this
      ensures Inv(hash, View()) && Kept(start, View()) && k in publishers && publishers[k] == old(publishers[k])
      ensures moments > old(moments) && (Calm(old(moments)) ==> View() == old(View()))
    {
      hide Inv, After, Enabled, Kept;
      var alone := Succeeds();
      var rounds: nat := *;
      if alone {
        rounds := 0;
      }
      while rounds > 0
        invariant Inv(hash, View()) && Kept(start, View()) && k in publishers && publishers[k] == old(publishers[k])
        invariant moments == old(moments) + 1 && (alone ==> rounds == 0 && View() == old(View()))
      {
        var step: Step := *;
        if Enabled(View(), step) && Actor(step) != k {
          OthersStay(hash, View(), step, k);
          Take(step, start);
        }
        rounds := rounds - 1;
      }
    }

    /** One call of one publisher, and whatever the others do before its next one. */
    method Advance(step: Step, ghost start: Store)
      requires Inv(hash, View()) && Enabled(View(), step) && Kept(start, View()) && step.k in After(hash, View(), step).publishers
      modifies this
      ensures Inv(hash, View()) && Kept(start, View())
      ensures step.k in publishers && publishers[step.k] == After(hash, old(View()), step).publishers[step.k]
      ensures moments > old(moments) && (Calm(old(moments)) ==> View() == After(hash, old(View()), step))
    {
      hide Inv, Kept, After, Enabled;
      Take(step, start);
      Interfere(step.k, start);
    }

    /** The temporary file is created under a new name; in calm moments it is what the whole publication needs. */
    method CreateTemp(k: nat, ghost start: Store) returns (ghost temp: nat)
      requires Inv(hash, View()) && Kept(start, View()) && k in publishers && publishers[k].phase.Creating?
      modifies this
      ensures Inv(hash, View()) && Kept(start, View()) && k in publishers && publishers[k].data == old(publishers[k].data)
      ensures publishers[k].phase.Failed? || publishers[k].phase.Writing?
      ensures moments > old(moments)
      ensures Calm(old(moments)) ==> Pending(temp) !in old(names) && View() == After(hash, old(View()), Create(k, temp, true))
    {
      hide Inv, Kept, ReadRevision, ValidateContent, After;
      var chosen: nat := *;
      var ok := Succeeds();
      if ok && Pending(chosen) in names {
        chosen := Unused(set m | m in names && m.Pending? :: m.id);
        UnusedIsFree(names, chosen);
      }
      temp := chosen;
      NextPhase(hash, View(), Create(k, chosen, ok));
      Advance(Create(k, chosen, ok), start);
    }

    /** The content is written, linked under the digest, and the temporary name removed again. */
    method WriteAndLink(k: nat, ghost start: Store)
      requires Inv(hash, View()) && Kept(start, View()) && k in publishers && publishers[k].phase.Writing?
      modifies this
      ensures Inv(hash, View()) && Kept(start, View()) && k in publishers && publishers[k].data == old(publishers[k].data)
      ensures publishers[k].phase.Failed? || publishers[k].phase.Confirming?
      ensures moments > old(moments)
      ensures Calm(old(moments)) && Publishes(hash, old(View()), k) ==> View() == Written(hash, old(View()), k)
    {
      hide Inv, Kept, ReadRevision, ValidateContent, After;
      var data := publishers[k].data;
      var written: string := *;
      var ok := Succeeds();
      var content := if ok then data else written;
      NextPhase(hash, View(), Write(k, content, ok));
      Advance(Write(k, content, ok), start);
      if publishers[k].phase.Linking? {
        ok := Succeeds();
        NextPhase(hash, View(), Link(k, ok));
        Advance(Link(k, ok), start);
      }
      ok := Succeeds();
      NextPhase(hash, View(), Unlink(k, ok));
      Advance(Unlink(k, ok), start);
    }

    /** From the temporary file to the last check. */
    method Publish(k: nat, ghost start: Store)
      requires Inv(hash, View()) && Kept(start, View()) && k in publishers && publishers[k].phase.Creating?
      modifies this
      ensures Inv(hash, View()) && Kept(start, View()) && k in publishers && publishers[k].data == old(publishers[k].data)
      ensures moments > old(moments)
      ensures Calm(old(moments)) && Revision(hash(publishers[k].data)) !in old(names) ==> publishers[k].phase.Succeeded?
    {
      hide Inv, Kept, ReadRevision, ValidateContent, After, Written;
      ghost var before := View();
      ghost var temp := CreateTemp(k, start);
      if Calm(old(moments)) && Revision(hash(publishers[k].data)) !in before.names {
        AloneItPublishes(hash, before, k, temp);
      }
      if publishers[k].phase.Writing? {
        WriteAndLink(k, start);
        if publishers[k].phase.Confirming? {
          var ok := Succeeds();
          ConfirmPhase(hash, View(), k, ok);
          Advance(Confirm(k, ok), start);
        }
      }
    }

    /**
     Publish a revision while others publish: nothing published before changes, and success means it is there. When
     nothing goes wrong and nobody else is at work, a valid content is published, unless its revision is already
     there and cannot be read.
     */
    method Save(k: nat, data: string) returns (r: Result<string>)
      requires Inv(hash, View()) && k !in publishers
      modifies this
      ensures Inv(hash, View()) && Kept(old(View()), View())
      ensures ValidateContent(data).Some? ==> r == Failure(ValidateContent(data).value) && View() == old(View())
      ensures data == "" ==> r == Failure(Invalid(EmptyPatch))
      ensures ByteLen(data) > MAX_PATCH_BYTES ==> r.Failure? && View() == old(View())
      ensures r.Success? ==> r.value == hash(data) && k in publishers && publishers[k] == Publisher(data, Succeeded)
      ensures r.Success? && CollisionFree(hash) ==> Load(hash, View(), r.value) == Success(data)
      ensures moments >= old(moments)
      ensures Calm(old(moments)) && data != "" && ByteLen(data) <= MAX_PATCH_BYTES ==>
              (r.Success? <==> Revision(hash(data)) !in old(names) || ReadRevision(hash, old(View()), hash(data)).Success?)
    {
      hide Inv, Kept, ReadRevision;
      ghost var start := View();
      KeptSame(start);
      var problem := ValidateContent(data);
      if problem.Some? {
        return Failure(problem.value);
      }
      var failure := Failure(PatchError(ManagedSourceWriteFailed, SourceError));
      FirstCheck(hash, View(), k, data);
      Advance(Begin(k, data), start);
      var ok := Succeeds();
      Advance(Check(k, ok), start);
      if publishers[k].phase.Creating? {
        Publish(k, start);
      }
      r := if publishers[k].phase.Succeeded? then Success(hash(data)) else failure;
      hide Load;
      if r.Success? && CollisionFree(hash) {
        SuccessLoads(hash, View(), k);
      }
    }
  }
}
