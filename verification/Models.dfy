/** The controlled outcomes shared by every component: statuses, reason codes and errors. */
module Models {

  datatype Option<+T> = None | Some(value: T)

  datatype Result<+T> = Success(value: T) | Failure(error: PatchError)

  datatype Status =
    | Unknown
    | Disabled
    | Applicable
    | Applied
    | Conflict
    | MissingTarget
    | SourceError
    | InvalidPatch
    | SecurityError
    | ApplyError

  /** The reason codes of the modelled components, one constructor per code. */
  datatype Reason =
    // patch definitions
    | RequiredField | TargetOutsideWatchRoot | PatternMissesTarget | SourceIsTarget | InvalidSourceType
    | InvalidSourceUrl | InvalidBoolean | InvalidDebounce | InvalidSourceHash
    // patch engine and builder
    | SizeLimit | UnsupportedEncoding | MixedEndings | UnsafePath | HeaderTargetMismatch
    | InvalidHeaders | InvalidHunk | UnanchoredHunk | InvalidNewlineMarker | InvalidHunkBody
    | HunkCountMismatch | NoChange | UnterminatedDiff | OverlappingHunks | NoHunks | ParserRejected | NumeralTooLong
    | AmbiguousDirection | ContextNotUnique
    | EditorEmpty | EditorTextFormat | EditorUnchanged | EditorContextNotUnique | ProtectedPath
    // transaction
    | TargetMissing | UnsafeFile | TargetChanged | BackupFailed | BackupPruneFailed | CommitFailed
    | DurabilityUnconfirmed | FilesystemError | DisabledPatch | NotApplied | DirectoryChanged
    // runtime
    | UnknownPatch | RuntimeReloading | RuntimeClosing | RevertMetadataUnavailable | HaPathNotAllowed
    | SourceHashRequired
    // managed source
    | SourceTooLarge | EmptyPatch | InvalidManagedSource | SourceHashMismatch
    | ManagedSourceUnavailable | ManagedSourceWriteFailed
    // everything a policy or a source adapter may report
    | OtherReason

  datatype PatchError = PatchError(reason: Reason, status: Status)

  /** The default status of an error raised without one. */
  function Invalid(reason: Reason): PatchError {
    PatchError(reason, InvalidPatch)
  }

  datatype Action = Reconcile | Apply | Revert | RefreshSource

  datatype PatchDefinition = PatchDefinition(
    patchId: string,
    name: string,
    targetPath: string,
    watchRoot: string,
    watchPattern: string,
    sourceType: string,
    source: string,
    enabled: bool,
    autoApply: bool,
    reconcileOnStartup: bool,
    backupBeforeApply: bool,
    debounceSeconds: real,
    sourceSha256: Option<string>)

  datatype PatchInspection =
    PatchInspection(status: Status, reason: Option<Reason>, forward: Option<string>, reverse: Option<string>)

  const MAX_PATCH_BYTES: nat := 2 * 1024 * 1024
  const MAX_TARGET_BYTES: nat := 16 * 1024 * 1024
  const MAX_EDITOR_BYTES: nat := 512 * 1024
}
