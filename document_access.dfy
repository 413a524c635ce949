/**
  The document access hook (`useDocumentAccess`): from the document's
  metadata, the signed-in user and, when needed, the user's explicit
  permission, decide whether the editor opens the document writable,
  read-only, denied, or asks the visitor to sign in. Each run of the
  effect writes the shared state cell twice: at its start and once at its
  end, unless its cleanup has cancelled it by then.
*/
module DocumentAccess {
  import opened Wrappers

  /** `AccessState`. */
  datatype AccessState = AccessState(
    permissionLoaded: bool,
    isReadOnly: bool,
    accessDenied: bool,
    isOwner: bool,
    requiresAuth: bool)

  /** The state the hook starts with. */
  const InitialState: AccessState := AccessState(false, false, false, false, false)

  /** The outcome of an awaited call: it threw, or it gave a value. */
  datatype Fetch<+T> = Thrown | Fetched(value: T)

  /** The columns `fetchDocumentMeta` selects. */
  datatype DocumentMeta = DocumentMeta(ownerId: string, isPublic: bool, publicPermission: string)

  /** What the `document_permissions` query returned: an error, or at most one row's `permission_level`. */
  datatype PermissionQuery = PermissionError | PermissionData(level: Option<string>)

  const EditorLevel: string := "editor"

  /** `fetchPermissionForUser`: a failed query reads as no permission. */
  function PermissionForUser(q: PermissionQuery): (level: Option<string>)
    ensures level.Some? <==> q.PermissionData? && q.level.Some?
    ensures level.Some? ==> level.value == q.level.value
  {
    match q
    case PermissionError => None
    case PermissionData(level) => level
  }

  /** `!currentUserEmail`: no email, or the empty string. */
  predicate NoEmail(email: Option<string>) {
    email.None? || email.value == ""
  }

  /** The states the cascade ends in. */
  const DeniedState: AccessState := AccessState(true, true, true, false, false)
  const SignInState: AccessState := AccessState(true, false, false, false, true)
  const OwnerState: AccessState := AccessState(true, false, false, true, false)
  const WritableState: AccessState := AccessState(true, false, false, false, false)
  const ReadOnlyState: AccessState := AccessState(true, true, false, false, false)

  /**
    `checkAccess`, after every awaited call: `meta` is what
    `fetchDocumentMeta` gave, `userId` the signed-in user's id, `email` the
    user's email and `permission` what `fetchPermissionForUser` gave (a
    value it only asks for when the earlier checks do not decide).
  */
  function CheckAccess(meta: Fetch<Option<DocumentMeta>>, userId: Fetch<Option<string>>,
                       email: Option<string>, permission: Fetch<Option<string>>): (s: AccessState)
    ensures s.permissionLoaded
    ensures s.accessDenied ==> s.isReadOnly
    ensures s.isOwner ==> !s.isReadOnly && !s.accessDenied
    ensures s.requiresAuth ==> !s.isReadOnly && !s.accessDenied && !s.isOwner
  {
    match meta
    case Thrown => DeniedState
    case Fetched(None) => if NoEmail(email) then SignInState else DeniedState
    case Fetched(Some(doc)) =>
      match userId
      case Thrown => DeniedState
      case Fetched(id) =>
        if id == Some(doc.ownerId) then OwnerState
        else if doc.isPublic && doc.publicPermission == EditorLevel then WritableState
        else if NoEmail(email) then ReadOnlyState
        else
          match permission
          case Thrown => DeniedState
          case Fetched(level) =>
            AccessState(true, level != Some(EditorLevel), false, false, false)
  }

  /** The signed-in user owns the document. */
  predicate IsOwnerOf(doc: DocumentMeta, userId: Option<string>) {
    userId == Some(doc.ownerId)
  }

  /** The document is public with the `editor` role. */
  predicate PublicEditor(doc: DocumentMeta) {
    doc.isPublic && doc.publicPermission == EditorLevel
  }

  /**
    When the editor opens writable: for a visitor without an email on a
    missing document (who is asked to sign in), for the owner, on a public
    `editor` document, or for a user whose explicit level is exactly `editor`.
  */
  lemma WritableExactly(meta: Fetch<Option<DocumentMeta>>, userId: Fetch<Option<string>>,
                        email: Option<string>, permission: Fetch<Option<string>>)
    ensures !CheckAccess(meta, userId, email, permission).isReadOnly <==>
      (meta == Fetched(None) && NoEmail(email))
      || (meta.Fetched? && meta.value.Some? && userId.Fetched? &&
          (IsOwnerOf(meta.value.value, userId.value)
           || PublicEditor(meta.value.value)
           || (!NoEmail(email) && permission == Fetched(Some(EditorLevel)))))
  {
  }

  /** When access is denied: any thrown error, or a missing document for a user who has an email. */
  lemma DeniedExactly(meta: Fetch<Option<DocumentMeta>>, userId: Fetch<Option<string>>,
                      email: Option<string>, permission: Fetch<Option<string>>)
    ensures CheckAccess(meta, userId, email, permission).accessDenied <==>
      meta.Thrown?
      || (meta == Fetched(None) && !NoEmail(email))
      || (meta.Fetched? && meta.value.Some? &&
          (userId.Thrown?
           || (!IsOwnerOf(meta.value.value, userId.value) && !PublicEditor(meta.value.value)
               && !NoEmail(email) && permission.Thrown?)))
  {
  }

  /** A missing document asks a visitor without an email to sign in, and denies a user with one. */
  lemma MissingDocument(userId: Fetch<Option<string>>, email: Option<string>, permission: Fetch<Option<string>>)
    ensures NoEmail(email) ==> CheckAccess(Fetched(None), userId, email, permission) == SignInState
    ensures !NoEmail(email) ==> CheckAccess(Fetched(None), userId, email, permission) == DeniedState
  {
  }

  /** The owner is recognised before public access is looked at, and can always write. */
  lemma OwnerFirst(doc: DocumentMeta, id: string, email: Option<string>, permission: Fetch<Option<string>>)
    requires id == doc.ownerId
    ensures CheckAccess(Fetched(Some(doc)), Fetched(Some(id)), email, permission) == OwnerState
  {
  }

  /** A non-owner without an email, on a document that is not public for editing, reads but is not denied. */
  lemma AnonymousReadsOnly(doc: DocumentMeta, userId: Option<string>, email: Option<string>, permission: Fetch<Option<string>>)
    requires !IsOwnerOf(doc, userId) && !PublicEditor(doc) && NoEmail(email)
    ensures CheckAccess(Fetched(Some(doc)), Fetched(userId), email, permission) == ReadOnlyState
  {
  }

  /** With an explicit lookup, only the level `editor` writes; a failed or missing lookup reads only. */
  lemma ExplicitPermission(doc: DocumentMeta, userId: Option<string>, email: Option<string>, q: PermissionQuery)
    requires !IsOwnerOf(doc, userId) && !PublicEditor(doc) && !NoEmail(email)
    ensures var s := CheckAccess(Fetched(Some(doc)), Fetched(userId), email, Fetched(PermissionForUser(q)));
      !s.accessDenied && !s.isOwner && (s.isReadOnly <==> q != PermissionData(Some(EditorLevel)))
  {
  }

  /** The state cell the hook returns, shared by every run of its effect. */
  class AccessCell {
    var state: AccessState

    constructor ()
      ensures state == InitialState
    {
      state := InitialState;
    }
  }

  /** One run of the effect, with its own `cancelled` flag. */
  class AccessCheck {
    const cell: AccessCell
    var cancelled: bool

    constructor (cell: AccessCell)
      ensures this.cell == cell && !cancelled
    {
      this.cell := cell;
      cancelled := false;
    }

    /** The start of `checkAccess`: mark the permission as not loaded, keeping the rest. */
    method Begin()
      modifies cell
      ensures cell.state == old(cell.state).(permissionLoaded := false)
    {
      cell.state := cell.state.(permissionLoaded := false);
    }

    /** The end of `checkAccess`: write the decision unless the run was cancelled. */
    method Finish(meta: Fetch<Option<DocumentMeta>>, userId: Fetch<Option<string>>,
                  email: Option<string>, permission: Fetch<Option<string>>)
      modifies cell
      ensures cancelled ==> cell.state == old(cell.state)
      ensures !cancelled ==> cell.state == CheckAccess(meta, userId, email, permission)
    {
      var outcome := CheckAccess(meta, userId, email, permission);
      if !cancelled {
        cell.state := outcome;
      }
    }

    /** The effect's cleanup. */
    method Cleanup()
      modifies this`cancelled
      ensures cancelled
    {
      cancelled := true;
    }
  }

  /**
    The document or user changes while a check is in flight: the old run is
    cleaned up and a new one starts. However the two runs' ends interleave,
    the cell ends with the new run's decision.
  */
  method Rerun(cell: AccessCell, stale: AccessCheck,
               meta: Fetch<Option<DocumentMeta>>, userId: Fetch<Option<string>>,
               email: Option<string>, permission: Fetch<Option<string>>,
               staleMeta: Fetch<Option<DocumentMeta>>, staleUserId: Fetch<Option<string>>,
               staleEmail: Option<string>, stalePermission: Fetch<Option<string>>,
               staleFinishesLast: bool)
    returns (current: AccessCheck)
    requires stale.cell == cell
    modifies cell, stale
    ensures current.cell == cell && !current.cancelled && stale.cancelled
    ensures cell.state == CheckAccess(meta, userId, email, permission)
  {
    stale.Cleanup();
    current := new AccessCheck(cell);
    current.Begin();
    if staleFinishesLast {
      current.Finish(meta, userId, email, permission);
      stale.Finish(staleMeta, staleUserId, staleEmail, stalePermission);
    } else {
      stale.Finish(staleMeta, staleUserId, staleEmail, stalePermission);
      current.Finish(meta, userId, email, permission);
    }
  }
}
