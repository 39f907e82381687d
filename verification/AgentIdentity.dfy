/**
 * Agent identity changes: the display name kept in three files of a profile,
 * changed in transactions that leave a backup each, and the undo stack the
 * backups form.
 */
module AgentIdentity {
  import opened FileTransactions
  import opened ManagedBlock
  import opened Text
  import opened Wrappers

  type OperationId = string
  type SessionId = string

  const MAX_SAFE_INTEGER := 0x1F_FFFF_FFFF_FFFF

  datatype Meta = Meta(name: Option<string>, rest: map<string, string>)

  datatype SessionMark = SessionMark(revision: nat, updatedAt: string)

  datatype IdentityState = IdentityState(
    revision: nat,
    displayName: string,
    updatedAt: string,
    sessions: map<SessionId, SessionMark>)

  datatype Before = Before(profileMeta: Option<Content>, soul: Option<Content>, identityState: Option<Content>)

  datatype Backup = Backup(operationId: OperationId, profileId: string, afterRevision: nat, before: Before)

  datatype Doc = MetaDoc(meta: Meta) | StateDoc(state: IdentityState) | BackupDoc(backup: Backup)

  /** A file's content: plain text, or a JSON document together with how it is laid out. */
  datatype Content = Raw(text: string) | Json(doc: Doc, layout: string)

  datatype Path = MetaPath | SoulPath | StatePath | BackupPath(operationId: OperationId)

  type Files = Disk<Path, Content>

  datatype Identity = Identity(displayName: string, revision: nat, updatedAt: string)

  datatype IdentityError =
    | NameRequired
    | NameTooLong
    | ControlText
    | ReservedText
    | ClockInvalid
    | StateCorrupt
    | MetaCorrupt
    | SoulCorrupt
    | OperationInvalid
    | OperationExists
    | SessionInvalid
    | BackupMissing
    | BackupCorrupt
    | BackupMismatch
    | NotLatest
    | WriteFailed
    | RollbackFailed

  type Answer = Result<Identity, IdentityError>

  // ---------------------------------------------------------------------
  // Names and identifiers
  // ---------------------------------------------------------------------

  function CollapseSpaces(s: string): (r: string)
    ensures s == [] <==> r == []
    ensures s != [] && !IsSpace(s[0]) ==> r[0] == s[0]
  {
    if s == [] then []
    else if IsSpace(s[0]) then " " + CollapseSpaces(s[SpaceEnd(s)..])
    else [s[0]] + CollapseSpaces(s[1..])
  }

  predicate IsControl(c: char) {
    c < ' ' || '\U{007F}' <= c <= '\U{009F}' || c == '\U{2028}' || c == '\U{2029}'
  }

  /** Name normalization of a text that is already in compatibility form. */
  function NormalizeDisplayName(value: string): (r: Result<string, IdentityError>)
    ensures r.Ok? ==> r.value != "" && PlainName(r.value)
  {
    var name := CollapseSpaces(Trim(value));
    if name == "" then Err(NameRequired)
    else if |name| > 80 then Err(NameTooLong)
    else if exists i :: 0 <= i < |name| && IsControl(name[i]) then Err(ControlText)
    else if Includes(name, "<!--") || Includes(name, "-->") then Err(ReservedText)
    else Ok(name)
  }

  /** Single plain spaces between words, none at the ends. */
  predicate Spaced(s: string) {
    && (forall i :: 0 <= i < |s| && IsSpace(s[i]) ==> s[i] == ' ')
    && (forall i :: 0 <= i < |s| - 1 && IsSpace(s[i]) ==> !IsSpace(s[i + 1]))
  }

  lemma SpacedInFront(c: char, rest: string)
    requires Spaced(rest) && (IsSpace(c) ==> c == ' ' && (rest != [] ==> !IsSpace(rest[0])))
    ensures Spaced([c] + rest)
  {
    hide IsSpace;
  }

  lemma EndsAlike(s: string, n: nat)
    requires n < |s|
    ensures s[n..] != [] && s[n..][|s[n..]| - 1] == s[|s| - 1]
  {
  }

  lemma {:induction false} CollapseIsSpaced(s: string)
    ensures Spaced(CollapseSpaces(s))
    ensures s != [] && !IsSpace(s[|s| - 1]) ==> !IsSpace(CollapseSpaces(s)[|CollapseSpaces(s)| - 1])
  {
    hide Spaced, IsSpace;
    if s == [] {
      NothingIsSpaced();
    } else {
      BlankIsSpace();
      var n := if IsSpace(s[0]) then SpaceEnd(s) else 1;
      var head := if IsSpace(s[0]) then ' ' else s[0];
      var rest := CollapseSpaces(s[n..]);
      CollapseIsSpaced(s[n..]);
      SpacedInFront(head, rest);
      assert CollapseSpaces(s) == [head] + rest;
      if n < |s| {
        EndsAlike(s, n);
      }
    }
  }

  lemma NothingIsSpaced()
    ensures Spaced("")
  {
  }

  lemma BlankIsSpace()
    ensures IsSpace(' ')
  {
  }

  lemma {:induction false} SpacedCollapses(s: string)
    requires Spaced(s)
    ensures CollapseSpaces(s) == s
  {
    if s != [] {
      var k := SpaceEnd(s);
      assert IsSpace(s[0]) ==> k == 1 by {
        if IsSpace(s[0]) && |s| > 1 {
          assert !IsSpace(s[0 + 1]);
        }
      }
      forall i | 0 <= i < |s[1..]|
        ensures s[1..][i] == s[i + 1]
      {
      }
      assert Spaced(s[1..]);
      SpacedCollapses(s[1..]);
    }
  }

  /** Normalizing a normalized name changes nothing, so a stored name survives the undo that reads it back. */
  lemma NormalizedNamesAreFixed(value: string)
    ensures
      var r := NormalizeDisplayName(value);
      r.Ok? ==> NormalizeDisplayName(r.value) == r
  {
    hide CollapseSpaces, Trim, Includes, IsControl, PlainName;
    var t := Trim(value);
    CollapsedIsFixed(t);
  }

  /** Collapsing a trimmed text leaves one that trimming and collapsing do not change. */
  lemma CollapsedIsFixed(t: string)
    requires t == [] || (!IsSpace(t[0]) && !IsSpace(t[|t| - 1]))
    ensures CollapseSpaces(Trim(CollapseSpaces(t))) == CollapseSpaces(t)
  {
    hide CollapseSpaces, Trim, Spaced;
    var name := CollapseSpaces(t);
    CollapseIsSpaced(t);
    SpacedCollapses(name);
    TrimKeeps(name);
  }

  predicate AlphaNumeric(c: char) {
    'A' <= c <= 'Z' || 'a' <= c <= 'z' || '0' <= c <= '9'
  }

  predicate ValidOperationId(id: OperationId) {
    && 1 <= |id| <= 128
    && AlphaNumeric(id[0])
    && forall i :: 1 <= i < |id| ==> AlphaNumeric(id[i]) || id[i] in "._-"
  }

  predicate ValidSessionId(id: SessionId) {
    && 1 <= |id| <= 512
    && forall i :: 0 <= i < |id| ==> !(id[i] < ' ' || '\U{007F}' <= id[i] <= '\U{009F}')
  }

  // ---------------------------------------------------------------------
  // Reading
  // ---------------------------------------------------------------------

  const FRESH := IdentityState(0, "", "", map[])

  predicate SafeState(state: IdentityState) {
    && state.revision <= MAX_SAFE_INTEGER
    && forall s :: s in state.sessions ==> state.sessions[s].revision <= MAX_SAFE_INTEGER
  }

  function ParseState(content: Content): Result<IdentityState, IdentityError> {
    if content.Json? && content.doc.StateDoc? && SafeState(content.doc.state) then Ok(content.doc.state)
    else Err(StateCorrupt)
  }

  function ReadState(files: Files): Result<IdentityState, IdentityError> {
    if StatePath in files then ParseState(files[StatePath]) else Ok(FRESH)
  }

  function ReadMeta(files: Files): Result<Meta, IdentityError> {
    if MetaPath !in files then Ok(Meta(None, map[]))
    else if files[MetaPath].Json? && files[MetaPath].doc.MetaDoc? then Ok(files[MetaPath].doc.meta)
    else Err(MetaCorrupt)
  }

  function ReadBackup(files: Files, id: OperationId): Result<Backup, IdentityError> {
    if BackupPath(id) !in files then Err(BackupMissing)
    else
      var c := files[BackupPath(id)];
      if c.Json? && c.doc.BackupDoc? && c.doc.backup.afterRevision <= MAX_SAFE_INTEGER then Ok(c.doc.backup)
      else Err(BackupCorrupt)
  }

  function TextOf(content: Content): string {
    if content.Raw? then content.text else content.layout
  }

  function SoulText(files: Files): string {
    if SoulPath in files then TextOf(files[SoulPath]) else ""
  }

  function Serialized(doc: Doc): Content {
    Json(doc, "")
  }

  // ---------------------------------------------------------------------
  // Operations
  // ---------------------------------------------------------------------

  type Attempts = a: seq<Attempt<Content>> | |a| == 4 witness [Succeeds, Succeeds, Succeeds, Succeeds]

  function BeforeOf(files: Files): Before {
    Before(Get(files, MetaPath), Get(files, SoulPath), Get(files, StatePath))
  }

  function BackupOf(files: Files, profileId: string, id: OperationId, afterRevision: nat): Content {
    Serialized(BackupDoc(Backup(id, profileId, afterRevision, BeforeOf(files))))
  }

  /** The four files of a change, in the order they are written. */
  function ChangeFiles(
    backupId: OperationId, backup: Option<Content>, meta: Option<Content>, soul: Option<Content>, state: Option<Content>)
    : (files: seq<Mutation<Path, Content>>)
    ensures |files| == 4 && DistinctPaths(files)
  {
    [Mutation(BackupPath(backupId), backup), Mutation(MetaPath, meta), Mutation(SoulPath, soul), Mutation(StatePath, state)]
  }

  function RollbackFiles(backupId: OperationId, before: Before): (files: seq<Mutation<Path, Content>>)
    ensures |files| == 4 && DistinctPaths(files)
  {
    [Mutation(MetaPath, before.profileMeta), Mutation(SoulPath, before.soul),
     Mutation(StatePath, before.identityState), Mutation(BackupPath(backupId), None)]
  }

  /** A checked change, ready to be written. */
  datatype Plan = Plan(
    operationId: OperationId,
    backup: Content,
    profileMeta: Option<Content>,
    soul: Option<Content>,
    state: IdentityState)

  /** Writes a plan as one transaction, or reports why there is none. */
  function Carry(files: Files, plan: Result<Plan, IdentityError>, writes: Attempts, restores: Attempts): (Files, Answer) {
    match plan
    case Err(e) => (files, Err(e))
    case Ok(p) =>
      var list := ChangeFiles(p.operationId, Some(p.backup), p.profileMeta, p.soul, Some(Serialized(StateDoc(p.state))));
      var t := Transact(files, list, writes, restores);
      (t.0,
       match t.1
       case Committed => Ok(Identity(p.state.displayName, p.state.revision, p.state.updatedAt))
       case Compensated => Err(WriteFailed)
       case PartlyCompensated => Err(RollbackFailed))
  }

  function Renamed(state: IdentityState, name: string, at: string): IdentityState {
    state.(revision := state.revision + 1, displayName := name, updatedAt := at)
  }

  /** The checks of a rename, in order. */
  ghost function PlanRename(
    files: Files, profileId: string, rawName: string, clock: Option<string>, operationId: OperationId)
    : Result<Plan, IdentityError>
  {
    match NormalizeDisplayName(rawName)
    case Err(e) => Err(e)
    case Ok(name) =>
      if clock.None? then Err(ClockInvalid)
      else
        match ReadState(files)
        case Err(e) => Err(e)
        case Ok(state) =>
          if !ValidOperationId(operationId) then Err(OperationInvalid)
          else
            match ReadMeta(files)
            case Err(e) => Err(e)
            case Ok(meta) =>
              match Updated(SoulText(files), name, state.revision + 1)
              case Err(_) => Err(SoulCorrupt)
              case Ok(soul) =>
                if BackupPath(operationId) in files then Err(OperationExists)
                else
                  Ok(Plan(
                    operationId,
                    BackupOf(files, profileId, operationId, state.revision + 1),
                    Some(Serialized(MetaDoc(meta.(name := Some(name))))),
                    Some(Raw(soul)),
                    Renamed(state, name, clock.value)))
  }

  ghost function SetDisplayName(
    files: Files, profileId: string, rawName: string, clock: Option<string>, operationId: OperationId,
    writes: Attempts, restores: Attempts): (Files, Answer)
  {
    Carry(files, PlanRename(files, profileId, rawName, clock, operationId), writes, restores)
  }

  /** The name a backup restores: the metadata's, else the identity state's, else none. */
  function DisplayNameFromBackup(before: Before): Result<string, IdentityError> {
    match NameInMeta(before.profileMeta)
    case Err(e) => Err(e)
    case Ok(Some(name)) => NormalizeDisplayName(name)
    case Ok(None) =>
      match before.identityState
      case None => Ok("")
      case Some(content) =>
        match ParseState(content)
        case Err(e) => Err(BackupCorrupt)
        case Ok(state) => if state.displayName != "" then NormalizeDisplayName(state.displayName) else Ok("")
  }

  function NameInMeta(content: Option<Content>): Result<Option<string>, IdentityError> {
    match content
    case None => Ok(None)
    case Some(c) =>
      if !(c.Json? && c.doc.MetaDoc?) then Err(BackupCorrupt)
      else if c.doc.meta.name.Some? && !Blank(c.doc.meta.name.value) then Ok(c.doc.meta.name)
      else Ok(None)
  }

  function TextOption(content: Option<Content>): Option<string> {
    if content.Some? then Some(TextOf(content.value)) else None
  }

  function ContentOption(text: Option<string>): Option<Content> {
    if text.Some? then Some(Raw(text.value)) else None
  }

  /** An undo or a rollback is for the latest change of this profile only. */
  function AcceptedBackup(files: Files, profileId: string, operationId: OperationId)
    : Result<(Backup, IdentityState), IdentityError>
  {
    if !ValidOperationId(operationId) then Err(OperationInvalid)
    else
      match ReadBackup(files, operationId)
      case Err(e) => Err(e)
      case Ok(backup) =>
        if backup.profileId != profileId || backup.operationId != operationId then Err(BackupMismatch)
        else
          match ReadState(files)
          case Err(e) => Err(e)
          case Ok(state) => if state.revision != backup.afterRevision then Err(NotLatest) else Ok((backup, state))
  }

  /** The checks of an undo, in order: what it writes is a change of its own. */
  ghost function PlanUndo(
    files: Files, profileId: string, target: OperationId, clock: Option<string>, undoId: OperationId)
    : Result<Plan, IdentityError>
  {
    match AcceptedBackup(files, profileId, target)
    case Err(e) => Err(e)
    case Ok((backup, state)) =>
      if clock.None? then Err(ClockInvalid)
      else
        match DisplayNameFromBackup(backup.before)
        case Err(e) => Err(e)
        case Ok(name) =>
          if !ValidOperationId(undoId) then Err(OperationInvalid)
          else if BackupPath(undoId) in files then Err(OperationExists)
          else
            match Restored(TextOption(backup.before.soul), name, state.revision + 1)
            case Err(_) => Err(SoulCorrupt)
            case Ok(soul) =>
              Ok(Plan(
                undoId,
                BackupOf(files, profileId, undoId, state.revision + 1),
                backup.before.profileMeta,
                ContentOption(soul),
                Renamed(state, name, clock.value)))
  }

  ghost function UndoDisplayName(
    files: Files, profileId: string, target: OperationId, clock: Option<string>, undoId: OperationId,
    writes: Attempts, restores: Attempts): (Files, Answer)
  {
    Carry(files, PlanUndo(files, profileId, target, clock, undoId), writes, restores)
  }

  function RollbackDisplayName(
    files: Files, profileId: string, target: OperationId, writes: Attempts, restores: Attempts)
    : (Files, Result<(), IdentityError>)
  {
    match AcceptedBackup(files, profileId, target)
    case Err(e) => (files, Err(e))
    case Ok((backup, state)) =>
      var t := Transact(files, RollbackFiles(target, backup.before), writes, restores);
      (t.0,
       match t.1
       case Committed => Ok(())
       case Compensated => Err(WriteFailed)
       case PartlyCompensated => Err(RollbackFailed))
  }

  /** The state a session record writes; `kept` are the sessions that survive pruning. */
  function Recorded(state: IdentityState, session: SessionId, at: string, kept: set<SessionId>): IdentityState {
    var sessions := state.sessions[session := SessionMark(state.revision, at)];
    state.(sessions := map s | s in sessions && s in kept :: sessions[s])
  }

  function RecordSession(
    files: Files, session: SessionId, clock: Option<string>, kept: set<SessionId>, write: Attempt<Content>)
    : (Files, Result<(), IdentityError>)
  {
    if !ValidSessionId(session) then (files, Err(SessionInvalid))
    else
      match ReadState(files)
      case Err(e) => (files, Err(e))
      case Ok(state) =>
        if clock.None? then (files, Err(ClockInvalid))
        else
          var content := Serialized(StateDoc(Recorded(state, session, clock.value, kept)));
          (Perform(files, Mutation(StatePath, Some(content)), write),
           if write.Succeeds? then Ok(()) else Err(WriteFailed))
  }

  /** The session a chat may resume: one recorded for the current revision, or any before the first change. */
  function ResolveResumeSessionId(files: Files, session: SessionId): Option<SessionId> {
    if !ValidSessionId(session) then None
    else
      match ReadState(files)
      case Err(_) => None
      case Ok(state) =>
        if session !in state.sessions then (if state.revision == 0 then Some(session) else None)
        else if state.sessions[session].revision == state.revision then Some(session)
        else None
  }
}
