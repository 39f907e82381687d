/** What a rename, an undo and a session record leave on the disk and answer, and exactly when they work. */
module IdentityChanges {
  import opened AgentIdentity
  import opened FileTransactions
  import opened IdentityHistory
  import opened ManagedBlock
  import opened Text
  import opened Wrappers

  // ---------------------------------------------------------------------
  // Reading a block back
  // ---------------------------------------------------------------------

  predicate Digits(s: string) {
    forall i :: 0 <= i < |s| ==> '0' <= s[i] <= '9'
  }

  /** The number a text of decimal digits stands for. */
  function DecimalValue(digits: string): nat
    requires Digits(digits)
  {
    if digits == "" then 0
    else DecimalValue(digits[..|digits| - 1]) * 10 + (digits[|digits| - 1] - '0') as nat
  }

  lemma {:induction false} DecimalRoundTrip(n: nat)
    ensures Digits(Decimal(n)) && DecimalValue(Decimal(n)) == n
  {
    if n >= 10 {
      DecimalRoundTrip(n / 10);
      assert Decimal(n)[..|Decimal(n)| - 1] == Decimal(n / 10);
    }
  }

  /** The digits a text ends with. */
  function LastDigits(s: string): (digits: string)
    ensures Digits(digits)
  {
    if s != "" && '0' <= s[|s| - 1] <= '9' then LastDigits(s[..|s| - 1]) + [s[|s| - 1]] else ""
  }

  lemma {:induction false} LastDigitsFound(front: string, digits: string)
    requires Digits(digits) && front != "" && !('0' <= front[|front| - 1] <= '9')
    ensures LastDigits(front + digits) == digits
  {
    var s := front + digits;
    if digits == "" {
      assert s == front;
    } else {
      assert s[..|s| - 1] == front + digits[..|digits| - 1];
      LastDigitsFound(front, digits[..|digits| - 1]);
    }
  }

  /** The revision a block states: the number at the end of its last line but one. */
  function RevisionIn(block: string): nat
    requires |block| >= |END| + 2
  {
    DecimalValue(LastDigits(block[..|block| - |END| - 2]))
  }

  /** The name a block states: what stands between the quotes that follow its heading, on that line. */
  function NameIn(block: string): string
    requires |block| >= |BEGIN| + |HEADING|
  {
    var start := |BEGIN| + |HEADING|;
    var line := IndexOf(block, "\n", start);
    if line >= start + 2 then block[start..line - 2] else ""
  }

  lemma BreakAt(s: string, i: nat)
    ensures At(s, "\n", i) <==> i < |s| && s[i] == '\n'
  {
    if i < |s| {
      assert s[i..i + 1] == [s[i]];
    }
  }

  lemma NextBreak(s: string, from: nat, line: nat)
    requires from <= line < |s| && s[line] == '\n' && forall i :: from <= i < line ==> s[i] != '\n'
    ensures IndexOf(s, "\n", from) == line
  {
    hide At, IndexOf;
    BreakAt(s, line);
    forall i | from <= i < line
      ensures !At(s, "\n", i)
    {
      BreakAt(s, i);
    }
  }

  lemma NameFound(pre: string, name: string, quote: char, post: string)
    requires '\n' !in name && quote != '\n' && |post| >= 2 && post[0] != '\n' && post[1] == '\n'
    ensures
      var s := pre + (name + ([quote] + post));
      IndexOf(s, "\n", |pre|) == |pre| + |name| + 2 && s[|pre|..|pre| + |name|] == name
  {
    hide IndexOf;
    LineOf(pre, name, quote, post);
    NextBreak(pre + (name + ([quote] + post)), |pre|, |pre| + |name| + 2);
  }

  lemma LineOf(pre: string, name: string, quote: char, post: string)
    requires '\n' !in name && quote != '\n' && |post| >= 2 && post[0] != '\n' && post[1] == '\n'
    ensures
      var s, line := pre + (name + ([quote] + post)), |pre| + |name| + 2;
      && line < |s| && s[line] == '\n' && (forall i :: |pre| <= i < line ==> s[i] != '\n')
      && s[|pre|..|pre| + |name|] == name
  {
    var s := pre + (name + ([quote] + post));
    assert forall i :: 0 <= i < |name| ==> s[|pre| + i] == name[i];
    forall i | |pre| <= i < |pre| + |name|
      ensures s[i] != '\n'
    {
      assert s[i] == name[i - |pre|];
      assert name[i - |pre|] in name;
    }
  }

  lemma Regrouped(b: string, h: string, n: string, q: string, a: string, c: string, d: string, l: string, e: string)
    ensures b + (h + n + q + a + c + d + l) + e == (b + h) + (n + (q + (a + c + d + l + e)))
    ensures b + (h + n + q + a + c + d + l) + e == (b + h + n + q + a + c + d) + (l + e)
  {
    assert b + (h + n + q + a + c + d + l) + e == (b + h) + (n + (q + (a + c + d + l + e)));
    assert b + (h + n + q + a + c + d + l) + e == (b + h + n + q + a + c + d) + (l + e);
  }

  lemma Constants()
    ensures |ADVICE| >= 2 && ADVICE[0] != '\n' && ADVICE[1] == '\n'
    ensures SCOPE != "" && SCOPE[|SCOPE| - 1] == ' '
    ensures |BEGIN| > 0 && |END| > 0 && CLOSING_QUOTE != '\n'
  {
  }

  /** A block states exactly the name and the revision it was made for. */
  lemma BlockStates(name: string, revision: nat)
    requires '\n' !in name
    ensures
      var block := IdentityBlock(name, revision);
      && |block| >= |BEGIN| + |HEADING| && |block| >= |END| + 2
      && NameIn(block) == name && RevisionIn(block) == revision
  {
    Constants();
    DecimalRoundTrip(revision);
    var block := IdentityBlock(name, revision);
    var b, h, q, a, c, d, l, e := BEGIN, HEADING, [CLOSING_QUOTE], ADVICE, SCOPE, Decimal(revision), ".\n", END;
    hide Decimal, BEGIN, END, HEADING, ADVICE, SCOPE, CLOSING_QUOTE;
    assert block == b + (h + name + q + a + c + d + l) + e;
    hide IdentityBlock, Middle;
    Regrouped(b, h, name, q, a, c, d, l, e);
    NameFound(b + h, name, q[0], a + c + d + l + e);
    assert NameIn(block) == name;
    var front := b + h + name + q + a + c;
    assert front[|front| - 1] == ' ';
    LastDigitsFound(front, d);
    assert block[..|block| - |e| - 2] == front + d;
  }

  // ---------------------------------------------------------------------
  // SOUL after a change
  // ---------------------------------------------------------------------

  ghost predicate States(block: string, name: string, revision: nat) {
    && |block| >= |BEGIN| + |HEADING| && |block| >= |END| + 2
    && NameIn(block) == name && RevisionIn(block) == revision
  }

  /** What stands around the block: the text outside the old one, or all of a text that had none, from its first visible character on. */
  ghost predicate Surrounds(soul: string, pre: string, post: string) {
    if Unmarked(soul) then pre == "" && post == Remainder(soul)
    else exists start: int, end: int {:trigger IsPair(soul, start, end)} ::
      IsPair(soul, start, end) && pre == soul[..start] && post == soul[end + |END|..]
  }

  /** The text has exactly one block, which states the name and the revision, and keeps what was outside. */
  ghost predicate Rewrites(soul: string, after: string, name: string, revision: nat) {
    exists pre: string, block: string, post: string {:trigger pre + block + post} ::
      && after == pre + block + post
      && States(block, name, revision)
      && IsPair(after, |pre|, |pre| + |block| - |END|)
      && Surrounds(soul, pre, post)
  }

  lemma UpdateRewrites(soul: string, name: string, revision: nat)
    requires Accepted(soul) && PlainName(name) && '\n' !in name
    ensures Updated(soul, name, revision).Ok? && Rewrites(soul, Updated(soul, name, revision).value, name, revision)
  {
    hide Updated, IdentityBlock, PlainName, At, Places, NameIn, RevisionIn;
    BlockStates(name, revision);
    var block := IdentityBlock(name, revision);
    if Unmarked(soul) {
      UpdateInsertsOnePair(soul, name, revision);
      assert "" + block + Remainder(soul) == block + Remainder(soul);
    } else {
      var start: int, end: int :| IsPair(soul, start, end);
      UpdateReplacesThePair(soul, start, end, name, revision);
      PairBounds(soul, start, end);
      assert Surrounds(soul, soul[..start], soul[end + |END|..]);
    }
  }

  // ---------------------------------------------------------------------
  // Renaming
  // ---------------------------------------------------------------------

  lemma NormalizedIsOneLine(raw: string)
    requires NormalizeDisplayName(raw).Ok?
    ensures '\n' !in NormalizeDisplayName(raw).value
  {
    hide CollapseSpaces, Trim, Includes;
    var name := CollapseSpaces(Trim(raw));
    assert forall i :: 0 <= i < |name| ==> !IsControl(name[i]);
  }

  /** The checks of a rename, each one something its caller can look up beforehand. */
  ghost predicate Renamable(files: Files, raw: string, clock: Option<string>, id: OperationId) {
    && NormalizeDisplayName(raw).Ok? && clock.Some?
    && ReadState(files).Ok? && ReadMeta(files).Ok? && Accepted(SoulText(files))
    && ValidOperationId(id) && BackupPath(id) !in files
  }

  lemma RenamablePlans(files: Files, profileId: string, raw: string, clock: Option<string>, id: OperationId)
    ensures PlanRename(files, profileId, raw, clock, id).Ok? <==> Renamable(files, raw, clock, id)
  {
    hide NormalizeDisplayName, ReadState, ReadMeta, ValidOperationId, Accepted, Updated, SoulText, BackupOf;
    if NormalizeDisplayName(raw).Ok? && ReadState(files).Ok? {
      UpdateAcceptedExactly(SoulText(files), NormalizeDisplayName(raw).value, ReadState(files).value.revision + 1);
    }
  }

  /** A planned change works exactly if every write does; otherwise it reports whether all files could be put back. */
  lemma CarriedExactly(files: Files, plan: Plan, writes: Attempts, restores: Attempts)
    ensures
      var r := Carry(files, Ok(plan), writes, restores);
      && (AllSucceed(writes) ==>
            && r.1 == Ok(Identity(plan.state.displayName, plan.state.revision, plan.state.updatedAt))
            && Get(r.0, MetaPath) == plan.profileMeta
            && Get(r.0, SoulPath) == plan.soul
            && Get(r.0, StatePath) == Some(Serialized(StateDoc(plan.state)))
            && Get(r.0, BackupPath(plan.operationId)) == Some(plan.backup))
      && (!AllSucceed(writes) ==> r.1 == Err(if AllSucceed(restores) then WriteFailed else RollbackFailed))
      && (!AllSucceed(writes) && AllSucceed(restores) ==> r.0 == files)
  {
    var state := Some(Serialized(StateDoc(plan.state)));
    var list := ChangeFiles(plan.operationId, Some(plan.backup), plan.profileMeta, plan.soul, state);
    ChangeTransaction(files, plan.operationId, Some(plan.backup), plan.profileMeta, plan.soul, state, writes, restores);
    CommittedExactly(files, list, writes);
  }

  /** A rename works exactly if its checks pass and its writes work; what fails cleanly changes nothing. */
  lemma RenameWorksExactly(
    files: Files, profileId: string, raw: string, clock: Option<string>, id: OperationId, writes: Attempts, restores: Attempts)
    ensures
      var r := SetDisplayName(files, profileId, raw, clock, id, writes, restores);
      && (r.1.Ok? <==> Renamable(files, raw, clock, id) && AllSucceed(writes))
      && (!Renamable(files, raw, clock, id) || (!AllSucceed(writes) && AllSucceed(restores)) ==> r.0 == files)
      && (r.1 == Err(WriteFailed) <==> Renamable(files, raw, clock, id) && !AllSucceed(writes) && AllSucceed(restores))
      && (r.1 == Err(RollbackFailed) <==> Renamable(files, raw, clock, id) && !AllSucceed(writes) && !AllSucceed(restores))
  {
    hide Carry, Renamable, AllSucceed;
    RenamablePlans(files, profileId, raw, clock, id);
    PlanErrors(files, profileId, raw, clock, id);
    if Renamable(files, raw, clock, id) {
      CarriedExactly(files, PlanRename(files, profileId, raw, clock, id).value, writes, restores);
    } else {
      RefusedUntouched(files, PlanRename(files, profileId, raw, clock, id), writes, restores);
    }
  }

  lemma RefusedUntouched(files: Files, plan: Result<Plan, IdentityError>, writes: Attempts, restores: Attempts)
    requires plan.Err?
    ensures Carry(files, plan, writes, restores) == (files, Err(plan.error))
  {
  }

  lemma PlanErrors(files: Files, profileId: string, raw: string, clock: Option<string>, id: OperationId)
    ensures
      var plan := PlanRename(files, profileId, raw, clock, id);
      plan.Err? ==> plan.error != WriteFailed && plan.error != RollbackFailed
  {
    hide ValidOperationId, Updated, SoulText, BackupOf, CollapseSpaces, Trim, Includes;
  }

  /**
   * After a rename that works, the metadata has the normalized name and every other
   * field as before, the identity state has that name, the next revision, the clock's
   * time and the sessions as before, SOUL has exactly one block, which states the name
   * and the revision, with the text outside it kept, and the answer names all three.
   */
  lemma RenameWrites(
    files: Files, profileId: string, raw: string, clock: Option<string>, id: OperationId, writes: Attempts, restores: Attempts)
    requires SetDisplayName(files, profileId, raw, clock, id, writes, restores).1.Ok?
    ensures Renamable(files, raw, clock, id)
    ensures
      var r := SetDisplayName(files, profileId, raw, clock, id, writes, restores);
      var name, revision, at := NormalizeDisplayName(raw).value, ReadState(files).value.revision + 1, clock.value;
      && r.1 == Ok(Identity(name, revision, at))
      && ReadMeta(r.0) == Ok(Meta(Some(name), ReadMeta(files).value.rest))
      && Get(r.0, StatePath) == Some(Serialized(StateDoc(IdentityState(revision, name, at, ReadState(files).value.sessions))))
      && Rewrites(SoulText(files), SoulText(r.0), name, revision)
  {
    hide Carry, Renamable, AllSucceed, NormalizeDisplayName, ValidOperationId, ReadState, Rewrites, Updated, Accepted;
    RenameWorksExactly(files, profileId, raw, clock, id, writes, restores);
    RenamablePlans(files, profileId, raw, clock, id);
    var plan := PlanRename(files, profileId, raw, clock, id).value;
    CarriedExactly(files, plan, writes, restores);
    RenameReads(files, profileId, raw, clock, id);
    NormalizedIsOneLine(raw);
    UpdateRewrites(SoulText(files), NormalizeDisplayName(raw).value, ReadState(files).value.revision + 1);
  }

  lemma RenameReads(files: Files, profileId: string, raw: string, clock: Option<string>, id: OperationId)
    requires Renamable(files, raw, clock, id)
    ensures NormalizeDisplayName(raw).Ok? && clock.Some? && ReadState(files).Ok? && ReadMeta(files).Ok? && Accepted(SoulText(files))
  {
  }

  // ---------------------------------------------------------------------
  // Undoing and rolling back
  // ---------------------------------------------------------------------

  /** The backup is this profile's own, for the revision the identity is at. */
  predicate Latest(files: Files, profileId: string, id: OperationId) {
    && ValidOperationId(id) && ReadBackup(files, id).Ok? && ReadState(files).Ok?
    && ReadBackup(files, id).value.profileId == profileId && ReadBackup(files, id).value.operationId == id
    && ReadBackup(files, id).value.afterRevision == ReadState(files).value.revision
  }

  lemma AcceptedExactly(files: Files, profileId: string, id: OperationId)
    ensures
      var r := AcceptedBackup(files, profileId, id);
      && (r.Ok? <==> Latest(files, profileId, id))
      && (r.Ok? ==> r.value == (ReadBackup(files, id).value, ReadState(files).value))
      && (r.Err? ==> r.error != WriteFailed && r.error != RollbackFailed)
  {
    hide ValidOperationId;
  }

  /** SOUL's snapshot can be brought back: it had no block, or one pair of markers and there is a name for it. */
  ghost predicate Restorable(soul: Option<string>, name: string) {
    soul.None? || Unmarked(soul.value) || (Marked(soul.value) && name != "")
  }

  lemma RestorableExactly(soul: Option<string>, name: string, revision: nat)
    ensures Restored(soul, name, revision).Ok? <==> Restorable(soul, name)
  {
    hide Unmarked, Marked, Updated;
    if soul.Some? {
      UpdateAcceptedExactly(soul.value, name, revision);
    }
  }

  ghost predicate Undoable(files: Files, profileId: string, target: OperationId, clock: Option<string>, undoId: OperationId) {
    && Latest(files, profileId, target) && clock.Some?
    && ValidOperationId(undoId) && BackupPath(undoId) !in files
    && var before := ReadBackup(files, target).value.before;
       && DisplayNameFromBackup(before).Ok?
       && Restorable(TextOption(before.soul), DisplayNameFromBackup(before).value)
  }

  lemma UndoablePlans(files: Files, profileId: string, target: OperationId, clock: Option<string>, undoId: OperationId)
    ensures
      var plan := PlanUndo(files, profileId, target, clock, undoId);
      && (plan.Ok? <==> Undoable(files, profileId, target, clock, undoId))
      && (plan.Ok? ==>
            plan.value.state == IdentityState(
              ReadState(files).value.revision + 1, DisplayNameFromBackup(ReadBackup(files, target).value.before).value,
              clock.value, ReadState(files).value.sessions))
      && (plan.Err? ==> plan.error != WriteFailed && plan.error != RollbackFailed)
  {
    hide ValidOperationId, AcceptedBackup, Latest, DisplayNameFromBackup, Restorable, Restored, BackupOf;
    AcceptedExactly(files, profileId, target);
    if AcceptedBackup(files, profileId, target).Ok? {
      var before := AcceptedBackup(files, profileId, target).value.0.before;
      BackupNameErrors(before);
      LatestReads(files, profileId, target);
      if DisplayNameFromBackup(before).Ok? {
        RestorableExactly(TextOption(before.soul), DisplayNameFromBackup(before).value, ReadState(files).value.revision + 1);
      }
    }
  }

  lemma LatestReads(files: Files, profileId: string, id: OperationId)
    requires Latest(files, profileId, id)
    ensures ReadBackup(files, id).Ok? && ReadState(files).Ok?
  {
  }

  lemma BackupNameErrors(before: Before)
    ensures DisplayNameFromBackup(before).Err? ==>
      DisplayNameFromBackup(before).error != WriteFailed && DisplayNameFromBackup(before).error != RollbackFailed
  {
    hide CollapseSpaces, Trim, Includes;
  }

  /** An undo works exactly if its checks pass and its writes work, and answers what it restored. */
  lemma UndoWorksExactly(
    files: Files, profileId: string, target: OperationId, clock: Option<string>, undoId: OperationId,
    writes: Attempts, restores: Attempts)
    ensures
      var r := UndoDisplayName(files, profileId, target, clock, undoId, writes, restores);
      var undoable := Undoable(files, profileId, target, clock, undoId);
      && (r.1.Ok? <==> undoable && AllSucceed(writes))
      && (r.1.Ok? ==>
            r.1 == Ok(Identity(DisplayNameFromBackup(ReadBackup(files, target).value.before).value,
                               ReadState(files).value.revision + 1, clock.value)))
      && (!undoable || (!AllSucceed(writes) && AllSucceed(restores)) ==> r.0 == files)
      && (r.1 == Err(WriteFailed) <==> undoable && !AllSucceed(writes) && AllSucceed(restores))
      && (r.1 == Err(RollbackFailed) <==> undoable && !AllSucceed(writes) && !AllSucceed(restores))
  {
    hide Carry, AllSucceed, PlanUndo, DisplayNameFromBackup, Latest, Restorable, ValidOperationId;
    UndoablePlans(files, profileId, target, clock, undoId);
    if Undoable(files, profileId, target, clock, undoId) {
      LatestReads(files, profileId, target);
      CarriedExactly(files, PlanUndo(files, profileId, target, clock, undoId).value, writes, restores);
    } else {
      RefusedUntouched(files, PlanUndo(files, profileId, target, clock, undoId), writes, restores);
    }
  }

  /** A rollback works exactly for the latest change, if its writes work. */
  lemma RollbackWorksExactly(files: Files, profileId: string, target: OperationId, writes: Attempts, restores: Attempts)
    ensures
      var r := RollbackDisplayName(files, profileId, target, writes, restores);
      var latest := Latest(files, profileId, target);
      && (r.1.Ok? <==> latest && AllSucceed(writes))
      && (r.1.Ok? ==> BeforeOf(r.0) == ReadBackup(files, target).value.before && BackupPath(target) !in r.0)
      && (!latest || (!AllSucceed(writes) && AllSucceed(restores)) ==> r.0 == files)
      && (r.1 == Err(WriteFailed) <==> latest && !AllSucceed(writes) && AllSucceed(restores))
      && (r.1 == Err(RollbackFailed) <==> latest && !AllSucceed(writes) && !AllSucceed(restores))
  {
    hide AcceptedBackup, Latest, AllSucceed;
    AcceptedExactly(files, profileId, target);
    if Latest(files, profileId, target) {
      LatestReads(files, profileId, target);
      var before := ReadBackup(files, target).value.before;
      RollbackTransaction(files, target, before, writes, restores);
      OutcomeExactly(files, RollbackFiles(target, before), writes, restores);
    }
  }

  lemma OutcomeExactly(files: Files, list: seq<Mutation<Path, Content>>, writes: Attempts, restores: Attempts)
    requires |list| == 4
    ensures Transact(files, list, writes, restores).1 ==
      if AllSucceed(writes) then Committed else if AllSucceed(restores) then Compensated else PartlyCompensated
  {
    CommittedExactly(files, list, writes);
  }

  /**
   * A rename that worked can be undone exactly if its revision is a safe number, the
   * name before it can be read and SOUL's old text brought back, given a time, a fresh
   * operation id and writes that work.
   */
  lemma RenameCanBeUndone(
    files: Files, profileId: string, rename: Event, clock: Option<string>, undoId: OperationId, writes: Attempts, restores: Attempts)
    requires rename.Rename? && Works(files, profileId, rename)
    ensures
      var r := UndoDisplayName(Step(files, profileId, rename), profileId, rename.operationId, clock, undoId, writes, restores);
      var name := DisplayNameFromBackup(BeforeOf(files));
      (r.1.Ok? <==>
         && ReadState(files).Ok? && ReadState(files).value.revision < MAX_SAFE_INTEGER
         && clock.Some? && name.Ok? && Restorable(TextOption(Get(files, SoulPath)), name.value)
         && ValidOperationId(undoId) && undoId != rename.operationId && BackupPath(undoId) !in files
         && AllSucceed(writes))
  {
    hide DisplayNameFromBackup, Restorable, AllSucceed, ValidOperationId, UndoDisplayName, SetDisplayName, Latest, IsChange,
      ReadState, Rewrites, NormalizeDisplayName;
    var after := Step(files, profileId, rename);
    var id := rename.operationId;
    WorkingChange(files, profileId, rename);
    RenameWrites(files, profileId, rename.rawName, rename.clock, id, rename.writes, rename.restores);
    UndoWorksExactly(after, profileId, id, clock, undoId, writes, restores);
    ChangeIsLatest(files, after, profileId, id);
    ChangeAddsBackup(files, after, profileId, id, undoId);
  }

  lemma ChangeAddsBackup(files: Files, after: Files, profileId: string, id: OperationId, other: OperationId)
    requires IsChange(files, after, profileId, id)
    ensures BackupPath(other) in after <==> other == id || BackupPath(other) in files
  {
    assert other != id ==> Get(after, BackupPath(other)) == Get(files, BackupPath(other));
    assert Get(after, BackupPath(id)).Some?;
  }

  lemma ChangeIsLatest(files: Files, after: Files, profileId: string, id: OperationId)
    requires IsChange(files, after, profileId, id)
    ensures ReadState(files).Ok?
    ensures Latest(after, profileId, id) <==> ReadState(files).value.revision < MAX_SAFE_INTEGER
    ensures Latest(after, profileId, id) ==> ReadBackup(after, id).Ok? && ReadBackup(after, id).value.before == BeforeOf(files)
  {
  }

  lemma NormalizedIsVisible(raw: string)
    requires NormalizeDisplayName(raw).Ok?
    ensures !Blank(NormalizeDisplayName(raw).value)
  {
    hide CollapseSpaces, Includes, IsControl, PlainName;
    NormalizedNamesAreFixed(raw);
    var name := NormalizeDisplayName(raw).value;
    assert NormalizeDisplayName(name).Ok?;
    assert Blank(name) ==> CollapseSpaces(Trim(name)) == "";
  }

  /** Metadata with a normalized name gives that name back. */
  lemma NameOfRename(files: Files, name: string, raw: string)
    requires NormalizeDisplayName(raw) == Ok(name) && ReadMeta(files).Ok? && ReadMeta(files).value.name == Some(name)
    ensures DisplayNameFromBackup(BeforeOf(files)) == Ok(name)
  {
    hide NormalizeDisplayName;
    NormalizedNamesAreFixed(raw);
    NormalizedIsVisible(raw);
  }

  /** An undo of the last change to metadata that had the name gives that metadata back, and a SOUL that states the name again. */
  lemma UndoneGives(one: Files, two: Files, profileId: string, undo: Event, name: string)
    requires undo.Undo? && Works(two, profileId, undo) && IsChange(one, two, profileId, undo.target)
    requires DisplayNameFromBackup(BeforeOf(one)) == Ok(name) && name != "" && '\n' !in name && PlainName(name)
    requires Marked(SoulText(one)) && SoulPath in one
    ensures ReadState(one).Ok? && undo.clock.Some?
    ensures
      var r := UndoDisplayName(two, profileId, undo.target, undo.clock, undo.operationId, undo.writes, undo.restores);
      var revision := ReadState(one).value.revision + 2;
      && r.1 == Ok(Identity(name, revision, undo.clock.value))
      && Get(r.0, MetaPath) == Get(one, MetaPath)
      && Rewrites(SoulText(one), SoulText(r.0), name, revision)
  {
    hide DisplayNameFromBackup, Rewrites, ValidOperationId, PlainName, Marked, Unmarked, Updated;
    UndoWrites(two, profileId, undo);
    BackupOfChange(one, two, profileId, undo.target);
    UndoWorksExactly(two, profileId, undo.target, undo.clock, undo.operationId, undo.writes, undo.restores);
    AcceptedExactly(two, profileId, undo.target);
    UpdateRewrites(SoulText(one), name, ReadState(one).value.revision + 2);
    MarkedIsNotUnmarked(SoulText(one));
  }

  lemma MarkedIsNotUnmarked(soul: string)
    requires Marked(soul)
    ensures !Unmarked(soul) && Accepted(soul)
  {
    var start: int, end: int :| IsPair(soul, start, end);
    PairIsFound(soul, start, end);
  }

  /** The name a rename gave is the one an undo of the next rename goes back to. */
  lemma UndoRestoresTheNameBefore(files: Files, profileId: string, first: Event, second: Event, undo: Event)
    requires first.Rename? && Works(files, profileId, first)
    requires second.Rename? && Works(Step(files, profileId, first), profileId, second)
    requires
      && undo.Undo? && undo.target == second.operationId
      && Works(Step(Step(files, profileId, first), profileId, second), profileId, undo)
    ensures NormalizeDisplayName(first.rawName).Ok? && ReadState(files).Ok? && undo.clock.Some?
    ensures
      var one := Step(files, profileId, first);
      var two := Step(one, profileId, second);
      var r := UndoDisplayName(two, profileId, undo.target, undo.clock, undo.operationId, undo.writes, undo.restores);
      var name, revision := NormalizeDisplayName(first.rawName).value, ReadState(files).value.revision + 3;
      && r.1 == Ok(Identity(name, revision, undo.clock.value))
      && Get(r.0, MetaPath) == Get(one, MetaPath)
      && Rewrites(SoulText(one), SoulText(r.0), name, revision)
  {
    hide NormalizeDisplayName, Rewrites, ValidOperationId, UndoDisplayName, SetDisplayName, IsChange, Marked, PlainName,
      DisplayNameFromBackup, ReadMeta, ReadState, Works, Step;
    var one := Step(files, profileId, first);
    var two := Step(one, profileId, second);
    RenameLeaves(files, profileId, first);
    var name := NormalizeDisplayName(first.rawName).value;
    WorkingChange(one, profileId, second);
    NameOfRename(one, name, first.rawName);
    NormalizedIsOneLine(first.rawName);
    UndoneGives(one, two, profileId, undo, name);
  }

  lemma RenameLeaves(files: Files, profileId: string, rename: Event)
    requires rename.Rename? && Works(files, profileId, rename)
    ensures NormalizeDisplayName(rename.rawName).Ok? && ReadState(files).Ok?
    ensures
      var after := Step(files, profileId, rename);
      && SoulPath in after && Marked(SoulText(after))
      && ReadMeta(after).Ok? && ReadMeta(after).value.name == Some(NormalizeDisplayName(rename.rawName).value)
      && (ReadState(after).Ok? ==> ReadState(after).value.revision == ReadState(files).value.revision + 1)
  {
    hide NormalizeDisplayName, ValidOperationId, Marked, NameIn, RevisionIn;
    RenameWrites(files, profileId, rename.rawName, rename.clock, rename.operationId, rename.writes, rename.restores);
    var soul := SoulText(Step(files, profileId, rename));
    RewrittenIsMarked(SoulText(files), soul, NormalizeDisplayName(rename.rawName).value, ReadState(files).value.revision + 1);
    if SoulPath !in Step(files, profileId, rename) {
      NothingIsUnmarked();
      MarkedIsNotUnmarked(soul);
    }
  }

  lemma NothingIsUnmarked()
    ensures Unmarked("")
  {
  }

  lemma RewrittenIsMarked(soul: string, after: string, name: string, revision: nat)
    requires Rewrites(soul, after, name, revision)
    ensures Marked(after)
  {
    hide States, Surrounds;
  }

  // ---------------------------------------------------------------------
  // Sessions
  // ---------------------------------------------------------------------

  /**
   * A session record works exactly for a valid session, a readable state, a time and
   * a write that works; it marks the session with the current revision, drops exactly
   * what pruning drops, and leaves name, revision, time and every other file alone.
   */
  lemma RecordExactly(files: Files, session: SessionId, clock: Option<string>, kept: set<SessionId>, write: Attempt<Content>)
    ensures
      var r := RecordSession(files, session, clock, kept, write);
      var allowed := ValidSessionId(session) && ReadState(files).Ok? && clock.Some?;
      && (r.1.Ok? <==> allowed && write.Succeeds?)
      && (!allowed ==> r.0 == files)
      && (forall p :: p != StatePath ==> Get(r.0, p) == Get(files, p))
      && (r.1.Ok? ==>
            && ReadState(r.0).Ok?
            && var before, after := ReadState(files).value, ReadState(r.0).value;
               && after.revision == before.revision && after.displayName == before.displayName
               && after.updatedAt == before.updatedAt
               && (forall s :: s in after.sessions <==> s in kept && (s == session || s in before.sessions))
               && (forall s :: s in after.sessions && s != session ==> after.sessions[s] == before.sessions[s])
               && (session in kept ==> after.sessions[session] == SessionMark(before.revision, clock.value)))
  {
    hide ValidSessionId;
    if ReadState(files).Ok? {
      RecordsOnly(files, session, clock, kept);
    }
  }

  /** Recording a session makes it the one to resume, and what else is kept is resumed as before. */
  lemma RecordResumes(files: Files, session: SessionId, clock: Option<string>, kept: set<SessionId>, other: SessionId)
    requires RecordSession(files, session, clock, kept, Succeeds).1.Ok? && session in kept
    ensures
      var after := RecordSession(files, session, clock, kept, Succeeds).0;
      && ResolveResumeSessionId(after, session) == Some(session)
      && (other != session && other in kept ==> ResolveResumeSessionId(after, other) == ResolveResumeSessionId(files, other))
      && (other !in kept && other != session && ReadState(files).value.revision > 0 ==> ResolveResumeSessionId(after, other) == None)
  {
    hide RecordSession;
    RecordExactly(files, session, clock, kept, Succeeds);
  }
}
