/** Admission refuses no more than it must: of the programs the oracle runs, it refuses
    exactly those with a malformed field, an operation of another version, or a batch
    that names a label twice or replaces something other than a file. */
module Completeness {
  import opened Basics
  import opened Scenario
  import opened Namespace
  import opened Files
  import opened Oracle
  import opened OracleInvariant
  import opened OracleSteps
  import opened OracleRuns
  import opened OracleMembers
  import opened Admission
  import opened Agreement
  import opened OracleEffects

  // ---------- batches

  predicate ItemPlain(item: Item) {
    match item
    case ItemCreate(tag, _, name, data) => LabelOk(tag) && NameOk(name) && |data| <= MAX_DATA
    case ItemDelete(tag) => LabelOk(tag)
    case ItemRename(tag, _, name) => LabelOk(tag) && NameOk(name)
    case ItemReplace(tag, _, _, name) => LabelOk(tag) && NameOk(name)
  }

  /** A member names a label that an earlier member made. */
  predicate Repeats(made: set<Label>, item: Item) {
    !item.ItemCreate? && (item.tag in made || (item.ItemReplace? && item.victim in made))
  }

  lemma ItemIsAdmitted(b: BatchLedger, s: Volume, item: Item, created: set<nat>, now: nat)
    requires Agree(b.ledger, s) && NamesBound(s) && BatchItem(s, item, false, created, now).Some?
    ensures AdmitItem(b, item).Some? <==> ItemPlain(item) && !Repeats(b.made, item) && FileVictim(s, item)
  {
    assert ROOT in s.names ==> Bound(s, ROOT);
    hide NameOk, LabelOk, Vacant;
  }

  /** Every member is well formed, names nothing the batch made, and replaces a file. */
  ghost predicate ItemsPlain(s: Volume, items: seq<Item>, made: set<Label>, created: set<nat>, now: nat)
    decreases |items|
  {
    items == [] || (
      && ItemPlain(items[0]) && !Repeats(made, items[0]) && FileVictim(s, items[0])
      && var r := BatchItem(s, items[0], false, created, now);
         r.Some? ==> ItemsPlain(r.value.volume, items[1..], Making(made, items[0]), r.value.created, now))
  }

  function Making(made: set<Label>, item: Item): set<Label> { if item.ItemCreate? then made + {item.tag} else made }

  lemma {:induction false} ItemsAreAdmitted(b: BatchLedger, s: Volume, items: seq<Item>, created: set<nat>, now: nat)
    requires Agree(b.ledger, s) && Good(s) && BatchItems(s, items, false, created, now).Some?
    ensures AdmitItems(b, items).Some? <==> ItemsPlain(s, items, b.made, created, now)
    decreases |items|
  {
    assert Structure(s) && NamesBound(s);
    hide Agree, Good, Structure, NamesBound, BatchItem, AdmitItem, ItemPlain, FileVictim, Repeats;
    if items != [] {
      ItemIsAdmitted(b, s, items[0], created, now);
      if AdmitItem(b, items[0]).Some? {
        ItemAgrees(b, s, items[0], created, now);
        MakesOne(b, items[0]);
        var r := BatchItem(s, items[0], false, created, now).value;
        ItemsAreAdmitted(AdmitItem(b, items[0]).value, r.volume, items[1..], r.created, now);
      }
    }
  }

  lemma MakesOne(b: BatchLedger, item: Item)
    requires AdmitItem(b, item).Some?
    ensures AdmitItem(b, item).value.made == Making(b.made, item)
  {
    hide NameOk, LabelOk;
  }

  ghost predicate BatchPlain(s: Volume, items: seq<Item>, now: nat) {
    |items| <= MAX_ITEMS && ItemsPlain(Tick(s), items, {}, {}, now)
  }

  lemma BatchIsAdmitted(a: Ledger, s: Volume, items: seq<Item>, now: nat)
    requires Agree(a, s) && Good(s) && RunBatch(s, items, false, {}, now).Some?
    ensures AdmitBatch(a, items).Some? <==> BatchPlain(s, items, now)
  {
    assert Agree(a, Tick(s));
    TickKeeps(s);
    hide Agree, Good, AdmitItems, BatchItems, ItemsPlain;
    ItemsAreAdmitted(BatchLedger(a, {}), Tick(s), items, {}, now);
  }

  // ---------- one operation

  /** What the oracle refuses although the labels are right: a place that is taken or
      below the moved directory, a victim elsewhere, a directory with entries, a range
      or a budget that does not fit, and a link or an orphan that is not the last. */
  ghost predicate Obstructed(c: Config, s: Volume, op: Operation) {
    match op
    case Create(_, parent, name, _) => !Vacant(s.names, parent, name)
    case Mkdir(_, parent, name) => !Vacant(s.names, parent, name)
    case Symlink(_, parent, name, _) => !Vacant(s.names, parent, name)
    case Link(_, _, parent, name) => !Vacant(s.names, parent, name)
    case CloneFile(_, _, parent, name) => !Vacant(s.names, parent, name)
    case Rename(tag, parent, name) =>
      !Vacant(s.names, parent, name) || (IsDirectory(s, tag) && Below(s, parent, tag))
    case RenameReplace(tag, victim, parent, name, _) => tag in s.names && !Replaceable(s, tag, victim, parent, name)
    case Rmdir(tag) => !Childless(s.names, tag)
    case OrphanFile(tag) => Named(s, tag) && NodeOf(s, tag).links != 1
    case CleanupOrphan(tag) => Cleanup(c, s, tag).None?
    case Write(_, offset, data, budget) =>
      data != [] && budget.Some? && |Touched(offset, |data|)| > budget.value.maxBlocks
    case Preallocate(_, offset, length, budget) =>
      length > 0 && budget.Some? && |Touched(offset, length)| > budget.value.maxBlocks
    case Truncate(tag, size, budget) =>
      && budget.Some? && LiveFileOf(s, tag).Some? && size < |LiveFileOf(s, tag).value.data|
      && Retired(LiveFileOf(s, tag).value, size) > budget.value.maxBlocks
    case CloneRange(source, start, dest, target, length) =>
      && LiveFileOf(s, source).Some? && LiveFileOf(s, dest).Some?
      && (s.names[source].id == s.names[dest].id || !Cloneable(LiveFileOf(s, source).value, start, target, length))
    case _ => false
  }

  /** The ledger shows which labels the oracle would take, and as what. */
  lemma KindsShow(a: Ledger, s: Volume, l: Label)
    requires Agree(a, s) && NamesBound(s)
    ensures IsKind(a, l, DirectoryKind) <==> IsDirectory(s, l)
    ensures IsKind(a, l, FileKind) <==> LiveFile(s, l)
    ensures IsKind(a, l, FileKind) ==> l != ROOT
    ensures l != ROOT && IsKind(a, l, SymlinkKind) <==> Live(s, l) && NodeOf(s, l).content.Symlink?
    ensures l != ROOT && l in a.labels <==> Live(s, l)
    ensures Live(s, l) ==> HasParent(s, l)
  {
    if l in s.names { assert Bound(s, l); }
  }

  lemma AddExactly(c: Config, a: Ledger, s: Volume, op: Operation, now: nat)
    requires Agree(a, s) && NamesBound(s) && AddOperation(op)
    ensures AddStep(s, op, now).Some? <==> AdmitLabels(a, op).Some? && !Obstructed(c, s, op)
  {
    assert a.used == s.used;
    KindsShow(a, s, op.parent);
    if op.Link? || op.CloneFile? { KindsShow(a, s, op.source); }
    hide Vacant, NamesBound, Agree, IsKind, LiveFile, IsDirectory, Bind, AddObject, Put;
  }

  lemma MoveExactly(c: Config, a: Ledger, s: Volume, op: Operation, now: nat)
    requires Agree(a, s) && NamesBound(s) && (op.Rename? || op.RenameReplace?)
    ensures MoveStep(s, op, now).Some? <==> AdmitLabels(a, op).Some? && !Obstructed(c, s, op)
  {
    KindsShow(a, s, op.tag);
    KindsShow(a, s, op.parent);
    if op.RenameReplace? { KindsShow(a, s, op.victim); }
    hide Vacant, NamesBound, Agree, IsKind, Below, DropName, Touch, Change, MoveEntry;
  }

  lemma UnlinkExactly(c: Config, a: Ledger, s: Volume, op: Operation, now: nat)
    requires Agree(a, s) && NamesBound(s) && (op.Unlink? || op.UnlinkSymlink? || op.Rmdir?)
    ensures UnlinkStep(s, op, now).Some? <==> AdmitLabels(a, op).Some? && !Obstructed(c, s, op)
  {
    KindsShow(a, s, op.tag);
    hide NamesBound, Agree, IsKind, Childless, DropName, Touch;
  }

  lemma OrphanExactly(c: Config, a: Ledger, s: Volume, op: Operation, now: nat)
    requires Agree(a, s) && NamesBound(s) && (op.OrphanFile? || op.CleanupOrphan?)
    ensures OrphanStep(c, s, op, now).Some? <==> AdmitLabels(a, op).Some? && !Obstructed(c, s, op)
  {
    assert s.orphaned.Keys <= a.orphans;
    KindsShow(a, s, op.tag);
    hide NamesBound, Agree, IsKind, DropName, Touch;
  }

  lemma RemoveExactly(c: Config, a: Ledger, s: Volume, op: Operation, now: nat)
    requires Agree(a, s) && NamesBound(s) && RemoveOperation(op)
    ensures RemoveStep(c, s, op, now).Some? <==> AdmitLabels(a, op).Some? && !Obstructed(c, s, op)
  {
    hide Agree, NamesBound, AdmitLabels, Obstructed, MoveStep, UnlinkStep, OrphanStep;
    if op.Rename? || op.RenameReplace? {
      MoveExactly(c, a, s, op, now);
    } else if op.OrphanFile? || op.CleanupOrphan? {
      OrphanExactly(c, a, s, op, now);
    } else {
      UnlinkExactly(c, a, s, op, now);
    }
  }

  lemma AttributeExactly(c: Config, a: Ledger, s: Volume, op: Operation, now: nat)
    requires Agree(a, s) && NamesBound(s) && AttributeOperation(op)
    ensures AttributeStep(s, op, now).Some? <==> AdmitLabels(a, op).Some? && !Obstructed(c, s, op)
  {
    KindsShow(a, s, op.tag);
    hide NamesBound, Agree, IsKind, Amend;
  }

  lemma WritingExactly(c: Config, a: Ledger, s: Volume, op: Operation, now: nat)
    requires Agree(a, s) && NamesBound(s) && (op.Write? || op.Truncate? || op.Preallocate?)
    ensures DataStep(s, op, now).Some? <==> AdmitLabels(a, op).Some? && !Obstructed(c, s, op)
  {
    KindsShow(a, s, op.tag);
    match op {
      case Write(tag, offset, data, budget) => WriteIsAccepted(s, tag, offset, data, budget, now);
      case Preallocate(tag, offset, length, budget) => ReserveIsAccepted(s, tag, offset, length, budget, now);
      case Truncate(tag, size, budget) => TruncateIsAccepted(s, tag, size, budget, now);
      case _ =>
    }
    hide NamesBound, Agree, IsKind, WriteFile, Reserve, TruncateFile, Retired;
  }

  lemma CloningExactly(c: Config, a: Ledger, s: Volume, op: Operation, now: nat)
    requires Agree(a, s) && NamesBound(s) && op.CloneRange?
    ensures DataStep(s, op, now).Some? <==> AdmitLabels(a, op).Some? && !Obstructed(c, s, op)
  {
    KindsShow(a, s, op.source);
    KindsShow(a, s, op.destination);
    hide NamesBound, Agree, IsKind, Rewrite, CloneDestination, Files.Marked, Cloneable;
  }

  lemma DataExactly(c: Config, a: Ledger, s: Volume, op: Operation, now: nat)
    requires Agree(a, s) && NamesBound(s) && DataOperation(op)
    ensures DataStep(s, op, now).Some? <==> AdmitLabels(a, op).Some? && !Obstructed(c, s, op)
  {
    hide Agree, NamesBound, AdmitLabels, Obstructed, DataStep;
    if op.CloneRange? { CloningExactly(c, a, s, op, now); } else { WritingExactly(c, a, s, op, now); }
  }

  lemma ContentExactly(c: Config, a: Ledger, s: Volume, op: Operation, now: nat)
    requires Agree(a, s) && NamesBound(s) && (AttributeOperation(op) || DataOperation(op))
    ensures ContentStep(s, op, now).Some? <==> AdmitLabels(a, op).Some? && !Obstructed(c, s, op)
  {
    hide Agree, NamesBound, AdmitLabels, Obstructed, AttributeStep, DataStep;
    if AttributeOperation(op) { AttributeExactly(c, a, s, op, now); } else { DataExactly(c, a, s, op, now); }
  }

  predicate DataOperation(op: Operation) { op.Write? || op.Truncate? || op.Preallocate? || op.CloneRange? }

  lemma DirectCases(c: Config, s: Volume, op: Operation, now: nat)
    ensures AddOperation(op) ==> DirectStep(c, s, op, now) == AddStep(s, op, now)
    ensures RemoveOperation(op) ==> DirectStep(c, s, op, now) == RemoveStep(c, s, op, now)
    ensures AttributeOperation(op) || DataOperation(op) ==> DirectStep(c, s, op, now) == ContentStep(s, op, now)
  {
    hide AddStep, RemoveStep, ContentStep, RunBatch;
  }

  /** The oracle takes an operation exactly when admission takes its labels and nothing
      that labels do not show is in the way. */
  lemma DirectExactly(c: Config, a: Ledger, s: Volume, op: Operation, now: nat)
    requires Agree(a, s) && Good(s)
    requires AddOperation(op) || RemoveOperation(op) || AttributeOperation(op) || DataOperation(op)
    ensures DirectStep(c, s, op, now).Some? <==> AdmitLabels(a, op).Some? && !Obstructed(c, s, op)
  {
    assert Structure(s) && NamesBound(s);
    DirectCases(c, s, op, now);
    hide Agree, Good, Structure, NamesBound, AdmitLabels, Obstructed, AddStep, RemoveStep, ContentStep, DirectStep;
    if AddOperation(op) {
      AddExactly(c, a, s, op, now);
    } else if RemoveOperation(op) {
      RemoveExactly(c, a, s, op, now);
    } else {
      ContentExactly(c, a, s, op, now);
    }
  }

  /** Snapshot labels are those that were ever given an identity. */
  ghost predicate SameSnapshots(a: Ledger, s: State) { a.snapshots == s.snapshotIds.Keys }

  lemma SnapshotIsAdmitted(c: Config, a: Ledger, s: State, action: Action, l: Label)
    requires SameSnapshots(a, s) && s.views.Keys == s.snapshotIds.Keys && SnapshotStep(c, s, action, l).Some?
    ensures SnapshotLabel(a, action, l).Some?
    ensures SameSnapshots(SnapshotLabel(a, action, l).value, SnapshotStep(c, s, action, l).value)
  {
    hide CanCapture, Capture, Capturable;
  }

  /** The checks that look at one operation alone. */
  ghost predicate OperationPlain(version: nat, index: nat, s: Volume, op: Operation, now: nat) {
    KnownAt(op, version) && FieldsOk(op, index) && (op.Batch? ==> BatchPlain(s, op.items, now))
  }

  lemma KnownOperation(c: Config, s: Volume, op: Operation, now: nat)
    requires DirectStep(c, s, op, now).Some? && !op.Batch?
    ensures AddOperation(op) || RemoveOperation(op) || AttributeOperation(op) || DataOperation(op)
  {
    hide WriteFile, TruncateFile, Reserve, CloneRangeOf, AttributeStep, AddStep, RemoveStep;
  }

  lemma DirectIsAdmitted(c: Config, a: Ledger, s: Volume, op: Operation, now: nat)
    requires Agree(a, s) && Good(s) && DirectStep(c, s, op, now).Some?
    ensures AdmitLabels(a, op).Some? <==> (op.Batch? ==> BatchPlain(s, op.items, now))
  {
    DirectFamilies(c, s, op, now);
    if !op.Batch? { KnownOperation(c, s, op, now); }
    hide DirectStep, Good, Agree, BatchPlain, AdmitLabels, Obstructed, RunBatch;
    if op.Batch? {
      BatchLabels(a, op);
      BatchIsAdmitted(a, s, op.items, now);
    } else {
      DirectExactly(c, a, s, op, now);
    }
  }

  lemma LabelsStayOut(a: Ledger, op: Operation)
    requires AdmitLabels(a, op).Some? && !op.Snapshot?
    ensures AdmitLabels(a, op).value.snapshots == a.snapshots
  {
    hide AdmitItems;
    if op.Batch? || op.WindowBatch? { ItemsStayOut(BatchLedger(a, {}), op.items); }
  }

  lemma {:induction false} ItemsStayOut(b: BatchLedger, items: seq<Item>)
    requires AdmitItems(b, items).Some?
    ensures AdmitItems(b, items).value.ledger.snapshots == b.ledger.snapshots
    decreases |items|
  {
    hide NameOk, LabelOk;
    if items != [] { ItemsStayOut(AdmitItem(b, items[0]).value, items[1..]); }
  }

  lemma IdentitiesStay(c: Config, s: State, op: Operation, now: nat)
    requires Step(c, s, op, now).Some? && !op.Snapshot?
    ensures Step(c, s, op, now).value.snapshotIds == s.snapshotIds
  {
    hide DirectStep, PublishGroups;
  }

  lemma FreeIsAdmitted(a: Ledger, op: Operation)
    requires LabelFree(op) && !op.Snapshot? && !op.WindowBatch?
    ensures AdmitLabels(a, op) == Some(a)
  {
  }

  lemma SnapshotCases(c: Config, a: Ledger, s: State, op: Operation, now: nat)
    requires op.Snapshot? && s.staged == []
    ensures AdmitLabels(a, op) == SnapshotLabel(a, op.action, op.tag)
    ensures Step(c, s, op, now) == SnapshotStep(c, s, op.action, op.tag)
  {
    hide SnapshotStep, DirectStep, WindowStep;
  }

  lemma OtherIsAdmitted(c: Config, a: Ledger, s: State, op: Operation, now: nat)
    requires Agree(a, s.volume) && Good(s.volume) && s.staged == []
    requires Step(c, s, op, now).Some? && !op.WindowBatch? && !op.Snapshot?
    ensures AdmitLabels(a, op).Some? <==> (op.Batch? ==> BatchPlain(s.volume, op.items, now))
  {
    hide Agree, Good, BatchPlain, DirectStep, AdmitLabels, Step;
    if LabelFree(op) {
      FreeIsAdmitted(a, op);
    } else {
      DirectIsStep(c, s, op, now);
      DirectIsAdmitted(c, a, s.volume, op, now);
    }
  }

  lemma LabelsAreAdmitted(c: Config, a: Ledger, s: State, op: Operation, now: nat)
    requires Agree(a, s.volume) && Inv(s) && s.staged == [] && SameSnapshots(a, s)
    requires Step(c, s, op, now).Some? && !op.WindowBatch?
    ensures AdmitLabels(a, op).Some? <==> (op.Batch? ==> BatchPlain(s.volume, op.items, now))
    ensures AdmitLabels(a, op).Some? ==> SameSnapshots(AdmitLabels(a, op).value, Step(c, s, op, now).value)
  {
    hide Agree, Good, BatchPlain, WindowSound, Step, AdmitLabels, SnapshotStep, SnapshotLabel;
    if op.Snapshot? {
      SnapshotCases(c, a, s, op, now);
      SnapshotIsAdmitted(c, a, s, op.action, op.tag);
    } else {
      hide ViewsSound;
      OtherIsAdmitted(c, a, s, op, now);
      IdentitiesStay(c, s, op, now);
      if AdmitLabels(a, op).Some? { LabelsStayOut(a, op); }
    }
  }

  lemma StepIsAdmitted(c: Config, version: nat, index: nat, a: Ledger, s: State, op: Operation, now: nat)
    requires Agree(a, s.volume) && Inv(s) && s.staged == [] && SameSnapshots(a, s)
    requires Step(c, s, op, now).Some? && !op.WindowBatch?
    ensures AdmitOperation(version, index, a, op).Some? <==> OperationPlain(version, index, s.volume, op, now)
    ensures AdmitOperation(version, index, a, op).Some? ==>
      SameSnapshots(AdmitOperation(version, index, a, op).value, Step(c, s, op, now).value)
  {
    hide Agree, Inv, KnownAt, FieldsOk, BatchPlain, AdmitLabels, Step, PayloadOf;
    LabelsAreAdmitted(c, a, s, op, now);
  }

  // ---------- programs

  ghost predicate ProgramPlain(c: Config, version: nat, s: State, ops: seq<Operation>, index: nat)
    decreases |ops|
  {
    ops == [] || (
      && OperationPlain(version, index, s.volume, ops[0], index + 1)
      && var r := Step(c, s, ops[0], index + 1);
         r.Some? ==> ProgramPlain(c, version, r.value, ops[1..], index + 1))
  }

  lemma {:induction false} RunIsAdmitted(
    c: Config, version: nat, index: nat, a: Ledger, s: State, ops: seq<Operation>, kinds: map<Label, Kind>)
    requires Agree(a, s.volume) && Inv(s) && TypedState(s, kinds) && s.staged == [] && Records(a, kinds)
    requires SameSnapshots(a, s) && RunFrom(c, s, ops, index).Some? && forall op :: op in ops ==> !op.WindowBatch?
    ensures AdmitFrom(version, index, a, ops).Some? <==> ProgramPlain(c, version, s, ops, index)
    decreases |ops|
  {
    assert Good(s.volume);
    hide Agree, Inv, Good, TypedState, Records, Step, AdmitOperation, OperationPlain;
    if ops != [] {
      StepIsAdmitted(c, version, index, a, s, ops[0], index + 1);
      var t, b := Step(c, s, ops[0], index + 1).value, AdmitOperation(version, index, a, ops[0]);
      if b.Some? {
        StepAgrees(c, version, index, a, s, ops[0], index + 1, b.value, t);
        OperationRecords(version, index, a, ops[0], kinds);
        var next := NewKinds(kinds, ops[0]);
        WiderKinds(s, kinds, next);
        TypedStep(c, s, ops[0], index + 1, next);
        StepExactly(c, s, ops[0], index + 1);
        RunIsAdmitted(c, version, index + 1, b.value, t, ops[1..], next);
      }
    }
  }

  /** Of the programs without window groups that the oracle runs, admission takes exactly
      the plain ones. */
  lemma ProgramIsAdmitted(c: Config, version: nat, ops: seq<Operation>)
    requires RunFrom(c, Initial(), ops, 0).Some? && forall op :: op in ops ==> !op.WindowBatch?
    ensures AdmitAll(version, ops).Some? <==> ProgramPlain(c, version, Initial(), ops, 0)
  {
    hide RunFrom, AdmitFrom, ProgramPlain;
    InitialIsSound();
    InitialIsTyped(map[ROOT := DirectoryKind]);
    RunIsAdmitted(c, version, 0, Empty(), Initial(), ops, map[ROOT := DirectoryKind]);
  }
}
