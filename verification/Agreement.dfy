/** Admission and oracle agree on labels, and admitted programs run safely. */
module Agreement {
  import opened Basics
  import opened Scenario
  import opened Namespace
  import opened Oracle
  import opened OracleInvariant
  import opened OracleSteps
  import opened OracleRuns
  import opened Admission

  // ---------- an admitted program gives each label one kind

  /** The kind of every label that a batch creates, beside those known before. */
  function ItemKinds(kinds: map<Label, Kind>, items: seq<Item>): map<Label, Kind>
    decreases |items|
  {
    if items == [] then kinds
    else ItemKinds(if items[0].ItemCreate? then kinds[items[0].tag := FileKind] else kinds, items[1..])
  }

  function NewKinds(kinds: map<Label, Kind>, op: Operation): map<Label, Kind> {
    match op
    case Mkdir(tag, _, _) => kinds[tag := DirectoryKind]
    case Symlink(tag, _, _, _) => kinds[tag := SymlinkKind]
    case Create(tag, _, _, _) => kinds[tag := FileKind]
    case Link(tag, _, _, _) => kinds[tag := FileKind]
    case CloneFile(tag, _, _, _) => kinds[tag := FileKind]
    case Batch(items) => ItemKinds(kinds, items)
    case WindowBatch(items) => ItemKinds(kinds, items)
    case _ => kinds
  }

  function KindsFrom(kinds: map<Label, Kind>, ops: seq<Operation>): map<Label, Kind>
    decreases |ops|
  {
    if ops == [] then kinds else KindsFrom(NewKinds(kinds, ops[0]), ops[1..])
  }

  function Kinds(ops: seq<Operation>): map<Label, Kind> { KindsFrom(map[ROOT := DirectoryKind], ops) }

  ghost predicate Extends(m: map<Label, Kind>, n: map<Label, Kind>) {
    forall l :: l in m ==> l in n && n[l] == m[l]
  }

  /** The ledger uses the labels of the map and gives live ones their kind. */
  ghost predicate Records(a: Ledger, kinds: map<Label, Kind>) {
    a.used == kinds.Keys && Extends(a.labels, kinds)
  }

  lemma {:induction false} ItemsRecord(b: BatchLedger, items: seq<Item>, kinds: map<Label, Kind>)
    requires Records(b.ledger, kinds) && AdmitItems(b, items).Some?
    ensures var after := ItemKinds(kinds, items);
      Records(AdmitItems(b, items).value.ledger, after) && Extends(kinds, after) && ItemsTyped(items, after)
    decreases |items|
  {
    if items != [] {
      var next := if items[0].ItemCreate? then kinds[items[0].tag := FileKind] else kinds;
      var r := AdmitItem(b, items[0]).value;
      assert Records(r.ledger, next) && ItemTyped(items[0], next);
      ItemsRecord(r, items[1..], next);
      assert items == [items[0]] + items[1..];
      TypedStaysTyped([items[0]], next, ItemKinds(kinds, items));
      assert ItemTyped([items[0]][0], ItemKinds(kinds, items));
    }
  }

  lemma TypedStaysTyped(items: seq<Item>, m: map<Label, Kind>, n: map<Label, Kind>)
    requires ItemsTyped(items, m) && Extends(m, n)
    ensures ItemsTyped(items, n)
  {
    forall item | item in items ensures ItemTyped(item, n) { assert ItemTyped(item, m); }
  }

  lemma OperationStaysTyped(op: Operation, m: map<Label, Kind>, n: map<Label, Kind>)
    requires OperationTyped(op, m) && Extends(m, n)
    ensures OperationTyped(op, n)
  {
    if op.Batch? || op.WindowBatch? { TypedStaysTyped(op.items, m, n); }
  }

  lemma OperationRecords(version: nat, index: nat, a: Ledger, op: Operation, kinds: map<Label, Kind>)
    requires Records(a, kinds) && AdmitOperation(version, index, a, op).Some?
    ensures var after := NewKinds(kinds, op);
      Records(AdmitOperation(version, index, a, op).value, after) && Extends(kinds, after) && OperationTyped(op, after)
  {
    hide FieldsOk, KnownAt, PayloadOf, AdmitBatch, ItemKinds, ItemsTyped, AdmitLabels, NewKinds, OperationTyped;
    LabelsRecord(a, op, kinds);
  }

  lemma LabelsRecord(a: Ledger, op: Operation, kinds: map<Label, Kind>)
    requires Records(a, kinds) && AdmitLabels(a, op).Some?
    ensures var after := NewKinds(kinds, op);
      Records(AdmitLabels(a, op).value, after) && Extends(kinds, after) && OperationTyped(op, after)
  {
    hide AdmitItems, ItemKinds, ItemsTyped;
    if op.Batch? || op.WindowBatch? { ItemsRecord(BatchLedger(a, {}), op.items, kinds); }
  }

  /** Every operation of an admitted program respects the kinds of its labels. */
  lemma {:induction false} AdmittedIsTyped(
    version: nat, index: nat, a: Ledger, ops: seq<Operation>, kinds: map<Label, Kind>)
    requires Records(a, kinds) && AdmitFrom(version, index, a, ops).Some?
    ensures Extends(kinds, KindsFrom(kinds, ops)) && forall op :: op in ops ==>
      OperationTyped(op, KindsFrom(kinds, ops))
    decreases |ops|
  {
    if ops != [] {
      OperationRecords(version, index, a, ops[0], kinds);
      var next, final := NewKinds(kinds, ops[0]), KindsFrom(kinds, ops);
      AdmittedIsTyped(version, index + 1, AdmitOperation(version, index, a, ops[0]).value, ops[1..], next);
      OperationStaysTyped(ops[0], next, final);
      assert ops == [ops[0]] + ops[1..];
    }
  }

  /** Any program that admission and oracle both accept, windows included, ends
      in a sound state, and every view and label obeys the run rules. */
  lemma AdmittedRunIsSound(version: nat, c: Config, ops: seq<Operation>)
    requires AdmitAll(version, ops).Some? && RunFrom(c, Initial(), ops, 0).Some?
    ensures HarmlessRun(c, Initial(), ops, 0)
    ensures Inv(RunFrom(c, Initial(), ops, 0).value) && TypedState(RunFrom(c, Initial(), ops, 0).value, Kinds(ops))
    ensures RunFollows(Initial(), ops, RunFrom(c, Initial(), ops, 0).value)
  {
    AdmittedIsTyped(version, 0, Empty(), ops, map[ROOT := DirectoryKind]);
    InitialIsSound();
    InitialIsTyped(Kinds(ops));
    hide Inv, TypedState, RunFrom, HarmlessRun, RunFollows;
    TypedRunIsHarmless(c, Initial(), ops, 0, Kinds(ops));
    RunKeeps(c, Initial(), ops, 0);
  }

  lemma InitialIsTyped(kinds: map<Label, Kind>)
    requires ROOT in kinds && kinds[ROOT] == DirectoryKind
    ensures TypedState(Initial(), kinds)
  {
  }

  // ---------- agreement without windows

  /** Same live labels with the same kinds, same used labels, and every orphan of
      the oracle registered by admission. */
  ghost predicate Agree(a: Ledger, s: Volume) {
    && a.labels.Keys == s.names.Keys && a.used == s.used && s.orphaned.Keys <= a.orphans
    && forall l :: l in s.names ==> Named(s, l) && a.labels[l] == KindOf(NodeOf(s, l).content)
  }

  /** Old labels stay as they are; a new one has the kind that admission gave it. */
  lemma AgreeAfter(a: Ledger, s: Volume, b: Ledger, t: Volume)
    requires Agree(a, s) && Persists(s, t) && s.names.Keys <= s.used
    requires b.labels.Keys == t.names.Keys && b.used == t.used && t.orphaned.Keys <= b.orphans
    requires forall l :: l in t.names && l in s.names ==> b.labels[l] == a.labels[l]
    requires forall l :: l in t.names && l !in s.names ==> Named(t, l) && b.labels[l] == KindOf(NodeOf(t, l).content)
    ensures Agree(b, t)
  {
    forall l | l in t.names ensures Named(t, l) && b.labels[l] == KindOf(NodeOf(t, l).content) {
      if l in s.names { assert SameBinding(s, t, l); }
    }
  }

  function NewKind(op: Operation): Kind {
    if op.Mkdir? then DirectoryKind else if op.Symlink? then SymlinkKind else FileKind
  }

  lemma AddNames(s: Volume, op: Operation, now: nat)
    requires AddOperation(op) && AddStep(s, op, now).Some? && s.nextObject !in s.objects
    ensures var t := AddStep(s, op, now).value;
      && t.names.Keys == s.names.Keys + {op.tag} && t.used == s.used + {op.tag} && t.orphaned == s.orphaned
      && op.tag !in s.used
      && Named(t, op.tag) && KindOf(NodeOf(t, op.tag).content) == NewKind(op)
  {
  }

  lemma AddLabels(a: Ledger, op: Operation)
    requires AddOperation(op) && AdmitLabels(a, op).Some?
    ensures AdmitLabels(a, op).value == Add(a, op.tag, NewKind(op))
  {
  }

  lemma AddAgreesOn(a: Ledger, s: Volume, tag: Label, kind: Kind, t: Volume)
    requires Agree(a, s) && Persists(s, t) && s.names.Keys <= s.used && tag !in s.used
    requires t.names.Keys == s.names.Keys + {tag} && t.used == s.used + {tag} && t.orphaned == s.orphaned
    requires Named(t, tag) && KindOf(NodeOf(t, tag).content) == kind
    ensures Agree(Add(a, tag, kind), t)
  {
    AgreeAfter(a, s, Add(a, tag, kind), t);
  }

  lemma AddAgrees(a: Ledger, s: Volume, op: Operation, now: nat)
    requires Agree(a, s) && Good(s) && AddOperation(op) && AddStep(s, op, now).Some? && AdmitLabels(a, op).Some?
    ensures Agree(AdmitLabels(a, op).value, AddStep(s, op, now).value)
  {
    FreshObject(s);
    AddStepKeeps(s, op, now);
    AddNames(s, op, now);
    AddLabels(a, op);
    AddAgreesOn(a, s, op.tag, NewKind(op), AddStep(s, op, now).value);
  }

  /** The label that an operation takes away, and the one it registers as an orphan. */
  function Taken(op: Operation): set<Label> {
    if op.RenameReplace? then {op.victim}
    else if op.Unlink? || op.UnlinkSymlink? || op.Rmdir? || op.OrphanFile? then {op.tag} else {}
  }

  function Filed(op: Operation): set<Label> {
    if op.RenameReplace? && op.orphan then {op.victim} else if op.OrphanFile? then {op.tag} else {}
  }

  lemma RemoveNames(c: Config, s: Volume, op: Operation, now: nat)
    requires RemoveStep(c, s, op, now).Some?
    ensures var t := RemoveStep(c, s, op, now).value;
      t.used == s.used && t.names.Keys == s.names.Keys - Taken(op) && t.orphaned.Keys <= s.orphaned.Keys + Filed(op)
  {
  }

  lemma RemoveLabels(a: Ledger, op: Operation)
    requires RemoveOperation(op) && AdmitLabels(a, op).Some?
    ensures var b := AdmitLabels(a, op).value;
      b.used == a.used && b.labels == a.labels - Taken(op) && b.orphans == a.orphans + Filed(op)
  {
  }

  lemma RemoveAgreesOn(a: Ledger, s: Volume, b: Ledger, t: Volume, taken: set<Label>, filed: set<Label>)
    requires Agree(a, s) && Persists(s, t) && s.names.Keys <= s.used
    requires t.used == s.used && t.names.Keys == s.names.Keys - taken && t.orphaned.Keys <= s.orphaned.Keys + filed
    requires b.used == a.used && b.labels == a.labels - taken && b.orphans == a.orphans + filed
    ensures Agree(b, t)
  {
    AgreeAfter(a, s, b, t);
  }

  lemma RemoveAgrees(c: Config, a: Ledger, s: Volume, op: Operation, now: nat)
    requires Agree(a, s) && Good(s) && RemoveOperation(op) && RemoveStep(c, s, op, now).Some?
    requires AdmitLabels(a, op).Some?
    ensures Agree(AdmitLabels(a, op).value, RemoveStep(c, s, op, now).value)
  {
    RemoveStepKeeps(c, s, op, now);
    RemoveNames(c, s, op, now);
    RemoveLabels(a, op);
    RemoveAgreesOn(a, s, AdmitLabels(a, op).value, RemoveStep(c, s, op, now).value, Taken(op), Filed(op));
  }

  lemma AttributeNames(s: Volume, op: Operation, now: nat)
    requires AttributeStep(s, op, now).Some?
    ensures var t := AttributeStep(s, op, now).value; t.used == s.used && t.names == s.names && t.orphaned == s.orphaned
  {
  }

  lemma DataNames(s: Volume, op: Operation, now: nat)
    requires DataStep(s, op, now).Some?
    ensures var t := DataStep(s, op, now).value; t.used == s.used && t.names == s.names && t.orphaned == s.orphaned
  {
  }

  lemma ContentNames(s: Volume, op: Operation, now: nat)
    requires ContentStep(s, op, now).Some?
    ensures var t := ContentStep(s, op, now).value; t.used == s.used && t.names == s.names && t.orphaned == s.orphaned
  {
    if AttributeOperation(op) { AttributeNames(s, op, now); } else { DataNames(s, op, now); }
  }

  lemma ContentLabels(a: Ledger, s: Volume, op: Operation, now: nat)
    requires ContentStep(s, op, now).Some? && AdmitLabels(a, op).Some?
    ensures AdmitLabels(a, op).value == a
  {
  }

  lemma ContentAgrees(a: Ledger, s: Volume, op: Operation, now: nat)
    requires Agree(a, s) && Good(s) && ContentStep(s, op, now).Some? && AdmitLabels(a, op).Some?
    ensures Agree(AdmitLabels(a, op).value, ContentStep(s, op, now).value)
  {
    ContentStepKeeps(s, op, now);
    ContentNames(s, op, now);
    ContentLabels(a, s, op, now);
    AgreeAfter(a, s, a, ContentStep(s, op, now).value);
  }

  function Gone(item: Item): set<Label> {
    if item.ItemDelete? then {item.tag} else if item.ItemReplace? then {item.victim} else {}
  }

  ghost predicate NamesMove(s: Volume, item: Item, t: Volume) {
    && t.orphaned == s.orphaned
    && (item.ItemCreate? ==>
          && t.names.Keys == s.names.Keys + {item.tag} && t.used == s.used + {item.tag} && item.tag !in s.names
          && Named(t, item.tag) && NodeOf(t, item.tag).content.Regular?)
    && (!item.ItemCreate? ==> t.used == s.used && t.names.Keys == s.names.Keys - Gone(item))
  }

  ghost predicate LabelsMove(a: Ledger, item: Item, b: Ledger) {
    && b.orphans == a.orphans
    && (item.ItemCreate? ==> b.labels == a.labels[item.tag := FileKind] && b.used == a.used + {item.tag})
    && (!item.ItemCreate? ==> b.used == a.used && b.labels == a.labels - Gone(item))
    && (item.ItemReplace? ==> IsKind(a, item.victim, FileKind))
  }

  lemma ItemNames(s: Volume, item: Item, created: set<nat>, now: nat)
    requires BatchItem(s, item, false, created, now).Some? && s.nextObject !in s.objects && s.names.Keys <= s.used
    ensures NamesMove(s, item, BatchItem(s, item, false, created, now).value.volume)
  {
  }

  lemma ItemLabels(b: BatchLedger, item: Item)
    requires AdmitItem(b, item).Some?
    ensures LabelsMove(b.ledger, item, AdmitItem(b, item).value.ledger)
  {
  }

  lemma MovesAgree(a: Ledger, s: Volume, item: Item, b: Ledger, t: Volume)
    requires Agree(a, s) && Persists(s, t) && s.names.Keys <= s.used && NamesMove(s, item, t) && LabelsMove(a, item, b)
    ensures Agree(b, t)
  {
    AgreeAfter(a, s, b, t);
  }

  lemma ItemAgrees(b: BatchLedger, s: Volume, item: Item, created: set<nat>, now: nat)
    requires Agree(b.ledger, s) && Good(s) && BatchItem(s, item, false, created, now).Some? && AdmitItem(b, item).Some?
    ensures Agree(AdmitItem(b, item).value.ledger, BatchItem(s, item, false, created, now).value.volume)
    ensures Good(BatchItem(s, item, false, created, now).value.volume)
  {
    FreshObject(s);
    ItemLabels(b, item);
    VictimIsFile(b.ledger, s, item);
    BatchItemKeeps(s, item, false, created, now);
    ItemNames(s, item, created, now);
    MovesAgree(b.ledger, s, item, AdmitItem(b, item).value.ledger,
      BatchItem(s, item, false, created, now).value.volume);
  }

  lemma VictimIsFile(a: Ledger, s: Volume, item: Item)
    requires Agree(a, s) && (item.ItemReplace? ==> IsKind(a, item.victim, FileKind))
    ensures Harmless(s, item, false)
  {
  }

  lemma {:induction false} ItemsAgree(b: BatchLedger, s: Volume, items: seq<Item>, created: set<nat>, now: nat)
    requires Agree(b.ledger, s) && Good(s) && BatchItems(s, items, false, created, now).Some?
    requires AdmitItems(b, items).Some?
    ensures Agree(AdmitItems(b, items).value.ledger, BatchItems(s, items, false, created, now).value.volume)
    decreases |items|
  {
    if items != [] {
      ItemAgrees(b, s, items[0], created, now);
      var r := BatchItem(s, items[0], false, created, now).value;
      ItemsAgree(AdmitItem(b, items[0]).value, r.volume, items[1..], r.created, now);
    }
  }

  lemma BatchAgrees(a: Ledger, s: Volume, items: seq<Item>, now: nat)
    requires Agree(a, s) && Good(s) && RunBatch(s, items, false, {}, now).Some? && AdmitBatch(a, items).Some?
    ensures Agree(AdmitBatch(a, items).value, RunBatch(s, items, false, {}, now).value.volume)
  {
    TickKeeps(s);
    ItemsAgree(BatchLedger(a, {}), Tick(s), items, {}, now);
  }

  /** Which rule a direct operation follows. */
  lemma DirectFamilies(c: Config, s: Volume, op: Operation, now: nat)
    requires DirectStep(c, s, op, now).Some?
    ensures if op.Batch? then
              && RunBatch(s, op.items, false, {}, now).Some?
              && DirectStep(c, s, op, now).value == RunBatch(s, op.items, false, {}, now).value.volume
            else if AddOperation(op) then DirectStep(c, s, op, now) == AddStep(s, op, now)
            else if RemoveOperation(op) then DirectStep(c, s, op, now) == RemoveStep(c, s, op, now)
            else DirectStep(c, s, op, now) == ContentStep(s, op, now)
  {
  }

  lemma BatchLabels(a: Ledger, op: Operation)
    requires op.Batch?
    ensures AdmitLabels(a, op) == AdmitBatch(a, op.items)
  {
    match op
    case Batch(items) =>
  }

  lemma DirectAgrees(c: Config, a: Ledger, s: Volume, op: Operation, now: nat, b: Ledger, t: Volume)
    requires Agree(a, s) && Good(s) && DirectStep(c, s, op, now) == Some(t) && AdmitLabels(a, op) == Some(b)
    ensures Agree(b, t)
  {
    DirectFamilies(c, s, op, now);
    if op.Batch? {
      BatchLabels(a, op);
      BatchAgrees(a, s, op.items, now);
    } else if AddOperation(op) {
      AddAgrees(a, s, op, now);
    } else if RemoveOperation(op) {
      RemoveAgrees(c, a, s, op, now);
    } else {
      ContentAgrees(a, s, op, now);
    }
  }

  /** Admission adds the payload of an operation and changes labels by its label rule. */
  lemma AdmittedLabels(version: nat, index: nat, a: Ledger, op: Operation, s: Volume)
    requires AdmitOperation(version, index, a, op).Some?
    ensures AdmitLabels(a, op).Some?
    ensures Agree(AdmitLabels(a, op).value, s) ==> Agree(AdmitOperation(version, index, a, op).value, s)
  {
  }

  /** The operations that name no label of the volume. */
  lemma LabelFreeAgrees(a: Ledger, op: Operation, s: Volume, t: Volume)
    requires Agree(a, s) && AdmitLabels(a, op).Some? && (t == s || t == Tick(s))
    requires
      || op.Snapshot? || op.Sync? || op.ReclaimStep? || op.SnapshotMaintenanceStep?
      || op.WindowFsync? || op.WindowCommit? || op.Remount?
    ensures Agree(AdmitLabels(a, op).value, t)
  {
  }

  predicate LabelFree(op: Operation) {
    WindowOperation(op) || op.Snapshot? || op.Sync? || op.ReclaimStep? || op.SnapshotMaintenanceStep?
  }

  lemma LabelFreeStep(c: Config, s: State, op: Operation, now: nat)
    requires s.staged == [] && Step(c, s, op, now).Some? && LabelFree(op) && !op.WindowBatch?
    ensures var t := Step(c, s, op, now).value; t.staged == [] && (t.volume == s.volume || t.volume == Tick(s.volume))
  {
    if op.Snapshot? { SnapshotTicks(c, s, op.action, op.tag); } else { ClosedWindow(c, s, op, now); }
  }

  /** A step outside windows keeps admission and oracle in agreement. */
  lemma StepAgrees(
    c: Config, version: nat, index: nat, a: Ledger, s: State, op: Operation, now: nat, b: Ledger, t: State)
    requires Agree(a, s.volume) && Good(s.volume) && s.staged == [] && !op.WindowBatch?
    requires Step(c, s, op, now) == Some(t) && AdmitOperation(version, index, a, op) == Some(b)
    ensures t.staged == [] && Agree(b, t.volume)
  {
    AdmittedLabels(version, index, a, op, t.volume);
    if LabelFree(op) {
      LabelFreeStep(c, s, op, now);
      LabelFreeAgrees(a, op, s.volume, t.volume);
    } else {
      DirectIsStep(c, s, op, now);
      DirectAgrees(c, a, s.volume, op, now, AdmitLabels(a, op).value, t.volume);
    }
  }

  lemma DirectIsStep(c: Config, s: State, op: Operation, now: nat)
    requires Step(c, s, op, now).Some? && !LabelFree(op)
    ensures DirectStep(c, s.volume, op, now) == Some(Step(c, s, op, now).value.volume)
    ensures Step(c, s, op, now).value.staged == s.staged
  {
  }

  /** With nothing staged the window operations leave the volume alone. */
  lemma ClosedWindow(c: Config, s: State, op: Operation, now: nat)
    requires s.staged == [] && Step(c, s, op, now).Some? && !op.WindowBatch?
    requires WindowOperation(op) || op.Sync? || op.ReclaimStep? || op.SnapshotMaintenanceStep?
    ensures Step(c, s, op, now).value.volume == s.volume && Step(c, s, op, now).value.staged == []
  {
  }

  /** After every operation of a program without window groups that both accept,
      admission and oracle know the same live labels with the same kinds and the
      same used labels, and every orphan of the oracle is an admitted orphan label. */
  lemma {:induction false} RunAgrees(
    c: Config, version: nat, index: nat, a: Ledger, s: State, ops: seq<Operation>, kinds: map<Label, Kind>)
    requires Agree(a, s.volume) && Inv(s) && TypedState(s, kinds) && s.staged == [] && Records(a, kinds)
    requires RunFrom(c, s, ops, index).Some? && AdmitFrom(version, index, a, ops).Some?
    requires forall op :: op in ops ==> !op.WindowBatch?
    ensures Agree(AdmitFrom(version, index, a, ops).value, RunFrom(c, s, ops, index).value.volume)
    decreases |ops|
  {
    if ops != [] {
      StepAgrees(c, version, index, a, s, ops[0], index + 1,
                 AdmitOperation(version, index, a, ops[0]).value, Step(c, s, ops[0], index + 1).value);
      OperationRecords(version, index, a, ops[0], kinds);
      var next := NewKinds(kinds, ops[0]);
      WiderKinds(s, kinds, next);
      TypedStep(c, s, ops[0], index + 1, next);
      StepExactly(c, s, ops[0], index + 1);
      RunAgrees(c, version, index + 1, AdmitOperation(version, index, a, ops[0]).value,
                Step(c, s, ops[0], index + 1).value, ops[1..], next);
    }
  }

  lemma WiderKinds(s: State, m: map<Label, Kind>, n: map<Label, Kind>)
    requires TypedState(s, m) && Extends(m, n)
    ensures TypedState(s, n)
  {
    forall g | g in s.staged ensures ItemsTyped(g.items, n) { TypedStaysTyped(g.items, m, n); }
  }

  /** The same from the start of a program, and so after every prefix of it. */
  lemma ProgramAgrees(c: Config, version: nat, ops: seq<Operation>)
    requires RunFrom(c, Initial(), ops, 0).Some? && AdmitAll(version, ops).Some?
    requires forall op :: op in ops ==> !op.WindowBatch?
    ensures Agree(AdmitAll(version, ops).value, RunFrom(c, Initial(), ops, 0).value.volume)
  {
    InitialIsSound();
    InitialIsTyped(map[ROOT := DirectoryKind]);
    RunAgrees(c, version, 0, Empty(), Initial(), ops, map[ROOT := DirectoryKind]);
  }

  lemma {:induction false} RunPrefix(c: Config, s: State, ops: seq<Operation>, index: nat, k: nat)
    requires k <= |ops| && RunFrom(c, s, ops, index).Some?
    ensures RunFrom(c, s, ops[..k], index).Some?
    decreases k
  {
    hide Step;
    if k > 0 {
      var next := Step(c, s, ops[0], index + 1).value;
      RunPrefix(c, next, ops[1..], index + 1, k - 1);
      assert ops[..k][1..] == ops[1..][..k - 1];
    }
  }

  lemma {:induction false} AdmitPrefix(version: nat, index: nat, a: Ledger, ops: seq<Operation>, k: nat)
    requires k <= |ops| && AdmitFrom(version, index, a, ops).Some?
    ensures AdmitFrom(version, index, a, ops[..k]).Some?
    decreases k
  {
    hide AdmitOperation;
    if k > 0 {
      AdmitPrefix(version, index + 1, AdmitOperation(version, index, a, ops[0]).value, ops[1..], k - 1);
      assert ops[..k][1..] == ops[1..][..k - 1];
    }
  }

  /** The agreement holds after each operation of such a program. */
  lemma ProgramAgreesThroughout(c: Config, version: nat, ops: seq<Operation>, k: nat)
    requires k <= |ops| && RunFrom(c, Initial(), ops, 0).Some? && AdmitAll(version, ops).Some?
    requires forall op :: op in ops ==> !op.WindowBatch?
    ensures RunFrom(c, Initial(), ops[..k], 0).Some? && AdmitAll(version, ops[..k]).Some?
    ensures Agree(AdmitAll(version, ops[..k]).value, RunFrom(c, Initial(), ops[..k], 0).value.volume)
  {
    hide RunFrom, AdmitFrom, Agree;
    RunPrefix(c, Initial(), ops, 0, k);
    AdmitPrefix(version, 0, Empty(), ops, k);
    ProgramAgrees(c, version, ops[..k]);
  }
}
