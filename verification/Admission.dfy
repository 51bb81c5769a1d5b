/** Scenario admission: the label state that `validate` carries over the
    operations of a scenario, and its agreement with the oracle. */
module Admission {
  import opened Basics
  import opened Scenario

  const MAX_OPS := 1024
  const MAX_DATA := 1024 * 1024
  const MAX_ITEMS := 16

  /** Live labels with their kinds, every label ever created, labels registered
      as orphans, snapshot labels, and the payload bytes so far. */
  datatype Ledger = Ledger(
    labels: map<Label, Kind>, used: set<Label>, orphans: set<Label>, snapshots: set<Label>, payload: nat)

  function Empty(): Ledger {
    Ledger(map[ROOT := DirectoryKind], {ROOT}, {}, {}, 0)
  }

  // ---------- field checks

  /** A name component: not empty, no slash, no zero byte, at most 255 bytes. */
  predicate NameOk(name: Name) {
    1 <= |name| <= 255 && 0x2F !in name && 0 !in name
  }

  predicate TargetOk(target: Bytes) {
    1 <= |target| <= 1024 && 0 !in target
  }

  predicate Letter(c: char) { 'a' <= c <= 'z' || 'A' <= c <= 'Z' || c == '_' }
  predicate Digit(c: char) { '0' <= c <= '9' }

  /** An ASCII identifier of at most 64 characters. */
  predicate LabelOk(l: Label) {
    1 <= |l| <= 64 && Letter(l[0]) && forall c :: c in l ==> Letter(c) || Digit(c)
  }

  predicate BudgetOk(b: Option<Budget>) {
    b.Some? ==> 1 <= b.value.maxBlocks <= 4096 && 1 <= b.value.maxRecords <= 4096
  }

  predicate RangeOk(offset: nat, length: nat) { offset + length <= MAX_FILE }

  predicate IsKind(a: Ledger, l: Label, kind: Kind) { l in a.labels && a.labels[l] == kind }

  /** The version whose schema first knows the operation, and the last one that does. */
  function Since(op: Operation): nat {
    match op
    case Write(_, _, _, budget) => if budget.Some? then 9 else 1
    case Truncate(_, _, budget) => if budget.Some? then 9 else 1
    case Mkdir(_, _, _) => 1
    case Create(_, _, _, _) => 1
    case Rename(_, _, _) => 1
    case Unlink(_) => 1
    case Rmdir(_) => 1
    case Sync => 1
    case Remount => 1
    case WindowWrite(_, _, _) => 5
    case WindowTruncate(_, _) => 5
    case WindowFsync => 5
    case WindowCommit => 5
    case Snapshot(_, _) => 7
    case Verify => 8
    case RemountRefused => 8
    case Fault(_, _, _) => 8
    case Corrupt(_, _, _, _) => 8
    case _ => 9
  }

  predicate KnownAt(op: Operation, version: nat) {
    Since(op) <= version && (Since(op) == 8 ==> version == 8)
  }

  /** Checks that look at the fields of one operation alone. */
  predicate FieldsOk(op: Operation, index: nat) {
    match op
    case Mkdir(tag, _, name) => LabelOk(tag) && NameOk(name)
    case Create(tag, _, name, data) => LabelOk(tag) && NameOk(name) && |data| <= MAX_DATA
    case Write(tag, offset, data, budget) =>
      LabelOk(tag) && |data| <= MAX_DATA && RangeOk(offset, |data|) && BudgetOk(budget)
    case Truncate(tag, size, budget) => LabelOk(tag) && size <= MAX_FILE && BudgetOk(budget)
    case Rename(tag, _, name) => LabelOk(tag) && NameOk(name)
    case WindowWrite(tag, offset, data) => LabelOk(tag) && |data| <= MAX_DATA && RangeOk(offset, |data|)
    case WindowTruncate(tag, size) => LabelOk(tag) && size <= MAX_FILE
    case Snapshot(_, tag) => LabelOk(tag)
    case Fault(format, class_, at) => at <= 65535 && (format ==> class_ != FaultRead && index == 0)
    case Corrupt(reseal, lba, offset, value) =>
      lba <= 65535 && (reseal ==> 32 <= offset) && offset <= 4095 && value <= 255
    case Link(tag, _, _, name) => LabelOk(tag) && NameOk(name)
    case CloneFile(tag, _, _, name) => LabelOk(tag) && NameOk(name)
    case Symlink(tag, _, name, target) => LabelOk(tag) && NameOk(name) && TargetOk(target)
    case SetProtection(tag, protection) => LabelOk(tag) && protection < 0x1_0000_0000
    case CloneRange(_, start, _, target, length) => RangeOk(start, length) && RangeOk(target, length)
    case RenameReplace(tag, victim, _, name, _) => LabelOk(tag) && NameOk(name) && victim != tag
    case Preallocate(tag, offset, length, budget) => LabelOk(tag) && RangeOk(offset, length) && BudgetOk(budget)
    case RestoreMetadata(tag, protection, created, modified, changed) =>
      && LabelOk(tag) && protection < 0x1_0000_0000 && created <= 0x8000_0000 && modified <= 0x8000_0000
      && changed <= 0x8000_0000
    case Unlink(tag) => LabelOk(tag)
    case Rmdir(tag) => LabelOk(tag)
    case UnlinkSymlink(tag) => LabelOk(tag)
    case OrphanFile(tag) => LabelOk(tag)
    case CleanupOrphan(tag) => LabelOk(tag)
    case SetDataPolicy(tag, _) => LabelOk(tag)
    case _ => true
  }

  /** Payload bytes that an operation adds to the aggregate. */
  function PayloadOf(op: Operation): nat {
    match op
    case Create(_, _, _, data) => |data|
    case Write(_, _, data, _) => |data|
    case WindowWrite(_, _, data) => |data|
    case Symlink(_, _, _, target) => |target|
    case _ => 0
  }

  // ---------- label state

  function Add(a: Ledger, l: Label, kind: Kind): Ledger {
    a.(labels := a.labels[l := kind], used := a.used + {l})
  }

  function Spend(a: Ledger, l: Label): Ledger { a.(labels := a.labels - {l}) }

  /** A label an operation creates must be new and sit below a directory. */
  function Introduce(a: Ledger, l: Label, parent: Label, kind: Kind): Option<Ledger> {
    if !IsKind(a, parent, DirectoryKind) || l in a.used then None else Some(Add(a, l, kind))
  }

  function Require(a: Ledger, l: Label, kind: Kind): Option<Ledger> {
    if l != ROOT && IsKind(a, l, kind) then Some(a) else None
  }

  function RequireLive(a: Ledger, l: Label): Option<Ledger> {
    if l != ROOT && l in a.labels then Some(a) else None
  }

  function Retire(a: Ledger, l: Label, kind: Kind): Option<Ledger> {
    if l != ROOT && IsKind(a, l, kind) then Some(Spend(a, l)) else None
  }

  function Substitute(a: Ledger, l: Label, victim: Label, parent: Label, orphan: bool): Option<Ledger> {
    if !IsKind(a, parent, DirectoryKind) || !IsKind(a, victim, FileKind) || !IsKind(a, l, FileKind) || l == victim
       || l == ROOT then None else
      Some(Spend(a, victim).(orphans := if orphan then a.orphans + {victim} else a.orphans))
  }

  function SnapshotLabel(a: Ledger, action: Action, l: Label): Option<Ledger> {
    if action.ViewCreate? then
      if l in a.snapshots then None else Some(a.(snapshots := a.snapshots + {l}))
    else if l in a.snapshots then Some(a) else None
  }

  datatype BatchLedger = BatchLedger(ledger: Ledger, made: set<Label>)

  /** One batch member. A label made by the same batch cannot be named again by it. */
  function AdmitItem(b: BatchLedger, item: Item): Option<BatchLedger> {
    var a := b.ledger;
    match item
    case ItemCreate(tag, parent, name, data) =>
      if !IsKind(a, parent, DirectoryKind) || !NameOk(name) || !LabelOk(tag) || tag in a.used
         || |data| > MAX_DATA then None else
        Some(BatchLedger(Add(a, tag, FileKind).(payload := a.payload + |data|), b.made + {tag}))
    case ItemDelete(tag) =>
      if !LabelOk(tag) || tag in b.made || !IsKind(a, tag, FileKind) then None else Some(b.(ledger := Spend(a, tag)))
    case ItemRename(tag, parent, name) =>
      if !IsKind(a, parent, DirectoryKind) || !NameOk(name) || !LabelOk(tag) || tag in b.made
         || !IsKind(a, tag, FileKind)
      then None else Some(b)
    case ItemReplace(tag, victim, parent, name) =>
      if !IsKind(a, parent, DirectoryKind) || !NameOk(name) || !LabelOk(tag) || tag in b.made || victim in b.made
         || !IsKind(a, tag, FileKind) || !IsKind(a, victim, FileKind) || victim == tag
      then None else Some(b.(ledger := Spend(a, victim)))
  }

  function AdmitItems(b: BatchLedger, items: seq<Item>): Option<BatchLedger>
    decreases |items|
  {
    if items == [] then Some(b) else
      var r := AdmitItem(b, items[0]);
      if r.None? then None else AdmitItems(r.value, items[1..])
  }

  function AdmitBatch(a: Ledger, items: seq<Item>): Option<Ledger> {
    if !(1 <= |items| <= MAX_ITEMS) then None else
      var r := AdmitItems(BatchLedger(a, {}), items);
      if r.None? then None else Some(r.value.ledger)
  }

  /** What one operation does to the label state. */
  function AdmitLabels(a: Ledger, op: Operation): Option<Ledger> {
    match op
    case Mkdir(tag, parent, _) => Introduce(a, tag, parent, DirectoryKind)
    case Create(tag, parent, _, _) => Introduce(a, tag, parent, FileKind)
    case Symlink(tag, parent, _, _) => Introduce(a, tag, parent, SymlinkKind)
    case Link(tag, source, parent, _) =>
      if IsKind(a, source, FileKind) then Introduce(a, tag, parent, FileKind) else None
    case CloneFile(tag, source, parent, _) =>
      if IsKind(a, source, FileKind) then Introduce(a, tag, parent, FileKind) else None
    case CloneRange(source, _, dest, _, _) =>
      if IsKind(a, source, FileKind) && IsKind(a, dest, FileKind) then Some(a) else None
    case Write(tag, _, _, _) => Require(a, tag, FileKind)
    case Truncate(tag, _, _) => Require(a, tag, FileKind)
    case WindowWrite(tag, _, _) => Require(a, tag, FileKind)
    case WindowTruncate(tag, _) => Require(a, tag, FileKind)
    case Preallocate(tag, _, _, _) => Require(a, tag, FileKind)
    case SetDataPolicy(tag, _) => Require(a, tag, FileKind)
    case SetProtection(tag, _) => RequireLive(a, tag)
    case RestoreMetadata(tag, _, _, _, _) => RequireLive(a, tag)
    case Rename(tag, parent, _) => if IsKind(a, parent, DirectoryKind) then RequireLive(a, tag) else None
    case RenameReplace(tag, victim, parent, _, orphan) => Substitute(a, tag, victim, parent, orphan)
    case Unlink(tag) => Retire(a, tag, FileKind)
    case UnlinkSymlink(tag) => Retire(a, tag, SymlinkKind)
    case Rmdir(tag) => Retire(a, tag, DirectoryKind)
    case OrphanFile(tag) =>
      var r := Retire(a, tag, FileKind);
      if r.None? then None else Some(r.value.(orphans := a.orphans + {tag}))
    case CleanupOrphan(tag) => if tag in a.orphans then Some(a) else None
    case Snapshot(action, tag) => SnapshotLabel(a, action, tag)
    case Batch(items) => AdmitBatch(a, items)
    case WindowBatch(items) => AdmitBatch(a, items)
    case _ => Some(a)
  }

  function AdmitOperation(version: nat, index: nat, a: Ledger, op: Operation): Option<Ledger> {
    if !KnownAt(op, version) || !FieldsOk(op, index) then None else
      var r := AdmitLabels(a, op);
      if r.None? then None else Some(r.value.(payload := r.value.payload + PayloadOf(op)))
  }

  /** Admit the operations from the given index on. */
  function AdmitFrom(version: nat, index: nat, a: Ledger, ops: seq<Operation>): Option<Ledger>
    decreases |ops|
  {
    if ops == [] then Some(a) else
      var r := AdmitOperation(version, index, a, ops[0]);
      if r.None? then None else AdmitFrom(version, index + 1, r.value, ops[1..])
  }

  function AdmitAll(version: nat, ops: seq<Operation>): Option<Ledger> {
    AdmitFrom(version, 0, Empty(), ops)
  }

  // ---------- the payload of a scenario

  function ItemWeight(item: Item): nat { if item.ItemCreate? then |item.data| else 0 }

  function ItemsWeight(items: seq<Item>): nat
    decreases |items|
  {
    if items == [] then 0 else ItemWeight(items[0]) + ItemsWeight(items[1..])
  }

  /** Payload bytes an operation carries, those of its batch members included. */
  function Weight(op: Operation): nat {
    if op.Batch? || op.WindowBatch? then ItemsWeight(op.items) else PayloadOf(op)
  }

  function Weights(ops: seq<Operation>): nat
    decreases |ops|
  {
    if ops == [] then 0 else Weight(ops[0]) + Weights(ops[1..])
  }

  lemma {:induction false} ItemsAreWeighed(b: BatchLedger, items: seq<Item>)
    requires AdmitItems(b, items).Some?
    ensures AdmitItems(b, items).value.ledger.payload == b.ledger.payload + ItemsWeight(items)
    decreases |items|
  {
    if items != [] { ItemsAreWeighed(AdmitItem(b, items[0]).value, items[1..]); }
  }

  lemma OperationIsWeighed(version: nat, index: nat, a: Ledger, op: Operation)
    requires AdmitOperation(version, index, a, op).Some?
    ensures AdmitOperation(version, index, a, op).value.payload == a.payload + Weight(op)
  {
    hide KnownAt, FieldsOk, ItemsWeight, AdmitItems;
    if op.Batch? || op.WindowBatch? { ItemsAreWeighed(BatchLedger(a, {}), op.items); }
  }

  /** The ledger's payload is the sum over the operations, batch members included. */
  lemma {:induction false} PayloadIsTotal(version: nat, index: nat, a: Ledger, ops: seq<Operation>)
    requires AdmitFrom(version, index, a, ops).Some?
    ensures AdmitFrom(version, index, a, ops).value.payload == a.payload + Weights(ops)
    decreases |ops|
  {
    hide AdmitOperation, Weight;
    if ops != [] {
      OperationIsWeighed(version, index, a, ops[0]);
      PayloadIsTotal(version, index + 1, AdmitOperation(version, index, a, ops[0]).value, ops[1..]);
    }
  }

  function Sizes(contents: seq<Bytes>): nat
    decreases |contents|
  {
    if contents == [] then 0 else |contents[0]| + Sizes(contents[1..])
  }

  // ---------- the loops of `validate` and `batch_items`

  method ValidateItems(a: Ledger, items: seq<Item>) returns (r: Option<Ledger>)
    ensures r == AdmitBatch(a, items)
  {
    if !(1 <= |items| <= MAX_ITEMS) { return None; }
    var b := BatchLedger(a, {});
    for i := 0 to |items|
      invariant AdmitItems(b, items[i..]) == AdmitItems(BatchLedger(a, {}), items)
    {
      assert items[i..][1..] == items[i + 1..];
      var next := AdmitItem(b, items[i]);
      if next.None? { return None; }
      b := next.value;
    }
    return Some(b.ledger);
  }

  method ValidateLabels(a: Ledger, op: Operation) returns (r: Option<Ledger>)
    ensures r == AdmitLabels(a, op)
  {
    if op.Batch? || op.WindowBatch? {
      r := ValidateItems(a, op.items);
    } else {
      r := AdmitLabels(a, op);
    }
  }

  /** One turn of the loop. */
  method ValidateOperation(version: nat, index: nat, a: Ledger, op: Operation) returns (r: Option<Ledger>)
    ensures r == AdmitOperation(version, index, a, op)
  {
    if !KnownAt(op, version) || !FieldsOk(op, index) { return None; }
    r := ValidateLabels(a, op);
    if r.Some? { r := Some(r.value.(payload := r.value.payload + PayloadOf(op))); }
  }

  /** The loops over the operations of a scenario and over the contents and symlink
      targets it expects, whose bytes count together. */
  method ValidateOperations(version: nat, ops: seq<Operation>, expected: seq<Bytes>) returns (r: Option<Ledger>)
    ensures r.Some? <==> |ops| <= MAX_OPS && AdmitAll(version, ops).Some? && Weights(ops) + Sizes(expected) <= MAX_DATA
    ensures r.Some? ==> r == AdmitAll(version, ops)
  {
    hide Weights, AdmitOperation;
    if |ops| > MAX_OPS { return None; }
    var a := Empty();
    for i := 0 to |ops|
      invariant AdmitFrom(version, i, a, ops[i..]) == AdmitAll(version, ops)
    {
      assert ops[i..][1..] == ops[i + 1..];
      var next := ValidateOperation(version, i, a, ops[i]);
      if next.None? { return None; }
      a := next.value;
    }
    PayloadIsTotal(version, 0, Empty(), ops);
    var payload := a.payload;
    for i := 0 to |expected|
      invariant payload + Sizes(expected[i..]) == a.payload + Sizes(expected)
    {
      assert expected[i..][1..] == expected[i + 1..];
      payload := payload + |expected[i]|;
    }
    return if payload > MAX_DATA then None else Some(a);
  }
}
