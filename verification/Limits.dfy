/** The values that an admitted program leads to fit the fields they are reported in. */
module Limits {
  import opened Basics
  import opened Scenario
  import opened Namespace
  import opened Oracle
  import opened OracleInvariant
  import opened OracleSteps
  import opened OracleRuns
  import opened Admission
  import opened Agreement
  import opened Files
  import Coverage
  import Linked

  predicate SmallFile(f: File) {
    |f.data| <= MAX_FILE && forall b :: b in f.blocks ==> b < 4096
  }

  predicate SmallContent(content: Content) {
    && (content.Regular? ==> SmallFile(content.file))
    && (content.Symlink? ==> content.target != [])
  }

  predicate Small(n: Node) { n.protection < Linked.LIMIT && SmallContent(n.content) }

  predicate AllSmall(s: Volume) { forall id :: id in s.objects ==> Small(s.objects[id]) }

  predicate ItemsSmall(items: seq<Item>) {
    forall item :: item in items ==> item.ItemCreate? ==> |item.data| <= MAX_DATA
  }

  ghost predicate SmallState(s: State) {
    AllSmall(s.volume) && forall g :: g in s.staged ==> ItemsSmall(g.items)
  }

  // ---------- files

  lemma CreatedIsSmall(data: Bytes)
    requires |data| <= MAX_DATA
    ensures SmallFile(Created(data))
  {
  }

  lemma WriteStaysSmall(f: File, offset: nat, data: Bytes)
    requires SmallFile(f) && offset + |data| <= MAX_FILE && data != []
    ensures SmallFile(Files.Write(f, offset, data))
  {
  }

  lemma TruncateStaysSmall(f: File, size: nat)
    requires SmallFile(f) && size <= MAX_FILE
    ensures SmallFile(Files.Truncate(f, size))
  {
  }

  lemma PreallocateStaysSmall(f: File, offset: nat, length: nat)
    requires SmallFile(f) && offset + length <= MAX_FILE
    ensures SmallFile(Files.Preallocate(f, offset, length))
  {
  }

  lemma CloneStaysSmall(source: File, dest: File, start: nat, target: nat, length: nat)
    requires SmallFile(source) && SmallFile(dest) && Cloneable(source, start, target, length)
    requires target + length <= MAX_FILE
    ensures SmallFile(CloneDestination(source, dest, start, target, length))
  {
    var g := CloneDestination(source, dest, start, target, length);
    forall b | b in g.blocks ensures b < 4096 {
      if b in Touched(target, length) { assert b < Blocks(target + length); } else { assert b in dest.blocks; }
    }
  }

  // ---------- elementary changes

  lemma DropStaysSmall(s: Volume, tag: Label, orphan: bool, now: nat)
    requires AllSmall(s) && Named(s, tag)
    ensures AllSmall(DropName(s, tag, orphan, now))
  {
    hide SmallContent;
  }

  lemma TouchParentStaysSmall(s: Volume, l: Label, now: nat)
    requires AllSmall(s) && HasParent(s, l)
    ensures AllSmall(TouchParent(s, l, now))
  {
    hide SmallContent;
  }

  lemma MoveStaysSmall(s: Volume, tag: Label, parent: Label, name: Name, now: nat)
    requires AllSmall(s) && Named(s, tag) && HasParent(s, tag) && Named(s, parent)
    ensures var t := Touch(TouchParent(Change(s, s.names[tag].id, now), tag, now), parent, now);
      AllSmall(MoveEntry(t, tag, parent, name))
  {
    hide SmallContent;
  }

  lemma BindStaysSmall(s: Volume, tag: Label, id: nat, parent: Label, name: Name, now: nat)
    requires AllSmall(s) && id in s.objects && Named(s, parent)
    ensures AllSmall(Bind(s, tag, id, parent, name, now))
  {
    hide SmallContent;
  }

  lemma InsertStaysSmall(s: Volume, content: Content, tag: Label, parent: Label, name: Name, now: nat)
    requires AllSmall(s) && SmallContent(content) && Insert(s, content, tag, parent, name, now).Some?
    ensures AllSmall(Insert(s, content, tag, parent, name, now).value)
  {
    hide SmallContent;
  }

  // ---------- operations

  lemma AddStaysSmall(s: Volume, op: Operation, now: nat, index: nat)
    requires AllSmall(s) && FieldsOk(op, index) && AddStep(s, op, now).Some?
    ensures AllSmall(AddStep(s, op, now).value)
  {
    hide Insert, Vacant, Created, SmallFile, Bind, Clone;
    if op.Create? {
      CreatedIsSmall(op.data);
      InsertStaysSmall(s, Regular(Created(op.data), false), op.tag, op.parent, op.name, now);
    } else if op.Mkdir? {
      InsertStaysSmall(s, Directory, op.tag, op.parent, op.name, now);
    } else if op.Symlink? {
      InsertStaysSmall(s, Content.Symlink(op.target), op.tag, op.parent, op.name, now);
    } else if op.Link? {
      var n := NodeOf(s, op.source);
      assert Small(n);
      var t := Put(Tick(s), s.names[op.source].id, n.(links := n.links + 1, changed := now));
      assert AllSmall(t);
      BindStaysSmall(t, op.tag, s.names[op.source].id, op.parent, op.name, now);
    } else if op.CloneFile? {
      CopyStaysSmall(s, op.tag, op.source, op.parent, op.name, now);
    }
  }

  lemma CopyStaysSmall(s: Volume, tag: Label, source: Label, parent: Label, name: Name, now: nat)
    requires AllSmall(s) && Clone(s, tag, source, parent, name, now).Some?
    ensures AllSmall(Clone(s, tag, source, parent, name, now).value)
  {
    hide Vacant, Bind;
    var t, id, n := Tick(s), s.names[source].id, NodeOf(s, source);
    assert Small(n);
    var f := n.content.file.(shared := n.content.file.blocks.Keys);
    assert SmallFile(f);
    hide SmallFile;
    var copy := Fresh(t, Regular(f, false), now).(protection := n.protection, modified := n.modified);
    var u := Put(AddObject(t, copy), id, n.(content := n.content.(file := f), changed := now));
    assert AllSmall(u);
    BindStaysSmall(u, tag, t.nextObject, parent, name, now);
  }

  lemma RemoveStaysSmall(c: Config, s: Volume, op: Operation, now: nat)
    requires AllSmall(s) && RemoveStep(c, s, op, now).Some?
    ensures AllSmall(RemoveStep(c, s, op, now).value)
  {
    hide SmallContent, Below, Replaceable, DropName, Vacant, Childless;
    if op.RenameReplace? {
      var t := Touch(TouchParent(Change(Tick(s), s.names[op.tag].id, now), op.tag, now), op.parent, now);
      DropStaysSmall(t, op.victim, op.orphan, now);
    } else if !op.Rename? && !op.CleanupOrphan? {
      var t := TouchParent(Tick(s), op.tag, now);
      DropStaysSmall(t, op.tag, op.OrphanFile?, now);
    }
  }

  lemma ContentStaysSmall(s: Volume, op: Operation, now: nat, index: nat)
    requires AllSmall(s) && FieldsOk(op, index) && ContentStep(s, op, now).Some?
    ensures AllSmall(ContentStep(s, op, now).value)
  {
    hide Files.Write, Files.Truncate, Files.Preallocate, SmallFile, Retired, Holes, Cloneable;
    if op.Write? {
      var f := NodeOf(s, op.tag).content.file;
      assert Small(NodeOf(s, op.tag));
      if op.data != [] { WriteStaysSmall(f, op.offset, op.data); }
    } else if op.Truncate? {
      assert Small(NodeOf(s, op.tag));
      TruncateStaysSmall(NodeOf(s, op.tag).content.file, op.size);
    } else if op.Preallocate? {
      assert Small(NodeOf(s, op.tag));
      PreallocateStaysSmall(NodeOf(s, op.tag).content.file, op.offset, op.length);
    } else if op.CloneRange? {
      CloneRangeStaysSmall(s, op.source, op.sourceOffset, op.destination, op.destinationOffset, op.length, now);
    }
  }

  lemma CloneRangeStaysSmall(s: Volume, source: Label, start: nat, dest: Label, target: nat, length: nat, now: nat)
    requires AllSmall(s) && target + length <= MAX_FILE
    requires CloneRangeOf(s, source, start, dest, target, length, now).Some?
    ensures AllSmall(CloneRangeOf(s, source, start, dest, target, length, now).value)
  {
    var n, d := NodeOf(s, source), NodeOf(s, dest);
    assert Small(n) && Small(d);
    CloneStaysSmall(n.content.file, d.content.file, start, target, length);
    assert SmallFile(CloneSource(n.content.file, start, target, length));
    hide SmallFile, CloneDestination, CloneSource, Marked, Cloneable;
  }

  lemma ItemStaysSmall(s: Volume, item: Item, deferred: bool, created: set<nat>, now: nat)
    requires AllSmall(s) && ItemsSmall([item]) && BatchItem(s, item, deferred, created, now).Some?
    ensures AllSmall(BatchItem(s, item, deferred, created, now).value.volume)
  {
    hide DropName, Created, SmallFile, Vacant, Bind;
    assert item in [item];
    if item.ItemCreate? {
      CreatedIsSmall(item.data);
      var t := AddObject(s, Fresh(s, Regular(Created(item.data), false), now));
      assert AllSmall(t);
      BindStaysSmall(t, item.tag, s.nextObject, item.parent, item.name, now);
    } else if item.ItemDelete? {
      var t := TouchParent(s, item.tag, now);
      DropStaysSmall(t, item.tag, deferred && s.names[item.tag].id !in created, now);
    } else if item.ItemReplace? {
      var orphan := deferred && s.names[item.victim].id !in created;
      DropStaysSmall(s, item.victim, orphan, now);
      TagStays(s, item.tag, item.victim, orphan, now);
      MoveStaysSmall(DropName(s, item.victim, orphan, now), item.tag, item.parent, item.name, now);
    }
  }

  lemma TagStays(s: Volume, tag: Label, victim: Label, orphan: bool, now: nat)
    requires Named(s, tag) && Named(s, victim) && s.names[tag].id != s.names[victim].id
    ensures Named(DropName(s, victim, orphan, now), tag)
  {
  }

  lemma {:induction false} ItemsStaySmall(s: Volume, items: seq<Item>, deferred: bool, created: set<nat>, now: nat)
    requires AllSmall(s) && ItemsSmall(items) && BatchItems(s, items, deferred, created, now).Some?
    ensures AllSmall(BatchItems(s, items, deferred, created, now).value.volume)
    decreases |items|
  {
    hide BatchItem, AllSmall;
    if items != [] {
      var r := BatchItem(s, items[0], deferred, created, now).value;
      ItemStaysSmall(s, items[0], deferred, created, now);
      ItemsStaySmall(r.volume, items[1..], deferred, r.created, now);
    }
  }

  lemma {:induction false} GroupsStaySmall(s: Volume, groups: seq<Group>, created: set<nat>, now: nat)
    requires AllSmall(s) && (forall g :: g in groups ==> ItemsSmall(g.items))
    requires PublishGroups(s, groups, created, now).Some?
    ensures AllSmall(PublishGroups(s, groups, created, now).value)
    decreases |groups|
  {
    hide BatchItems, ItemsSmall, Small;
    if groups != [] {
      var r := RunBatch(s, groups[0].items, true, created, now).value;
      ItemsStaySmall(Tick(s), groups[0].items, true, created, now);
      GroupsStaySmall(r.volume, groups[1..], r.created, now);
    }
  }

  // ---------- runs

  predicate OperationSmall(op: Operation) { op.Batch? || op.WindowBatch? ==> ItemsSmall(op.items) }

  lemma {:induction false} AdmittedItemsAreSmall(b: BatchLedger, items: seq<Item>)
    requires AdmitItems(b, items).Some?
    ensures ItemsSmall(items)
    decreases |items|
  {
    if items != [] {
      AdmittedItemsAreSmall(AdmitItem(b, items[0]).value, items[1..]);
      assert items == [items[0]] + items[1..];
    }
  }

  lemma AdmittedIsSmall(version: nat, index: nat, a: Ledger, op: Operation)
    requires AdmitOperation(version, index, a, op).Some?
    ensures FieldsOk(op, index) && OperationSmall(op)
  {
    hide KnownAt, FieldsOk, AdmitItems, ItemsSmall;
    if op.Batch? || op.WindowBatch? { AdmittedItemsAreSmall(BatchLedger(a, {}), op.items); }
  }

  lemma DirectStaysSmall(c: Config, s: Volume, op: Operation, now: nat, index: nat)
    requires AllSmall(s) && FieldsOk(op, index) && OperationSmall(op) && DirectStep(c, s, op, now).Some?
    ensures AllSmall(DirectStep(c, s, op, now).value)
  {
    hide FieldsOk, AddStep, RemoveStep, ContentStep, BatchItems, ItemsSmall, Small;
    if op.Batch? {
      ItemsStaySmall(Tick(s), op.items, false, {}, now);
    } else if AddOperation(op) {
      AddStaysSmall(s, op, now, index);
    } else if RemoveOperation(op) {
      RemoveStaysSmall(c, s, op, now);
    } else {
      ContentStaysSmall(s, op, now, index);
    }
  }

  lemma WindowStaysSmall(s: State, op: Operation, now: nat)
    requires SmallState(s) && OperationSmall(op) && WindowOperation(op) && WindowStep(s, op, now).Some?
    ensures SmallState(WindowStep(s, op, now).value)
  {
    hide AllSmall, ItemsSmall, PublishGroups, WindowStep;
    WindowFamilies(s, op, now);
    if op.WindowFsync? {
      AcknowledgedStaySmall(s);
    } else if !op.WindowBatch? {
      var count := if op.Remount? then AcknowledgedCount(s.staged) else |s.staged|;
      assert s.staged[..|s.staged|] == s.staged;
      GroupsStaySmall(s.volume, s.staged[..count], {}, now);
    }
  }

  lemma AcknowledgedStaySmall(s: State)
    requires Fsync(s).Some? && forall g :: g in s.staged ==> ItemsSmall(g.items)
    ensures forall g :: g in Fsync(s).value.staged ==> ItemsSmall(g.items)
  {
    hide ItemsSmall;
    var t := Fsync(s).value;
    forall g | g in t.staged ensures ItemsSmall(g.items) {
      var i :| 0 <= i < |t.staged| && t.staged[i] == g;
      assert s.staged[i] in s.staged;
    }
  }

  lemma StepStaysSmall(c: Config, s: State, op: Operation, now: nat, index: nat)
    requires SmallState(s) && FieldsOk(op, index) && OperationSmall(op) && Step(c, s, op, now).Some?
    ensures SmallState(Step(c, s, op, now).value)
  {
    hide ItemsSmall, WindowStep, DirectStep, SnapshotStep, FieldsOk, Small;
    if WindowOperation(op) {
      WindowStaysSmall(s, op, now);
    } else if op.Snapshot? {
      SnapshotTicks(c, s, op.action, op.tag);
    } else if !op.Sync? && !op.ReclaimStep? && !op.SnapshotMaintenanceStep? {
      DirectStaysSmall(c, s.volume, op, now, index);
    }
  }

  lemma {:induction false} RunStaysSmall(c: Config, version: nat, s: State, a: Ledger, ops: seq<Operation>, index: nat)
    requires SmallState(s) && RunFrom(c, s, ops, index).Some? && AdmitFrom(version, index, a, ops).Some?
    ensures SmallState(RunFrom(c, s, ops, index).value)
    decreases |ops|
  {
    hide SmallState, Step, AdmitOperation, FieldsOk, OperationSmall;
    if ops != [] {
      AdmittedIsSmall(version, index, a, ops[0]);
      StepStaysSmall(c, s, ops[0], index + 1, index);
      RunStaysSmall(c, version, Step(c, s, ops[0], index + 1).value,
                    AdmitOperation(version, index, a, ops[0]).value, ops[1..], index + 1);
    }
  }

  // ---------- link counts

  lemma {:induction false} ItemsNameFew(kinds: map<Label, Kind>, items: seq<Item>)
    ensures |ItemKinds(kinds, items)| <= |kinds| + |items|
    decreases |items|
  {
    if items != [] {
      ItemsNameFew(if items[0].ItemCreate? then kinds[items[0].tag := FileKind] else kinds, items[1..]);
    }
  }

  lemma OperationNamesFew(version: nat, index: nat, a: Ledger, op: Operation, kinds: map<Label, Kind>)
    requires AdmitOperation(version, index, a, op).Some?
    ensures |NewKinds(kinds, op)| <= |kinds| + 16
  {
    hide KnownAt, FieldsOk, AdmitItems, ItemKinds;
    if op.Batch? || op.WindowBatch? { ItemsNameFew(kinds, op.items); }
  }

  /** An operation names at most sixteen labels. */
  lemma {:induction false} ProgramNamesFew(
    version: nat, index: nat, a: Ledger, ops: seq<Operation>, kinds: map<Label, Kind>)
    requires AdmitFrom(version, index, a, ops).Some?
    ensures |KindsFrom(kinds, ops)| <= |kinds| + 16 * |ops|
    decreases |ops|
  {
    hide AdmitOperation, NewKinds;
    if ops != [] {
      OperationNamesFew(version, index, a, ops[0], kinds);
      ProgramNamesFew(version, index + 1, AdmitOperation(version, index, a, ops[0]).value, ops[1..],
        NewKinds(kinds, ops[0]));
    }
  }

  lemma {:induction false} FewerLabels(a: set<Label>, b: set<Label>)
    requires a <= b
    ensures |a| <= |b|
    decreases a
  {
    if a != {} {
      var l :| l in a;
      FewerLabels(a - {l}, b - {l});
    }
  }

  /** An object has no more links than there are labels. */
  lemma LinksAreFew(s: Volume, kinds: map<Label, Kind>, id: nat)
    requires Structure(s) && Typed(s, kinds) && id in s.objects && kinds != map[]
    ensures s.objects[id].links <= |kinds|
  {
    assert Counted(s, id);
    if l :| l in OrphansOf(s.orphaned, id) {
      assert Registered(s, l);
    } else {
      assert OrphansOf(s.orphaned, id) == {};
      FewerLabels(NamesOf(s.names, id), kinds.Keys);
    }
  }

  // ---------- the projection of an admitted program

  lemma InitialIsSmall()
    ensures SmallState(Initial())
  {
  }

  /** At the end of an admitted program every value fits its field. */
  lemma AdmittedRunFits(version: nat, c: Config, ops: seq<Operation>, id: nat)
    requires |ops| <= MAX_OPS && AdmitAll(version, ops).Some? && RunFrom(c, Initial(), ops, 0).Some?
    requires id in RunFrom(c, Initial(), ops, 0).value.volume.objects
    ensures Linked.Fits(RunFrom(c, Initial(), ops, 0).value.volume.objects[id])
  {
    var s := RunFrom(c, Initial(), ops, 0).value;
    hide RunFrom, Initial, AdmitFrom, KindsFrom, ViewsSound, WindowSound, RunFollows, HarmlessRun, Structure, Typed;
    AdmittedRunIsSound(version, c, ops);
    InitialIsSmall();
    RunStaysSmall(c, version, Initial(), Empty(), ops, 0);
    ProgramNamesFew(version, 0, Empty(), ops, map[ROOT := DirectoryKind]);
    AdmittedIsTyped(version, 0, Empty(), ops, map[ROOT := DirectoryKind]);
    assert ROOT in Kinds(ops);
    LinksAreFew(s.volume, Kinds(ops), id);
    var n := s.volume.objects[id];
    assert Small(n);
    if n.content.Regular? { Coverage.OfIsShort(n.content.file.blocks); }
  }

  /** The projection of the volume an admitted program leads to is admitted. */
  lemma AdmittedRunIsProjected(version: nat, c: Config, ops: seq<Operation>)
    requires |ops| <= MAX_OPS && AdmitAll(version, ops).Some? && RunFrom(c, Initial(), ops, 0).Some?
    ensures var s := RunFrom(c, Initial(), ops, 0).value.volume;
      Good(s) && Linked.AllAdmitted(Linked.Projection(s))
  {
    var s := RunFrom(c, Initial(), ops, 0).value.volume;
    hide RunFrom, Initial, AdmitFrom, ViewsSound, WindowSound, RunFollows, HarmlessRun, Structure, Linked.Fits;
    AdmittedRunIsSound(version, c, ops);
    forall id | id in s.objects ensures Linked.Fits(s.objects[id]) { AdmittedRunFits(version, c, ops, id); }
    Linked.ProjectionIsAdmitted(s);
  }
}
