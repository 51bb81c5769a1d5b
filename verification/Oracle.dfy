/** The filesystem oracle as a transition function: one accepted operation takes
    a state to the next one, a refused operation gives None. */
module Oracle {
  import opened Basics
  import opened Scenario
  import opened Namespace
  import opened Ordering
  import opened Files
  import Coverage

  const MAX_VIEWS := 16

  datatype Content =
    | Directory
    | Symlink(target: Bytes)
    | Regular(file: File, policy: bool)

  function KindOf(content: Content): Kind {
    match content { case Directory => DirectoryKind case Symlink(_) => SymlinkKind case Regular(_, _) => FileKind }
  }

  datatype Node = Node(content: Content, links: nat, protection: nat,
                       created: nat, modified: nat, changed: nat, generation: nat)

  datatype Metadata = Metadata(id: nat, kind: Kind, size: nat, space: nat, links: nat, protection: nat,
                               created: nat, modified: nat, changed: nat, generation: nat)

  datatype Captured = Captured(path: seq<Name>, metadata: Metadata, data: Bytes, allocation: seq<Coverage.Range>)

  datatype View = View(id: nat, generation: nat, transaction: nat, root: Metadata, entries: seq<Captured>)

  /** One staged window group and whether an fsync has acknowledged it. */
  datatype Group = Group(items: seq<Item>, acknowledged: bool)

  datatype Config = Config(singleBlock: bool, orphanExtents: nat)

  /** The published volume. */
  datatype Volume = Volume(
    generation: nat, nextObject: nat, objects: map<nat, Node>, names: Names, used: set<Label>, orphaned: map<Label,
    nat>)

  /** The volume with its captured views and the open window. */
  datatype State = State(
    volume: Volume, snapshotIds: map<Label, nat>, views: map<Label, Option<View>>, handles: set<Label>,
    maintained: bool, staged: seq<Group>, records: nat)

  function Initial(): State {
    State(Volume(1, 16, map[1 := Node(Directory, 1, 0, 0, 0, 0, 1)], map[ROOT := Entry(1, None, [])], {ROOT}, map[]),
          map[], map[], {}, false, [], 0)
  }

  // ---------- reading the state

  predicate Named(s: Volume, l: Label) { l in s.names && s.names[l].id in s.objects }

  function NodeOf(s: Volume, l: Label): Node
    requires Named(s, l)
  {
    s.objects[s.names[l].id]
  }

  predicate Live(s: Volume, l: Label) { l != ROOT && Named(s, l) }
  predicate LiveFile(s: Volume, l: Label) { Live(s, l) && NodeOf(s, l).content.Regular? }
  predicate IsDirectory(s: Volume, l: Label) { Named(s, l) && NodeOf(s, l).content.Directory? }
  predicate HasParent(s: Volume, l: Label) {
    l in s.names && s.names[l].parent.Some? && Named(s, s.names[l].parent.value)
  }

  ghost predicate Insertable(s: Volume, tag: Label, parent: Label, name: Name) {
    tag !in s.used && IsDirectory(s, parent) && Vacant(s.names, parent, name)
  }

  // ---------- elementary changes

  function Tick(s: Volume): Volume { s.(generation := s.generation + 1) }

  function Put(s: Volume, id: nat, n: Node): Volume { s.(objects := s.objects[id := n]) }

  function Change(s: Volume, id: nat, now: nat): Volume
    requires id in s.objects
  {
    Put(s, id, s.objects[id].(changed := now))
  }

  /** A directory whose entries change takes the generation and both times. */
  function Touch(s: Volume, l: Label, now: nat): Volume
    requires Named(s, l)
  {
    Put(s, s.names[l].id, NodeOf(s, l).(modified := now, changed := now, generation := s.generation))
  }

  function TouchParent(s: Volume, l: Label, now: nat): Volume
    requires HasParent(s, l)
  {
    Touch(s, s.names[l].parent.value, now)
  }

  function Fresh(s: Volume, content: Content, now: nat): Node {
    Node(content, 1, 0, now, now, now, s.generation)
  }

  function AddObject(s: Volume, n: Node): Volume {
    s.(objects := s.objects[s.nextObject := n], nextObject := s.nextObject + 1)
  }

  function Bind(s: Volume, tag: Label, id: nat, parent: Label, name: Name, now: nat): Volume
    requires id in s.objects && Named(s, parent)
  {
    Touch(s.(used := s.used + {tag}, names := s.names[tag := Entry(id, Some(parent), name)]), parent, now)
  }

  function MoveEntry(s: Volume, tag: Label, parent: Label, name: Name): Volume
    requires tag in s.names
  {
    s.(names := s.names[tag := s.names[tag].(parent := Some(parent), name := name)])
  }

  /** Remove one name. The object keeps its other links; a final link either
      passes to the reserved directory or takes the object with it. */
  function DropName(s: Volume, tag: Label, orphan: bool, now: nat): Volume
    requires Named(s, tag)
  {
    var id, n := s.names[tag].id, NodeOf(s, tag);
    var t := s.(names := s.names - {tag});
    if n.links > 1 then Put(t, id, n.(links := n.links - 1, changed := now))
    else if orphan then Put(t, id, n.(links := 1, changed := now)).(orphaned := s.orphaned[tag := id])
    else t.(objects := s.objects - {id})
  }

  // ---------- operations on names

  ghost function Insert(s: Volume, content: Content, tag: Label, parent: Label, name: Name, now: nat): Option<Volume> {
    if !Insertable(s, tag, parent, name) then None else
      var t := Tick(s);
      Some(Bind(AddObject(t, Fresh(t, content, now)), tag, t.nextObject, parent, name, now))
  }

  ghost function AddLink(s: Volume, tag: Label, source: Label, parent: Label, name: Name, now: nat): Option<Volume> {
    if !Insertable(s, tag, parent, name) || !LiveFile(s, source) then None else
      var t, n := Tick(s), NodeOf(s, source);
      Some(Bind(Put(t, s.names[source].id, n.(links := n.links + 1, changed := now)),
                tag, s.names[source].id, parent, name, now))
  }

  ghost function Clone(s: Volume, tag: Label, source: Label, parent: Label, name: Name, now: nat): Option<Volume> {
    if !Insertable(s, tag, parent, name) || !LiveFile(s, source) then None else
      var t, id, n := Tick(s), s.names[source].id, NodeOf(s, source);
      var f := n.content.file.(shared := n.content.file.blocks.Keys);
      var copy := Fresh(t, Regular(f, false), now).(protection := n.protection, modified := n.modified);
      Some(Bind(Put(AddObject(t, copy), id, n.(content := n.content.(file := f), changed := now)),
                tag, t.nextObject, parent, name, now))
  }

  /** The parent lies below the moved directory, or its chain does not end. */
  ghost predicate Below(s: Volume, l: Label, tag: Label) {
    !Rooted(s.names, l) || Reaches(s.names, tag, l)
  }

  ghost function Move(s: Volume, tag: Label, parent: Label, name: Name, now: nat): Option<Volume> {
    if !Live(s, tag) || !IsDirectory(s, parent) || !HasParent(s, tag) then None
    else if !Vacant(s.names, parent, name) then None
    else if NodeOf(s, tag).content.Directory? && Below(s, parent, tag) then None
    else
      Some(MoveEntry(Touch(TouchParent(Change(Tick(s), s.names[tag].id, now), tag, now), parent, now),
                     tag, parent, name))
  }

  ghost predicate Replaceable(s: Volume, tag: Label, victim: Label, parent: Label, name: Name)
    requires tag in s.names
  {
    && Named(s, victim) && s.names[victim].parent == Some(parent) && s.names[victim].name == name
    && s.names[victim].id != s.names[tag].id
  }

  ghost function Replace(
    s: Volume, tag: Label, victim: Label, parent: Label, name: Name, orphan: bool, now: nat): Option<Volume>
  {
    if !LiveFile(s, tag) || !LiveFile(s, victim) || !IsDirectory(s, parent) || !HasParent(s, tag) then None
    else if !Replaceable(s, tag, victim, parent, name) then None
    else
      var t := Touch(TouchParent(Change(Tick(s), s.names[tag].id, now), tag, now), parent, now);
      Some(MoveEntry(DropName(t, victim, orphan, now), tag, parent, name))
  }

  ghost function Remove(s: Volume, tag: Label, now: nat): Option<Volume> {
    if !Live(s, tag) || !HasParent(s, tag) then None else
      Some(DropName(TouchParent(Tick(s), tag, now), tag, false, now))
  }

  ghost function Orphan(s: Volume, tag: Label, now: nat): Option<Volume> {
    if !LiveFile(s, tag) || !HasParent(s, tag) || NodeOf(s, tag).links != 1 then None else
      Some(DropName(TouchParent(Tick(s), tag, now), tag, true, now))
  }

  ghost function Cleanup(c: Config, s: Volume, tag: Label): Option<Volume> {
    if tag !in s.orphaned || s.orphaned[tag] !in s.objects || !s.objects[s.orphaned[tag]].content.Regular? then None
    else if |Coverage.Of(s.objects[s.orphaned[tag]].content.file.blocks)| > c.orphanExtents then None
    else Some(Tick(s).(objects := s.objects - {s.orphaned[tag]}, orphaned := s.orphaned - {tag}))
  }

  // ---------- operations on contents and attributes

  /** Replace the contents of one file, which moves its generation and times. */
  function Rewrite(s: Volume, l: Label, f: File, now: nat): Volume
    requires LiveFile(s, l)
  {
    var t, n := Tick(s), NodeOf(s, l);
    Put(t, s.names[l].id,
        n.(content := n.content.(file := f), modified := now, changed := now, generation := t.generation))
  }

  ghost function WriteFile(
    s: Volume, l: Label, offset: nat, data: Bytes, budget: Option<Budget>, now: nat): Option<Volume>
  {
    if !LiveFile(s, l) then None
    else if data == [] then Some(s)
    else if budget.Some? && Blocks(offset + |data|) - offset / 4096 > budget.value.maxBlocks then None
    else Some(Rewrite(s, l, Files.Write(NodeOf(s, l).content.file, offset, data), now))
  }

  ghost function TruncateFile(s: Volume, l: Label, size: nat, budget: Option<Budget>, now: nat): Option<Volume> {
    if !LiveFile(s, l) then None else
      var f := NodeOf(s, l).content.file;
      if size == |f.data| then Some(s)
      else if budget.Some? && size < |f.data| && Retired(f, size) > budget.value.maxBlocks then None
      else Some(Rewrite(s, l, Files.Truncate(f, size), now))
  }

  ghost function CloneRangeOf(
    s: Volume, source: Label, start: nat, dest: Label, target: nat, length: nat, now: nat): Option<Volume>
  {
    if !LiveFile(s, source) || !LiveFile(s, dest) || s.names[source].id == s.names[dest].id then None else
      var n, d := NodeOf(s, source), NodeOf(s, dest);
      if !Cloneable(n.content.file, start, target, length) then None
      else if length == 0 then Some(s)
      else
        var f := CloneDestination(n.content.file, d.content.file, start, target, length);
        var t := if Marked(n.content.file, start, target, length) == {} then s else
          Put(s, s.names[source].id,
              n.(content := n.content.(file := CloneSource(n.content.file, start, target, length)), changed := now));
        Some(Rewrite(t, dest, f, now))
  }

  /** Replace attributes without touching times other than the change time. */
  function Amend(s: Volume, l: Label, n: Node, now: nat): Volume
    requires Named(s, l)
  {
    Put(Tick(s), s.names[l].id, n.(changed := now))
  }

  ghost function Reserve(
    s: Volume, l: Label, offset: nat, length: nat, budget: Option<Budget>, now: nat): Option<Volume>
  {
    if !LiveFile(s, l) then None
    else if length == 0 then Some(s)
    else if budget.Some? && Blocks(offset + length) - offset / 4096 > budget.value.maxBlocks then None
    else
      var n := NodeOf(s, l);
      if Holes(n.content.file, offset, length) == {} then Some(s) else
        Some(Amend(s, l, n.(content := n.content.(file := Files.Preallocate(n.content.file, offset, length))), now))
  }

  ghost function SetPolicy(s: Volume, l: Label, policy: bool, now: nat): Option<Volume> {
    if !LiveFile(s, l) then None
    else if NodeOf(s, l).content.policy == policy then Some(s)
    else Some(Amend(s, l, NodeOf(s, l).(content := NodeOf(s, l).content.(policy := policy)), now))
  }

  ghost function Protect(s: Volume, l: Label, protection: nat, now: nat): Option<Volume> {
    if !Live(s, l) then None
    else if NodeOf(s, l).protection == protection then Some(s)
    else Some(Amend(s, l, NodeOf(s, l).(protection := protection), now))
  }

  ghost function Restore(
    s: Volume, l: Label, protection: nat, created: nat, modified: nat, changed: nat): Option<Volume>
  {
    if !Live(s, l) then None else
      var n := NodeOf(s, l).(protection := protection, created := created, modified := modified, changed := changed);
      if n == NodeOf(s, l) then Some(s) else Some(Amend(s, l, n, changed))
  }

  // ---------- batches and windows

  datatype Progress = Progress(volume: Volume, created: set<nat>)

  ghost function BatchItem(s: Volume, item: Item, deferred: bool, created: set<nat>, now: nat): Option<Progress> {
    match item
    case ItemCreate(tag, parent, name, data) =>
      if !Insertable(s, tag, parent, name) then None else
        var t := AddObject(s, Fresh(s, Regular(Created(data), false), now));
        Some(Progress(Bind(t, tag, s.nextObject, parent, name, now), created + {s.nextObject}))
    case ItemDelete(tag) =>
      if !LiveFile(s, tag) || !HasParent(s, tag) then None else
        Some(Progress(DropName(TouchParent(s, tag, now), tag, deferred && s.names[tag].id !in created, now), created))
    case ItemRename(tag, parent, name) =>
      if !LiveFile(s, tag) || !IsDirectory(s, parent) || !Vacant(s.names, parent, name)
         || !HasParent(s, tag) then None else
        var t := Touch(TouchParent(Change(s, s.names[tag].id, now), tag, now), parent, now);
        Some(Progress(MoveEntry(t, tag, parent, name), created))
    case ItemReplace(tag, victim, parent, name) =>
      if !LiveFile(s, tag) || !IsDirectory(s, parent) || !Replaceable(s, tag, victim, parent, name) then None else
        var t := DropName(s, victim, deferred && s.names[victim].id !in created, now);
        if !HasParent(t, tag) || !Named(t, parent) then None else
          var u := Touch(TouchParent(Change(t, t.names[tag].id, now), tag, now), parent, now);
          Some(Progress(MoveEntry(u, tag, parent, name), created))
  }

  ghost function BatchItems(s: Volume, items: seq<Item>, deferred: bool, created: set<nat>, now: nat): Option<Progress>
    decreases |items|
  {
    if items == [] then Some(Progress(s, created)) else
      var r := BatchItem(s, items[0], deferred, created, now);
      if r.None? then None else BatchItems(r.value.volume, items[1..], deferred, r.value.created, now)
  }

  /** One atomic transaction: every member publishes one generation. */
  ghost function RunBatch(s: Volume, items: seq<Item>, deferred: bool, created: set<nat>, now: nat): Option<Progress> {
    if items == [] then None else BatchItems(Tick(s), items, deferred, created, now)
  }

  ghost function PublishGroups(s: Volume, groups: seq<Group>, created: set<nat>, now: nat): Option<Volume>
    decreases |groups|
  {
    if groups == [] then Some(s) else
      var r := RunBatch(s, groups[0].items, true, created, now);
      if r.None? then None else PublishGroups(r.value.volume, groups[1..], r.value.created, now)
  }

  /** Publish the first `count` staged groups and forget the window. */
  ghost function Publish(s: State, count: nat, now: nat): Option<State>
    requires count <= |s.staged|
  {
    var r := PublishGroups(s.volume, s.staged[..count], {}, now);
    if r.None? then None else Some(s.(volume := r.value, staged := [], records := 0))
  }

  function AcknowledgedCount(groups: seq<Group>): (n: nat)
    ensures n <= |groups|
  {
    if groups == [] then 0 else
      AcknowledgedCount(groups[..|groups| - 1]) + if groups[|groups| - 1].acknowledged then 1 else 0
  }

  function Unacknowledged(groups: seq<Group>): nat {
    if groups == [] then 0 else
      var last := groups[|groups| - 1];
      Unacknowledged(groups[..|groups| - 1]) + if last.acknowledged then 0 else |last.items|
  }

  function Acknowledge(groups: seq<Group>): seq<Group> {
    seq(|groups|, i requires 0 <= i < |groups| => groups[i].(acknowledged := true))
  }

  function Fsync(s: State): Option<State> {
    if Unacknowledged(s.staged) == 0 then Some(s)
    else if Unacknowledged(s.staged) > 64 || s.records >= 6 then None
    else Some(s.(staged := Acknowledge(s.staged), records := s.records + 1))
  }

  // ---------- captured views

  function MetadataOf(id: nat, n: Node): Metadata {
    var size := match n.content { case Directory => 0 case Symlink(target) => |target| case Regular(f, _) => |f.data| };
    var space := if id == 1 then 4096 else if n.content.Regular? then 4096 * |n.content.file.blocks| else 0;
    Metadata(id, KindOf(n.content), size, space, n.links, n.protection, n.created, n.modified, n.changed, n.generation)
  }

  function CaptureEntry(path: seq<Name>, id: nat, n: Node): Captured {
    var data := match n.content { case Directory => [] case Symlink(target) => target case Regular(f, _) => f.data };
    Captured(path, MetadataOf(id, n), data, if n.content.Regular? then Coverage.Of(n.content.file.blocks) else [])
  }

  /** The single-block profile refuses to capture a file mapped past block zero. */
  predicate Capturable(c: Config, s: Volume) {
    c.singleBlock ==> forall l :: l in s.names && LiveFile(s, l) ==> NodeOf(s, l).content.file.blocks.Keys <= {0}
  }

  ghost predicate AllBound(s: Volume, labels: seq<Label>) {
    forall l :: l in labels ==> l in s.names && Named(s, l) && Rooted(s.names, l)
  }

  ghost function CaptureEntries(s: Volume, labels: seq<Label>): (r: seq<Captured>)
    requires AllBound(s, labels)
    ensures |r| == |labels|
    ensures forall i :: 0 <= i < |r| ==>
      labels[i] in labels && r[i] == CaptureEntry(Path(s.names, labels[i]), s.names[labels[i]].id, NodeOf(s, labels[i]))
  {
    seq(|labels|, i requires 0 <= i < |labels| => assert labels[i] in labels;
      CaptureEntry(Path(s.names, labels[i]), s.names[labels[i]].id, NodeOf(s, labels[i])))
  }

  ghost function Capture(s: Volume, id: nat): View
    requires CanCapture(s)
  {
    View(id, s.generation, s.generation, MetadataOf(1, s.objects[1]),
         CaptureEntries(s, SortByPath(s.names, s.names.Keys - {ROOT})))
  }

  function OpenViews(s: State): set<Label> {
    set l | l in s.views && s.views[l].Some?
  }

  ghost predicate CanCapture(s: Volume) {
    Tree(s.names) && 1 in s.objects && forall l :: l in s.names ==> Named(s, l)
  }

  /** Register a view under the next identity. */
  function AddView(s: State, l: Label, v: View): State {
    s.(volume := Tick(s.volume), snapshotIds := s.snapshotIds[l := |s.snapshotIds| + 1], views := s.views[l := Some(v)])
  }

  ghost function SnapshotStep(c: Config, s: State, action: Action, l: Label): Option<State> {
    if action.ViewCreate? then
      if s.maintained || l in s.snapshotIds || |OpenViews(s)| >= MAX_VIEWS || !CanCapture(s.volume)
         || !Capturable(c, s.volume) then None else
        Some(AddView(s, l, Capture(s.volume, |s.snapshotIds| + 1)))
    else if l !in s.views || s.views[l].None? then None
    else match action
      case ViewOpen => if l in s.handles then None else Some(s.(handles := s.handles + {l}))
      case ViewInspect => if l in s.handles then Some(s) else None
      case ViewClose => if l in s.handles then Some(s.(handles := s.handles - {l})) else None
      case _ => if l in s.handles then None else Some(s.(volume := Tick(s.volume), views := s.views[l := None]))
  }

  // ---------- one operation

  predicate WindowOperation(op: Operation) {
    op.WindowBatch? || op.WindowFsync? || op.WindowCommit? || op.Remount?
  }

  predicate AddOperation(op: Operation) {
    op.Create? || op.Mkdir? || op.Symlink? || op.Link? || op.CloneFile?
  }

  predicate RemoveOperation(op: Operation) {
    || op.Rename? || op.RenameReplace? || op.Unlink? || op.UnlinkSymlink? || op.Rmdir? || op.OrphanFile?
    || op.CleanupOrphan?
  }

  ghost function AddStep(s: Volume, op: Operation, now: nat): Option<Volume> {
    match op
    case Create(tag, parent, name, data) => Insert(s, Regular(Created(data), false), tag, parent, name, now)
    case Mkdir(tag, parent, name) => Insert(s, Directory, tag, parent, name, now)
    case Symlink(tag, parent, name, target) => Insert(s, Content.Symlink(target), tag, parent, name, now)
    case Link(tag, source, parent, name) => AddLink(s, tag, source, parent, name, now)
    case CloneFile(tag, source, parent, name) => Clone(s, tag, source, parent, name, now)
    case _ => None
  }

  ghost function MoveStep(s: Volume, op: Operation, now: nat): Option<Volume> {
    match op
    case Rename(tag, parent, name) => Move(s, tag, parent, name, now)
    case RenameReplace(tag, victim, parent, name, orphan) => Replace(s, tag, victim, parent, name, orphan, now)
    case _ => None
  }

  ghost function UnlinkStep(s: Volume, op: Operation, now: nat): Option<Volume> {
    match op
    case Unlink(tag) => if LiveFile(s, tag) then Remove(s, tag, now) else None
    case UnlinkSymlink(tag) => if Live(s, tag) && NodeOf(s, tag).content.Symlink? then Remove(s, tag, now) else None
    case Rmdir(tag) => if IsDirectory(s, tag) && Childless(s.names, tag) then Remove(s, tag, now) else None
    case _ => None
  }

  ghost function OrphanStep(c: Config, s: Volume, op: Operation, now: nat): Option<Volume> {
    match op
    case OrphanFile(tag) => Orphan(s, tag, now)
    case CleanupOrphan(tag) => Cleanup(c, s, tag)
    case _ => None
  }

  ghost function RemoveStep(c: Config, s: Volume, op: Operation, now: nat): Option<Volume> {
    if op.Rename? || op.RenameReplace? then MoveStep(s, op, now)
    else if op.OrphanFile? || op.CleanupOrphan? then OrphanStep(c, s, op, now)
    else UnlinkStep(s, op, now)
  }

  predicate AttributeOperation(op: Operation) { op.SetDataPolicy? || op.SetProtection? || op.RestoreMetadata? }

  ghost function AttributeStep(s: Volume, op: Operation, now: nat): Option<Volume> {
    match op
    case SetDataPolicy(tag, policy) => SetPolicy(s, tag, policy, now)
    case SetProtection(tag, protection) => Protect(s, tag, protection, now)
    case RestoreMetadata(tag, protection, created, modified, changed) =>
      Restore(s, tag, protection, created, modified, changed)
    case _ => None
  }

  ghost function DataStep(s: Volume, op: Operation, now: nat): Option<Volume> {
    match op
    case CloneRange(source, start, dest, target, length) => CloneRangeOf(s, source, start, dest, target, length, now)
    case Write(tag, offset, data, budget) => WriteFile(s, tag, offset, data, budget, now)
    case Truncate(tag, size, budget) => TruncateFile(s, tag, size, budget, now)
    case Preallocate(tag, offset, length, budget) => Reserve(s, tag, offset, length, budget, now)
    case _ => None
  }

  ghost function ContentStep(s: Volume, op: Operation, now: nat): Option<Volume> {
    if AttributeOperation(op) then AttributeStep(s, op, now) else DataStep(s, op, now)
  }

  ghost function WindowStep(s: State, op: Operation, now: nat): Option<State> {
    match op
    case WindowBatch(items) => if items == [] then None else Some(s.(staged := s.staged + [Group(items, false)]))
    case WindowFsync => Fsync(s)
    case WindowCommit => Publish(s, |s.staged|, now)
    case Remount =>
      var r := Publish(s, AcknowledgedCount(s.staged), now);
      if r.None? then None else Some(r.value.(handles := {}))
    case _ => None
  }

  /** The operations that change the volume at once. */
  ghost function DirectStep(c: Config, s: Volume, op: Operation, now: nat): Option<Volume> {
    if op.Batch? then
      var r := RunBatch(s, op.items, false, {}, now);
      if r.None? then None else Some(r.value.volume)
    else if AddOperation(op) then AddStep(s, op, now)
    else if RemoveOperation(op) then RemoveStep(c, s, op, now)
    else ContentStep(s, op, now)
  }

  ghost function Step(c: Config, s: State, op: Operation, now: nat): Option<State> {
    if WindowOperation(op) then WindowStep(s, op, now)
    else if s.staged != [] then None
    else if op.Sync? then Some(s)
    else if op.ReclaimStep? || op.SnapshotMaintenanceStep? then Some(s.(maintained := true))
    else if op.Snapshot? then SnapshotStep(c, s, op.action, op.tag)
    else
      var r := DirectStep(c, s.volume, op, now);
      if r.None? then None else Some(s.(volume := r.value))
  }

  /** Run a program whose first operation has the given index; operation i is stamped i + 1. */
  ghost function RunFrom(c: Config, s: State, ops: seq<Operation>, index: nat): Option<State>
    decreases |ops|
  {
    if ops == [] then Some(s) else
      var r := Step(c, s, ops[0], index + 1);
      if r.None? then None else RunFrom(c, r.value, ops[1..], index + 1)
  }
}
