/** The oracle as the object that the fuzzer drives: fields that each operation
    updates in place, proved against the transition function. */
module ObjectModels {
  import opened Basics
  import opened Scenario
  import opened Namespace
  import opened Ordering
  import opened Files
  import opened Oracle
  import opened OracleInvariant
  import opened OracleSteps
  import Coverage
  import Linked

  class ObjectModel {
    var generation: nat
    var nextObject: nat
    var objects: map<nat, Node>
    var names: Names
    var used: set<Label>
    var orphaned: map<Label, nat>
    var snapshotIds: map<Label, nat>
    var views: map<Label, Option<View>>
    var handles: set<Label>
    var maintained: bool
    var staged: seq<Group>
    var records: nat
    const config: Config

    ghost function V(): Volume
      reads this
    {
      Volume(generation, nextObject, objects, names, used, orphaned)
    }

    ghost function S(): State
      reads this
    {
      State(V(), snapshotIds, views, handles, maintained, staged, records)
    }

    constructor (singleBlock: bool, orphanExtents: nat)
      ensures S() == Initial() && config == Config(singleBlock, orphanExtents)
    {
      config := Config(singleBlock, orphanExtents);
      generation, nextObject, maintained, records := 1, 16, false, 0;
      objects := map[1 := Node(Directory, 1, 0, 0, 0, 0, 1)];
      names, used := map[ROOT := Entry(1, None, [])], {ROOT};
      snapshotIds, views, handles, orphaned, staged := map[], map[], {}, map[], [];
    }

    // ---------- queries

    /** Climb to the root and reverse the names met. */
    method PathOf(l: Label) returns (path: seq<Name>)
      requires Tree(names) && l in names
      ensures path == Path(names, l)
    {
      path := [];
      var at := l;
      while at != ROOT
        invariant at in names && Path(names, l) == Path(names, at) + path
        decreases Depth(names, at)
      {
        ParentIsRooted(names, at);
        path := [names[at].name] + path;
        at := names[at].parent.value;
        assert Rooted(names, at);
      }
    }

    method ReachesFrom(ancestor: Label, l: Label) returns (found: bool)
      requires Tree(names) && l in names
      ensures found == Reaches(names, ancestor, l)
    {
      var at := l;
      while true
        invariant at in names && Reaches(names, ancestor, l) == Reaches(names, ancestor, at)
        decreases Depth(names, at)
      {
        if at == ancestor { return true; }
        if at == ROOT { return false; }
        ParentIsRooted(names, at);
        at := names[at].parent.value;
        assert Rooted(names, at);
      }
    }

    predicate IsVacant(parent: Label, name: Name)
      reads this
      ensures IsVacant(parent, name) == Vacant(names, parent, name)
    {
      !exists l :: l in names && names[l].parent == Some(parent) && names[l].name == name
    }

    predicate CanInsert(tag: Label, parent: Label, name: Name)
      reads this
      ensures CanInsert(tag, parent, name) == Insertable(V(), tag, parent, name)
    {
      tag !in used && Dir(parent) && IsVacant(parent, name)
    }

    predicate Bound(l: Label)
      reads this
      ensures Bound(l) == Named(V(), l)
    {
      l in names && names[l].id in objects
    }

    function Get(l: Label): (n: Node)
      requires Bound(l)
      reads this
      ensures n == NodeOf(V(), l)
    {
      objects[names[l].id]
    }

    predicate Dir(l: Label)
      reads this
      ensures Dir(l) == IsDirectory(V(), l)
    {
      Bound(l) && Get(l).content.Directory?
    }

    predicate IsFile(l: Label)
      reads this
      ensures IsFile(l) == LiveFile(V(), l)
    {
      l != ROOT && Bound(l) && Get(l).content.Regular?
    }

    predicate ParentBound(l: Label)
      reads this
      ensures ParentBound(l) == HasParent(V(), l)
    {
      l in names && names[l].parent.Some? && Bound(names[l].parent.value)
    }

    // ---------- helpers that update the fields

    method TouchAt(l: Label, now: nat)
      requires Bound(l)
      modifies this`objects
      ensures V() == Touch(old(V()), l, now)
    {
      objects := objects[names[l].id := Get(l).(modified := now, changed := now, generation := generation)];
    }

    method BindAt(tag: Label, id: nat, parent: Label, name: Name, now: nat)
      requires id in objects && Bound(parent)
      modifies this`objects, this`used, this`names
      ensures V() == Bind(old(V()), tag, id, parent, name, now)
    {
      used := used + {tag};
      names := names[tag := Entry(id, Some(parent), name)];
      TouchAt(parent, now);
    }

    method NewObject(content: Content, now: nat) returns (id: nat)
      modifies this`generation, this`nextObject, this`objects
      ensures V() == AddObject(Tick(old(V())), Fresh(Tick(old(V())), content, now)) && id == old(nextObject)
    {
      generation := generation + 1;
      id := nextObject;
      nextObject := nextObject + 1;
      objects := objects[id := Node(content, 1, 0, now, now, now, generation)];
    }

    /** Take one name away, with the object's last link handled as asked. */
    method DropAt(tag: Label, orphan: bool, now: nat)
      requires Bound(tag)
      modifies this`objects, this`names, this`orphaned
      ensures V() == DropName(old(V()), tag, orphan, now)
    {
      var id, n := names[tag].id, Get(tag);
      names := names - {tag};
      if n.links > 1 {
        objects := objects[id := n.(links := n.links - 1, changed := now)];
      } else if orphan {
        objects := objects[id := n.(links := 1, changed := now)];
        orphaned := orphaned[tag := id];
      } else {
        objects := objects - {id};
      }
    }

    /** Stamp the moved object and both directories, then change the entry. */
    method MoveAt(tag: Label, parent: Label, name: Name, now: nat)
      requires Bound(tag) && ParentBound(tag) && Bound(parent)
      modifies this`objects, this`names
      ensures V() == MoveEntry(Stamped(old(V()), tag, parent, now), tag, parent, name)
    {
      objects := objects[names[tag].id := Get(tag).(changed := now)];
      TouchAt(names[tag].parent.value, now);
      TouchAt(parent, now);
      names := names[tag := names[tag].(parent := Some(parent), name := name)];
    }

    // ---------- operations on names

    method Add(content: Content, tag: Label, parent: Label, name: Name, now: nat) returns (ok: bool)
      modifies this`generation, this`nextObject, this`objects, this`used, this`names
      ensures ok == Insert(old(V()), content, tag, parent, name, now).Some?
      ensures V() == if ok then Insert(old(V()), content, tag, parent, name, now).value else old(V())
    {
      if !CanInsert(tag, parent, name) { return false; }
      var id := NewObject(content, now);
      BindAt(tag, id, parent, name, now);
      return true;
    }

    method LinkTo(tag: Label, source: Label, parent: Label, name: Name, now: nat) returns (ok: bool)
      modifies this`generation, this`objects, this`used, this`names
      ensures ok == AddLink(old(V()), tag, source, parent, name, now).Some?
      ensures V() == if ok then AddLink(old(V()), tag, source, parent, name, now).value else old(V())
    {
      if !CanInsert(tag, parent, name) || !IsFile(source) { return false; }
      generation := generation + 1;
      var id, n := names[source].id, Get(source);
      objects := objects[id := n.(links := n.links + 1, changed := now)];
      BindAt(tag, id, parent, name, now);
      return true;
    }

    method CloneTo(tag: Label, source: Label, parent: Label, name: Name, now: nat) returns (ok: bool)
      modifies this`generation, this`nextObject, this`objects, this`used, this`names
      ensures ok == Clone(old(V()), tag, source, parent, name, now).Some?
      ensures V() == if ok then Clone(old(V()), tag, source, parent, name, now).value else old(V())
    {
      if !CanInsert(tag, parent, name) || !IsFile(source) { return false; }
      var at, n := names[source].id, Get(source);
      var f := n.content.file.(shared := n.content.file.blocks.Keys);
      var id := NewObject(Regular(f, false), now);
      objects := objects[id := objects[id].(protection := n.protection, modified := n.modified)];
      objects := objects[at := n.(content := n.content.(file := f), changed := now)];
      BindAt(tag, id, parent, name, now);
      return true;
    }

    method RenameTo(tag: Label, parent: Label, name: Name, now: nat) returns (ok: bool)
      requires Tree(names)
      modifies this`generation, this`objects, this`names
      ensures ok == Move(old(V()), tag, parent, name, now).Some?
      ensures V() == if ok then Move(old(V()), tag, parent, name, now).value else old(V())
    {
      if tag == ROOT || !Bound(tag) || !Dir(parent) || !ParentBound(tag) { return false; }
      if names[tag].parent == Some(parent) && names[tag].name == name { return false; }
      if !IsVacant(parent, name) { return false; }
      if Get(tag).content.Directory? {
        var below := ReachesFrom(tag, parent);
        if below { return false; }
      }
      generation := generation + 1;
      MoveAt(tag, parent, name, now);
      return true;
    }

    method ReplaceWith(tag: Label, victim: Label, parent: Label, name: Name, orphan: bool, now: nat) returns (ok: bool)
      modifies this`generation, this`objects, this`names, this`orphaned
      ensures ok == Replace(old(V()), tag, victim, parent, name, orphan, now).Some?
      ensures V() == if ok then Replace(old(V()), tag, victim, parent, name, orphan, now).value else old(V())
    {
      if !IsFile(tag) || !IsFile(victim) || !Dir(parent) || !ParentBound(tag) { return false; }
      if names[victim].parent != Some(parent) || names[victim].name != name { return false; }
      if names[victim].id == names[tag].id { return false; }
      generation := generation + 1;
      objects := objects[names[tag].id := Get(tag).(changed := now)];
      TouchAt(names[tag].parent.value, now);
      TouchAt(parent, now);
      DropAt(victim, orphan, now);
      names := names[tag := names[tag].(parent := Some(parent), name := name)];
      return true;
    }

    method RemoveAt(tag: Label, now: nat) returns (ok: bool)
      modifies this`generation, this`objects, this`names, this`orphaned
      ensures ok == Remove(old(V()), tag, now).Some?
      ensures V() == if ok then Remove(old(V()), tag, now).value else old(V())
    {
      if tag == ROOT || !Bound(tag) || !ParentBound(tag) { return false; }
      generation := generation + 1;
      TouchAt(names[tag].parent.value, now);
      DropAt(tag, false, now);
      return true;
    }

    method OrphanAt(tag: Label, now: nat) returns (ok: bool)
      modifies this`generation, this`objects, this`names, this`orphaned
      ensures ok == Orphan(old(V()), tag, now).Some?
      ensures V() == if ok then Orphan(old(V()), tag, now).value else old(V())
    {
      if !IsFile(tag) || !ParentBound(tag) || Get(tag).links != 1 { return false; }
      generation := generation + 1;
      TouchAt(names[tag].parent.value, now);
      DropAt(tag, true, now);
      return true;
    }

    method CleanupAt(tag: Label) returns (ok: bool)
      modifies this`generation, this`objects, this`orphaned
      ensures ok == Cleanup(config, old(V()), tag).Some?
      ensures V() == if ok then Cleanup(config, old(V()), tag).value else old(V())
    {
      if tag !in orphaned || orphaned[tag] !in objects || !objects[orphaned[tag]].content.Regular? { return false; }
      var ranges := Coverage.Normalize(objects[orphaned[tag]].content.file.blocks);
      if |ranges| > config.orphanExtents { return false; }
      generation := generation + 1;
      objects := objects - {orphaned[tag]};
      orphaned := orphaned - {tag};
      return true;
    }

    // ---------- operations on contents and attributes

    method RewriteAt(l: Label, f: File, now: nat)
      requires IsFile(l)
      modifies this`generation, this`objects
      ensures V() == Rewrite(old(V()), l, f, now)
    {
      var n := Get(l);
      generation := generation + 1;
      objects := objects[
        names[l].id := n.(content := n.content.(file := f), modified := now, changed := now, generation := generation)];
    }

    method AmendAt(l: Label, n: Node, now: nat)
      requires Bound(l)
      modifies this`generation, this`objects
      ensures V() == Amend(old(V()), l, n, now)
    {
      generation := generation + 1;
      objects := objects[names[l].id := n.(changed := now)];
    }

    method WriteAt(l: Label, offset: nat, data: Bytes, budget: Option<Budget>, now: nat) returns (ok: bool)
      modifies this`generation, this`objects
      ensures ok == WriteFile(old(V()), l, offset, data, budget, now).Some?
      ensures V() == if ok then WriteFile(old(V()), l, offset, data, budget, now).value else old(V())
    {
      if !IsFile(l) { return false; }
      if data == [] { return true; }
      var f := Get(l).content.file;
      var first, last := offset / 4096, Blocks(offset + |data|);
      if budget.Some? && last - first > budget.value.maxBlocks { return false; }
      var touched := Span(first, last);
      var mapped := f.blocks + map b | b in touched :: false;
      RewriteAt(l, File(Overwrite(f.data, offset, data), mapped, f.shared - touched), now);
      return true;
    }

    method TruncateAt(l: Label, size: nat, budget: Option<Budget>, now: nat) returns (ok: bool)
      modifies this`generation, this`objects
      ensures ok == TruncateFile(old(V()), l, size, budget, now).Some?
      ensures V() == if ok then TruncateFile(old(V()), l, size, budget, now).value else old(V())
    {
      if !IsFile(l) { return false; }
      var f := Get(l).content.file;
      if size == |f.data| { return true; }
      var shrink := size < |f.data|;
      if budget.Some? && shrink {
        var keep := Blocks(size);
        var retired := |Past(f.blocks, keep)|;
        if size % 4096 != 0 && keep - 1 in f.blocks && !f.blocks[keep - 1] { retired := retired + 1; }
        if retired > budget.value.maxBlocks { return false; }
      }
      var data := f.data;
      if shrink { data := data[..size]; }
      data := data + Zeros(size - |data|);
      var mapped, shared := f.blocks, f.shared;
      if shrink {
        var retained := Blocks(|data|);
        mapped := map b | b in mapped && b < retained :: mapped[b];
        shared := set b | b in shared && b < retained;
        if |data| % 4096 != 0 && retained - 1 in mapped && !mapped[retained - 1] { shared := shared - {retained - 1}; }
      }
      assert File(data, mapped, shared) == Files.Truncate(f, size);
      RewriteAt(l, File(data, mapped, shared), now);
      return true;
    }

    method CloneRangeAt(source: Label, start: nat, dest: Label, target: nat, length: nat, now: nat) returns (ok: bool)
      modifies this`generation, this`objects
      ensures ok == CloneRangeOf(old(V()), source, start, dest, target, length, now).Some?
      ensures V() == if ok then CloneRangeOf(old(V()), source, start, dest, target, length, now).value else old(V())
    {
      if !IsFile(source) || !IsFile(dest) || names[source].id == names[dest].id { return false; }
      var n, d := Get(source), Get(dest);
      var f, g := n.content.file, d.content.file;
      if start % 4096 != target % 4096 || start + length > |f.data| { return false; }
      if length == 0 { return true; }
      var blocks, shared, marked := CloneLayout(f, g, start, target, length);
      if marked != {} {
        objects := objects[
          names[source].id := n.(content := n.content.(file := f.(shared := f.shared + marked)), changed := now)];
      }
      RewriteAt(dest, File(Overwrite(g.data, target, f.data[start..start + length]), blocks, shared), now);
      return true;
    }

    method ReserveAt(l: Label, offset: nat, length: nat, budget: Option<Budget>, now: nat) returns (ok: bool)
      modifies this`generation, this`objects
      ensures ok == Reserve(old(V()), l, offset, length, budget, now).Some?
      ensures V() == if ok then Reserve(old(V()), l, offset, length, budget, now).value else old(V())
    {
      if !IsFile(l) { return false; }
      if length == 0 { return true; }
      var first, last := offset / 4096, Blocks(offset + length);
      if budget.Some? && last - first > budget.value.maxBlocks { return false; }
      var n := Get(l);
      var holes := Span(first, last) - n.content.file.blocks.Keys;
      if holes == {} { return true; }
      var reserved := n.content.file.blocks + map b | b in holes :: true;
      AmendAt(l, n.(content := n.content.(file := n.content.file.(blocks := reserved))), now);
      return true;
    }

    method SetPolicyAt(l: Label, policy: bool, now: nat) returns (ok: bool)
      modifies this`generation, this`objects
      ensures ok == SetPolicy(old(V()), l, policy, now).Some?
      ensures V() == if ok then SetPolicy(old(V()), l, policy, now).value else old(V())
    {
      if !IsFile(l) { return false; }
      var n := Get(l);
      if n.content.policy != policy { AmendAt(l, n.(content := n.content.(policy := policy)), now); }
      return true;
    }

    method ProtectAt(l: Label, protection: nat, now: nat) returns (ok: bool)
      modifies this`generation, this`objects
      ensures ok == Protect(old(V()), l, protection, now).Some?
      ensures V() == if ok then Protect(old(V()), l, protection, now).value else old(V())
    {
      if l == ROOT || !Bound(l) { return false; }
      if Get(l).protection != protection { AmendAt(l, Get(l).(protection := protection), now); }
      return true;
    }

    method RestoreAt(l: Label, protection: nat, created: nat, modified: nat, changed: nat) returns (ok: bool)
      modifies this`generation, this`objects
      ensures ok == Restore(old(V()), l, protection, created, modified, changed).Some?
      ensures V() == if ok then Restore(old(V()), l, protection, created, modified, changed).value else old(V())
    {
      if l == ROOT || !Bound(l) { return false; }
      var n := Get(l);
      if n.protection != protection || n.created != created || n.modified != modified || n.changed != changed {
        AmendAt(l, n.(protection := protection, created := created, modified := modified), changed);
      }
      return true;
    }

    // ---------- batches and windows

    /** One member of a batch; a refused one may leave the victim already gone. */
    method ItemAt(item: Item, deferred: bool, created: set<nat>, now: nat) returns (ok: bool, made: set<nat>)
      modifies this`nextObject, this`objects, this`names, this`used, this`orphaned
      ensures ok == BatchItem(old(V()), item, deferred, created, now).Some?
      ensures ok ==> BatchItem(old(V()), item, deferred, created, now) == Some(Progress(V(), made))
    {
      made := created;
      match item {
        case ItemCreate(tag, parent, name, data) =>
          if !CanInsert(tag, parent, name) { return false, made; }
          var id := nextObject;
          nextObject := nextObject + 1;
          objects := objects[id := Node(Regular(Created(data), false), 1, 0, now, now, now, generation)];
          made := made + {id};
          BindAt(tag, id, parent, name, now);
        case ItemDelete(tag) =>
          if !IsFile(tag) || !ParentBound(tag) { return false, made; }
          TouchAt(names[tag].parent.value, now);
          DropAt(tag, deferred && names[tag].id !in created, now);
        case ItemRename(tag, parent, name) =>
          if !IsFile(tag) || !Dir(parent) || !IsVacant(parent, name) || !ParentBound(tag) { return false, made; }
          MoveAt(tag, parent, name, now);
        case ItemReplace(tag, victim, parent, name) =>
          if !IsFile(tag) || !Dir(parent) || !Bound(victim) { return false, made; }
          if names[victim].parent != Some(parent) || names[victim].name != name { return false, made; }
          if names[victim].id == names[tag].id { return false, made; }
          DropAt(victim, deferred && names[victim].id !in created, now);
          if !ParentBound(tag) || !Bound(parent) { return false, made; }
          MoveAt(tag, parent, name, now);
      }
      return true, made;
    }

    method BatchAt(items: seq<Item>, deferred: bool, created: set<nat>, now: nat) returns (ok: bool, made: set<nat>)
      modifies this`generation, this`nextObject, this`objects, this`names, this`used, this`orphaned
      ensures ok == RunBatch(old(V()), items, deferred, created, now).Some?
      ensures ok ==> RunBatch(old(V()), items, deferred, created, now) == Some(Progress(V(), made))
    {
      made := created;
      if items == [] { return false, made; }
      generation := generation + 1;
      for i := 0 to |items|
        invariant BatchItems(V(), items[i..], deferred, made, now) == RunBatch(old(V()), items, deferred, created, now)
      {
        assert items[i..][1..] == items[i + 1..];
        ok, made := ItemAt(items[i], deferred, made, now);
        if !ok { return; }
      }
      return true, made;
    }

    /** Publish the first `count` groups under one window and close it. */
    method PublishGroupsOf(count: nat, now: nat) returns (ok: bool)
      requires count <= |staged|
      modifies this`generation, this`nextObject, this`objects, this`names, this`used, this`orphaned
      modifies this`staged, this`records
      ensures ok == Publish(old(S()), count, now).Some?
      ensures ok ==> S() == Publish(old(S()), count, now).value
    {
      var made: set<nat> := {};
      var groups := staged[..count];
      for i := 0 to count
        invariant PublishGroups(V(), groups[i..], made, now) == PublishGroups(old(V()), groups, {}, now)
        invariant S() == old(S()).(volume := V())
      {
        assert groups[i..][1..] == groups[i + 1..];
        ok, made := BatchAt(groups[i].items, true, made, now);
        if !ok { return; }
      }
      staged, records := [], 0;
      return true;
    }

    method FsyncWindow() returns (ok: bool)
      modifies this`staged, this`records
      ensures ok == Fsync(old(S())).Some?
      ensures S() == if ok then Fsync(old(S())).value else old(S())
    {
      if Unacknowledged(staged) == 0 { return true; }
      if Unacknowledged(staged) > 64 || records >= 6 { return false; }
      var groups: seq<Group> := [];
      for i := 0 to |staged|
        invariant |groups| == i && forall k :: 0 <= k < i ==> groups[k] == staged[k].(acknowledged := true)
      {
        groups := groups + [staged[i].(acknowledged := true)];
      }
      assert groups == Acknowledge(staged);
      staged, records := groups, records + 1;
      return true;
    }

    // ---------- projections and captured views

    method InsertByPath(labels: seq<Label>, l: Label) returns (r: seq<Label>)
      requires Tree(names) && l in names && l !in labels && (forall k :: k in labels ==> k in names)
      requires Ascends(names, labels)
      ensures forall k :: k in r <==> k in labels || k == l
      ensures Ascends(names, r)
    {
      var path := PathOf(l);
      var k := 0;
      while k < |labels| && PathBefore(Path(names, labels[k]), path)
        invariant k <= |labels|
        invariant forall i :: 0 <= i < k ==> PathBefore(Path(names, labels[i]), path)
      {
        k := k + 1;
      }
      r := labels[..k] + [l] + labels[k..];
      assert forall x :: x in labels <==> x in labels[..k] || x in labels[k..] by {
        assert labels == labels[..k] + labels[k..];
      }
      InsertedAscends(names, labels, l, k);
    }

    /** Labels other than the root, sorted by path. */
    method SortedLabels() returns (labels: seq<Label>)
      requires Tree(names)
      ensures labels == SortByPath(names, names.Keys - {ROOT})
    {
      labels := [];
      var todo := names.Keys - {ROOT};
      while todo != {}
        invariant todo <= names.Keys - {ROOT}
        invariant forall l :: l in labels <==> l in names && l != ROOT && l !in todo
        invariant Ascends(names, labels)
        decreases todo
      {
        var l :| l in todo;
        todo := todo - {l};
        labels := InsertByPath(labels, l);
      }
      SortAscends(names, names.Keys - {ROOT});
      AscendingIsUnique(names, labels, SortByPath(names, names.Keys - {ROOT}));
    }

    method EntriesFor(labels: seq<Label>) returns (ok: bool, entries: seq<Captured>)
      requires Tree(names) && AllBound(V(), labels)
      ensures ok <==> forall l :: l in labels ==> Fitting(l)
      ensures ok ==> entries == CaptureEntries(V(), labels)
    {
      entries := [];
      for i := 0 to |labels|
        invariant entries == CaptureEntries(V(), labels)[..i]
        invariant forall k :: 0 <= k < i ==> Fitting(labels[k])
      {
        var l := labels[i];
        assert l in labels;
        if !Fitting(l) { return false, entries; }
        var path := PathOf(l);
        entries := entries + [CaptureEntry(path, names[l].id, Get(l))];
      }
      return true, entries;
    }

    predicate Fitting(l: Label)
      reads this
    {
      config.singleBlock && Bound(l) && Get(l).content.Regular? ==> Get(l).content.file.blocks.Keys <= {0}
    }

    method CaptureView(id: nat) returns (ok: bool, view: View)
      requires CanCapture(V())
      ensures ok == Capturable(config, V())
      ensures ok ==> view == Capture(V(), id)
    {
      var labels := SortedLabels();
      var entries: seq<Captured>;
      ok, entries := EntriesFor(labels);
      view := View(id, generation, generation, MetadataOf(1, objects[1]), entries);
      assert ok == Capturable(config, V()) by {
        forall l | l in labels
          ensures Fitting(l) <==>
            (config.singleBlock && LiveFile(V(), l) ==> NodeOf(V(), l).content.file.blocks.Keys <= {0})
        {
        }
      }
    }

    /** The identity is recorded before the capture that may refuse. */
    method CreateView(l: Label) returns (ok: bool)
      requires CanCapture(V())
      modifies this`generation, this`snapshotIds, this`views
      ensures ok == SnapshotStep(config, old(S()), ViewCreate, l).Some?
      ensures ok ==> S() == SnapshotStep(config, old(S()), ViewCreate, l).value
    {
      hide Capture;
      if maintained || l in snapshotIds { return false; }
      if |set k | k in views && views[k].Some?| >= MAX_VIEWS { return false; }
      var id := |snapshotIds| + 1;
      snapshotIds := snapshotIds[l := id];
      var captured, view := CaptureView(id);
      if !captured { return false; }
      views := views[l := Some(view)];
      generation := generation + 1;
      return true;
    }

    method SnapshotAt(action: Action, l: Label) returns (ok: bool)
      requires CanCapture(V())
      modifies this`generation, this`snapshotIds, this`views, this`handles
      ensures ok == SnapshotStep(config, old(S()), action, l).Some?
      ensures ok ==> S() == SnapshotStep(config, old(S()), action, l).value
      ensures !ok && !action.ViewCreate? ==> S() == old(S())
    {
      if action.ViewCreate? {
        ok := CreateView(l);
        return;
      }
      if l !in views || views[l].None? { return false; }
      if action.ViewOpen? {
        if l in handles { return false; }
        handles := handles + {l};
      } else if action.ViewInspect? {
        if l !in handles { return false; }
      } else if action.ViewClose? {
        if l !in handles { return false; }
        handles := handles - {l};
      } else {
        if l in handles { return false; }
        generation := generation + 1;
        views := views[l := None];
      }
      return true;
    }

    /** `setdefault`: the first position of each file is kept in a map. */
    method AliasAt(labels: seq<Label>, i: nat, first: map<nat, nat>) returns (alias: nat, next: map<nat, nat>)
      requires AllBound(V(), labels) && i < |labels| && Linked.FirstMap(V(), labels, i, first)
      requires labels[i] in labels && Get(labels[i]).content.Regular?
      ensures alias == Linked.FirstIndex(V(), labels, i) && Linked.FirstMap(V(), labels, i + 1, next)
    {
      var id := names[labels[i]].id;
      if id in first {
        Linked.FirstMapFinds(V(), labels, i, first);
        alias, next := first[id], first;
      } else {
        Linked.FirstMapAdds(V(), labels, i, first);
        alias, next := i, first[id := i];
      }
    }

    method RowAt(labels: seq<Label>, i: nat, first: map<nat, nat>) returns (row: Linked.Row, next: map<nat, nat>)
      requires Tree(names) && AllBound(V(), labels) && i < |labels| && Linked.FirstMap(V(), labels, i, first)
      ensures row == Linked.RowOf(V(), labels, i) && Linked.FirstMap(V(), labels, i + 1, next)
    {
      assert labels[i] in labels;
      var n := Get(labels[i]);
      var path := PathOf(labels[i]);
      row, next := Linked.Row(path, n.links, n.protection, Linked.LinkedDirectory), first;
      if n.content.Regular? {
        var alias, alloc;
        alias, next := AliasAt(labels, i, first);
        alloc := Coverage.Normalize(n.content.file.blocks);
        row := row.(body := Linked.LinkedFile(alias, n.content.policy, n.content.file.data, alloc));
      } else if n.content.Symlink? {
        row := row.(body := Linked.LinkedSymlink(n.content.target));
      }
    }

    method RowsFor(labels: seq<Label>) returns (rows: seq<Linked.Row>)
      requires Tree(names) && AllBound(V(), labels)
      ensures rows == Linked.Rows(V(), labels)
    {
      var first: map<nat, nat> := map[];
      rows := [];
      for i := 0 to |labels|
        invariant rows == Linked.Rows(V(), labels)[..i]
        invariant Linked.FirstMap(V(), labels, i, first)
      {
        var row;
        row, first := RowAt(labels, i, first);
        rows := rows + [row];
      }
    }

    method LinkedRows() returns (rows: seq<Linked.Row>)
      requires Good(V())
      ensures rows == Linked.Projection(V())
    {
      var labels := SortedLabels();
      Linked.LabelsAreBound(V());
      rows := RowsFor(labels);
    }

    // ---------- one operation

    method ApplyAdd(op: Operation, now: nat) returns (ok: bool)
      requires AddOperation(op)
      modifies this`generation, this`nextObject, this`objects, this`used, this`names
      ensures ok == AddStep(old(V()), op, now).Some?
      ensures V() == if ok then AddStep(old(V()), op, now).value else old(V())
    {
      hide Insert, AddLink, Clone;
      if op.Link? {
        ok := LinkTo(op.tag, op.source, op.parent, op.name, now);
      } else if op.CloneFile? {
        ok := CloneTo(op.tag, op.source, op.parent, op.name, now);
      } else {
        var content := if op.Create? then Regular(Created(op.data), false)
          else if op.Mkdir? then Directory else Content.Symlink(op.target);
        ok := Add(content, op.tag, op.parent, op.name, now);
      }
    }

    method ApplyMove(op: Operation, now: nat) returns (ok: bool)
      requires Tree(names)
      modifies this`generation, this`objects, this`names, this`orphaned
      ensures ok == MoveStep(old(V()), op, now).Some?
      ensures V() == if ok then MoveStep(old(V()), op, now).value else old(V())
    {
      hide Move, Replace, Tree;
      if op.Rename? {
        ok := RenameTo(op.tag, op.parent, op.name, now);
      } else if op.RenameReplace? {
        ok := ReplaceWith(op.tag, op.victim, op.parent, op.name, op.orphan, now);
      } else {
        ok := false;
      }
    }

    /** The removals: each checks the kind it asks for. */
    method ApplyUnlink(op: Operation, now: nat) returns (ok: bool)
      modifies this`generation, this`objects, this`names, this`orphaned
      ensures ok == UnlinkStep(old(V()), op, now).Some?
      ensures V() == if ok then UnlinkStep(old(V()), op, now).value else old(V())
    {
      if !(op.Unlink? || op.UnlinkSymlink? || op.Rmdir?) { return false; }
      if op.Unlink? && !IsFile(op.tag) { return false; }
      if op.UnlinkSymlink? && (op.tag == ROOT || !Bound(op.tag) || !Get(op.tag).content.Symlink?) { return false; }
      if op.Rmdir? && (!Dir(op.tag) || exists k :: k in names && names[k].parent == Some(op.tag)) { return false; }
      ok := RemoveAt(op.tag, now);
    }

    method ApplyOrphan(op: Operation, now: nat) returns (ok: bool)
      modifies this`generation, this`objects, this`names, this`orphaned
      ensures ok == OrphanStep(config, old(V()), op, now).Some?
      ensures V() == if ok then OrphanStep(config, old(V()), op, now).value else old(V())
    {
      if op.OrphanFile? {
        ok := OrphanAt(op.tag, now);
      } else if op.CleanupOrphan? {
        ok := CleanupAt(op.tag);
      } else {
        ok := false;
      }
    }

    method ApplyRemove(op: Operation, now: nat) returns (ok: bool)
      requires Tree(names)
      modifies this`generation, this`objects, this`names, this`orphaned
      ensures ok == RemoveStep(config, old(V()), op, now).Some?
      ensures V() == if ok then RemoveStep(config, old(V()), op, now).value else old(V())
    {
      hide MoveStep, OrphanStep, UnlinkStep, Tree;
      if op.Rename? || op.RenameReplace? {
        ok := ApplyMove(op, now);
      } else if op.OrphanFile? || op.CleanupOrphan? {
        ok := ApplyOrphan(op, now);
      } else {
        ok := ApplyUnlink(op, now);
      }
    }

    method ApplyAttributes(op: Operation, now: nat) returns (ok: bool)
      modifies this`generation, this`objects
      ensures ok == AttributeStep(old(V()), op, now).Some?
      ensures V() == if ok then AttributeStep(old(V()), op, now).value else old(V())
    {
      if op.SetDataPolicy? {
        ok := SetPolicyAt(op.tag, op.policy, now);
      } else if op.SetProtection? {
        ok := ProtectAt(op.tag, op.protection, now);
      } else if op.RestoreMetadata? {
        ok := RestoreAt(op.tag, op.protection, op.created, op.modified, op.changed);
      } else {
        ok := false;
      }
    }

    method ApplyData(op: Operation, now: nat) returns (ok: bool)
      modifies this`generation, this`objects
      ensures ok == DataStep(old(V()), op, now).Some?
      ensures V() == if ok then DataStep(old(V()), op, now).value else old(V())
    {
      hide WriteFile, TruncateFile, CloneRangeOf, Reserve;
      if op.CloneRange? {
        ok := CloneRangeAt(op.source, op.sourceOffset, op.destination, op.destinationOffset, op.length, now);
      } else if op.Write? {
        ok := WriteAt(op.tag, op.offset, op.data, op.budget, now);
      } else if op.Truncate? {
        ok := TruncateAt(op.tag, op.size, op.budget, now);
      } else if op.Preallocate? {
        ok := ReserveAt(op.tag, op.offset, op.length, op.budget, now);
      } else {
        ok := false;
      }
    }

    method ApplyContent(op: Operation, now: nat) returns (ok: bool)
      modifies this`generation, this`objects
      ensures ok == ContentStep(old(V()), op, now).Some?
      ensures V() == if ok then ContentStep(old(V()), op, now).value else old(V())
    {
      if AttributeOperation(op) { ok := ApplyAttributes(op, now); } else { ok := ApplyData(op, now); }
    }

    method ApplyWindow(op: Operation, now: nat) returns (ok: bool)
      requires WindowOperation(op)
      modifies this
      ensures ok == WindowStep(old(S()), op, now).Some?
      ensures ok ==> S() == WindowStep(old(S()), op, now).value
      ensures !ok && (op.WindowBatch? || op.WindowFsync?) ==> S() == old(S())
    {
      if op.WindowBatch? {
        if op.items == [] { return false; }
        staged := staged + [Group(op.items, false)];
        ok := true;
      } else if op.WindowFsync? {
        ok := FsyncWindow();
      } else if op.WindowCommit? {
        ok := PublishGroupsOf(|staged|, now);
      } else {
        ok := PublishGroupsOf(AcknowledgedCount(staged), now);
        if ok { handles := {}; }
      }
    }

    method ApplyDirect(op: Operation, now: nat) returns (ok: bool)
      requires Tree(names)
      modifies this`generation, this`nextObject, this`objects, this`used, this`names, this`orphaned
      ensures ok == DirectStep(config, old(V()), op, now).Some?
      ensures ok ==> V() == DirectStep(config, old(V()), op, now).value
      ensures !ok && !op.Batch? ==> V() == old(V())
    {
      hide RunBatch, AddStep, RemoveStep, ContentStep, Tree;
      if op.Batch? {
        var made;
        ok, made := BatchAt(op.items, false, {}, now);
      } else if AddOperation(op) {
        ok := ApplyAdd(op, now);
      } else if RemoveOperation(op) {
        ok := ApplyRemove(op, now);
      } else {
        ok := ApplyContent(op, now);
      }
    }

    /** Batches, publications and captures may stop half way when they are refused. */
    predicate StopsHalfway(op: Operation) {
      op.Batch? || op.WindowCommit? || op.Remount? || (op.Snapshot? && op.action.ViewCreate?)
    }

    /** `apply`: an accepted operation takes the transition of the oracle, a
        refused one that does not stop half way leaves every field alone. */
    method Apply(op: Operation, index: nat) returns (ok: bool)
      requires CanCapture(V())
      modifies this
      ensures ok == Step(config, old(S()), op, index + 1).Some?
      ensures ok ==> S() == Step(config, old(S()), op, index + 1).value
      ensures !ok && !StopsHalfway(op) ==> S() == old(S())
    {
      hide WindowStep, SnapshotStep, DirectStep, Tree;
      var now := index + 1;
      if WindowOperation(op) {
        ok := ApplyWindow(op, now);
        return;
      }
      if staged != [] { return false; }
      if op.Sync? { return true; }
      if op.ReclaimStep? || op.SnapshotMaintenanceStep? {
        maintained := true;
        return true;
      }
      if op.Snapshot? {
        ok := SnapshotAt(op.action, op.tag);
        return;
      }
      ok := ApplyDirect(op, now);
    }
  }

  lemma InsertedAscends(names: Names, labels: seq<Label>, l: Label, k: nat)
    requires Tree(names) && l in names && l !in labels && (forall x :: x in labels ==> x in names)
    requires Ascends(names, labels)
    requires k <= |labels| && forall i :: 0 <= i < k ==> PathBefore(Path(names, labels[i]), Path(names, l))
    requires k < |labels| ==> !PathBefore(Path(names, labels[k]), Path(names, l))
    ensures forall x :: x in labels[..k] + [l] + labels[k..] ==> x in names
    ensures Ascends(names, labels[..k] + [l] + labels[k..])
  {
    hide Path, PathBefore;
    var r := labels[..k] + [l] + labels[k..];
    assert forall x :: x in labels[..k] || x in labels[k..] ==> x in labels;
    if k < |labels| {
      assert labels[k] in labels;
      PathsDiffer(names, labels[k], l);
      PathBeforeIsTotal(Path(names, labels[k]), Path(names, l));
    }
    forall i, j | 0 <= i < j < |r| ensures PathBefore(Path(names, r[i]), Path(names, r[j])) {
      if i == k && j > k + 1 {
        assert r[j] == labels[j - 1];
        PathBeforeIsTransitive(Path(names, l), Path(names, labels[k]), Path(names, labels[j - 1]));
      } else if i < k && j == k {
      } else if i < k && j > k {
        assert r[i] == labels[i] && r[j] == labels[j - 1];
      }
    }
  }
}
