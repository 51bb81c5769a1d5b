/** Every accepted operation keeps the invariant of the oracle. */
module OracleSteps {
  import opened Basics
  import opened Scenario
  import opened Namespace
  import opened Files
  import opened Oracle
  import opened OracleInvariant

  /** Contents are consistent and no object is newer than the volume. */
  ghost predicate Sound(n: Node, generation: nat) {
    n.generation <= generation && (n.content.Regular? ==> Consistent(n.content.file))
  }

  ghost predicate AllSound(s: Volume) {
    forall id :: id in s.objects ==> Sound(s.objects[id], s.generation)
  }

  /** l names the same object of the same kind in both states. */
  predicate SameBinding(s: Volume, t: Volume, l: Label) {
    && Named(s, l) && Named(t, l) && s.names[l].id == t.names[l].id
    && KindOf(NodeOf(s, l).content) == KindOf(NodeOf(t, l).content)
  }

  /** A label that was ever used is either unbound or bound as before. */
  ghost predicate Persists(s: Volume, t: Volume) {
    && s.used <= t.used
    && forall l :: l in s.used && l in t.names ==> SameBinding(s, t, l)
  }

  ghost predicate Good(s: Volume) { Structure(s) && AllSound(s) }

  ghost predicate Kept(s: Volume, t: Volume) { Good(t) && Persists(s, t) && s.generation <= t.generation }

  lemma KeptTwice(s: Volume, t: Volume, u: Volume)
    requires s.names.Keys <= s.used && Kept(s, t) && Kept(t, u)
    ensures Kept(s, u)
  {
  }

  // ---------- elementary changes

  lemma QuietPersists(s: Volume, t: Volume)
    requires NamesBound(s) && Quiet(s, t)
    ensures Persists(s, t)
  {
    forall l | l in s.used && l in t.names ensures SameBinding(s, t, l) { assert Bound(s, l); }
  }

  lemma TickKeeps(s: Volume)
    requires Good(s)
    ensures Kept(s, Tick(s))
  {
    QuietKeeps(s, Tick(s));
    QuietPersists(s, Tick(s));
    forall id | id in s.objects ensures Sound(s.objects[id], s.generation + 1) {
      assert Sound(s.objects[id], s.generation);
    }
  }

  lemma PutKeeps(s: Volume, id: nat, n: Node)
    requires Good(s) && id in s.objects && SameShape(s.objects[id], n) && Sound(n, s.generation)
    ensures Kept(s, Put(s, id, n))
  {
    QuietKeeps(s, Put(s, id, n));
    QuietPersists(s, Put(s, id, n));
  }

  lemma TouchKeeps(s: Volume, l: Label, now: nat)
    requires Good(s) && Named(s, l)
    ensures Kept(s, Touch(s, l, now))
  {
    assert Sound(NodeOf(s, l), s.generation);
    PutKeeps(s, s.names[l].id, NodeOf(s, l).(modified := now, changed := now, generation := s.generation));
  }

  /** The three stamps that come before a move. */
  function Stamped(s: Volume, tag: Label, parent: Label, now: nat): Volume
    requires Named(s, tag) && HasParent(s, tag) && Named(s, parent)
  {
    Touch(TouchParent(Change(s, s.names[tag].id, now), tag, now), parent, now)
  }

  lemma StampsAreQuiet(s: Volume, tag: Label, parent: Label, now: nat)
    requires AllSound(s) && Named(s, tag) && HasParent(s, tag) && Named(s, parent)
    ensures Quiet(s, Stamped(s, tag, parent, now)) && AllSound(Stamped(s, tag, parent, now))
    ensures Stamped(s, tag, parent, now).generation == s.generation
  {
    forall id | id in s.objects ensures Sound(Stamped(s, tag, parent, now).objects[id], s.generation) {
      assert Sound(s.objects[id], s.generation);
    }
  }

  lemma StampsKeep(s: Volume, tag: Label, parent: Label, now: nat)
    requires Good(s) && Named(s, tag) && HasParent(s, tag) && Named(s, parent)
    ensures Kept(s, Stamped(s, tag, parent, now))
  {
    StampsAreQuiet(s, tag, parent, now);
    QuietKeeps(s, Stamped(s, tag, parent, now));
    QuietPersists(s, Stamped(s, tag, parent, now));
  }

  lemma AttachIsKept(s: Volume, t: Volume, tag: Label, id: nat, parent: Label, name: Name)
    requires Good(s) && Insertable(s, tag, parent, name) && Attached(s, t, tag, id, parent, name)
    requires s.generation <= t.generation
    requires forall l :: l in s.orphaned ==> s.orphaned[l] != id
    requires AllSound(t)
    ensures Kept(s, t)
  {
    AttachKeeps(s, t, tag, id, parent, name);
    forall l | l in s.used && l in t.names ensures SameBinding(s, t, l) { assert Bound(s, l); }
  }

  lemma DropIsSound(s: Volume, tag: Label, orphan: bool, now: nat)
    requires AllSound(s) && Named(s, tag)
    ensures AllSound(DropName(s, tag, orphan, now))
  {
    assert Sound(NodeOf(s, tag), s.generation);
  }

  lemma DropPersists(s: Volume, tag: Label, orphan: bool, now: nat)
    requires NamesBound(s) && Named(s, tag) && NamesBound(DropName(s, tag, orphan, now))
    ensures Persists(s, DropName(s, tag, orphan, now))
  {
    var t := DropName(s, tag, orphan, now);
    forall l | l in s.used && l in t.names ensures SameBinding(s, t, l) { assert Bound(s, l) && Bound(t, l); }
  }

  lemma DropIsKept(s: Volume, tag: Label, orphan: bool, now: nat)
    requires Good(s) && Named(s, tag) && tag != ROOT && Childless(s.names, tag)
    requires orphan ==> NodeOf(s, tag).content.Regular?
    ensures Kept(s, DropName(s, tag, orphan, now))
  {
    DropKeeps(s, tag, orphan, now);
    DropIsSound(s, tag, orphan, now);
    DropPersists(s, tag, orphan, now);
  }

  lemma MovePersists(s: Volume, tag: Label, parent: Label, name: Name)
    requires NamesBound(s) && tag in s.names
    ensures Persists(s, MoveEntry(s, tag, parent, name))
  {
    var t := MoveEntry(s, tag, parent, name);
    forall l | l in s.used && l in t.names ensures SameBinding(s, t, l) { assert Bound(s, l); }
  }

  lemma MoveIsKept(s: Volume, tag: Label, parent: Label, name: Name)
    requires Good(s) && Live(s, tag) && IsDirectory(s, parent) && Vacant(s.names, parent, name)
    requires !Reaches(s.names, tag, parent)
    ensures Kept(s, MoveEntry(s, tag, parent, name))
  {
    MoveKeeps(s, tag, parent, name);
    MovePersists(s, tag, parent, name);
  }

  // ---------- operations on names

  lemma NewObjectAttaches(s: Volume, n: Node, tag: Label, parent: Label, name: Name, now: nat)
    requires AllSound(s) && Named(s, parent) && n.links == 1 && Sound(n, s.generation)
    requires s.nextObject !in s.objects && tag != parent
    ensures var r := Bind(AddObject(s, n), tag, s.nextObject, parent, name, now);
      Attached(s, r, tag, s.nextObject, parent, name) && AllSound(r) && s.generation <= r.generation
  {
    var r := Bind(AddObject(s, n), tag, s.nextObject, parent, name, now);
    forall id | id in r.objects ensures Sound(r.objects[id], r.generation) {
      assert id in s.objects ==> Sound(s.objects[id], s.generation);
    }
  }

  /** A new object under a fresh label, as create, mkdir, symlink and batch creation do. */
  lemma NewObjectKeeps(s: Volume, n: Node, tag: Label, parent: Label, name: Name, now: nat)
    requires Good(s) && Insertable(s, tag, parent, name) && n.links == 1 && Sound(n, s.generation)
    ensures Kept(s, Bind(AddObject(s, n), tag, s.nextObject, parent, name, now))
  {
    FreshObject(s);
    NewObjectAttaches(s, n, tag, parent, name, now);
    AttachIsKept(s, Bind(AddObject(s, n), tag, s.nextObject, parent, name, now), tag, s.nextObject, parent, name);
  }

  lemma FreshObject(s: Volume)
    requires LinksCounted(s) && LabelsSpent(s)
    ensures s.nextObject !in s.objects
    ensures forall l :: l in s.orphaned ==> s.orphaned[l] != s.nextObject
  {
    assert s.nextObject in s.objects ==> Counted(s, s.nextObject);
    forall l | l in s.orphaned ensures s.orphaned[l] != s.nextObject { assert Registered(s, l); }
  }

  lemma InsertKeeps(s: Volume, content: Content, tag: Label, parent: Label, name: Name, now: nat)
    requires Good(s) && Insert(s, content, tag, parent, name, now).Some?
    requires content.Regular? ==> Consistent(content.file)
    ensures Kept(s, Insert(s, content, tag, parent, name, now).value)
  {
    var t := Tick(s);
    TickKeeps(s);
    NewObjectKeeps(t, Fresh(t, content, now), tag, parent, name, now);
    KeptTwice(s, t, Insert(s, content, tag, parent, name, now).value);
  }

  lemma AddLinkKeeps(s: Volume, tag: Label, source: Label, parent: Label, name: Name, now: nat)
    requires Good(s) && AddLink(s, tag, source, parent, name, now).Some?
    ensures Kept(s, AddLink(s, tag, source, parent, name, now).value)
  {
    NamedIsNotOrphaned(s, source);
    assert Counted(s, s.names[source].id);
    AddLinkAttaches(s, tag, source, parent, name, now);
    AttachIsKept(s, AddLink(s, tag, source, parent, name, now).value, tag, s.names[source].id, parent, name);
  }

  lemma AddLinkAttaches(s: Volume, tag: Label, source: Label, parent: Label, name: Name, now: nat)
    requires AllSound(s) && AddLink(s, tag, source, parent, name, now).Some? && tag !in s.names
    requires s.names[source].id < s.nextObject
    ensures var r := AddLink(s, tag, source, parent, name, now).value;
      Attached(s, r, tag, s.names[source].id, parent, name) && AllSound(r) && s.generation <= r.generation
  {
    var r := AddLink(s, tag, source, parent, name, now).value;
    forall id | id in r.objects ensures Sound(r.objects[id], r.generation) {
      assert Sound(s.objects[id], s.generation);
    }
  }

  lemma CloneKeeps(s: Volume, tag: Label, source: Label, parent: Label, name: Name, now: nat)
    requires Good(s) && Clone(s, tag, source, parent, name, now).Some?
    ensures Kept(s, Clone(s, tag, source, parent, name, now).value)
  {
    FreshObject(s);
    CloneAttaches(s, tag, source, parent, name, now);
    AttachIsKept(s, Clone(s, tag, source, parent, name, now).value, tag, s.nextObject, parent, name);
  }

  lemma CloneAttaches(s: Volume, tag: Label, source: Label, parent: Label, name: Name, now: nat)
    requires AllSound(s) && s.nextObject !in s.objects && Clone(s, tag, source, parent, name, now).Some?
    requires tag !in s.names
    ensures var r := Clone(s, tag, source, parent, name, now).value;
      Attached(s, r, tag, s.nextObject, parent, name) && AllSound(r) && s.generation <= r.generation
  {
    var r := Clone(s, tag, source, parent, name, now).value;
    assert Sound(NodeOf(s, source), s.generation);
    forall id | id in r.objects ensures Sound(r.objects[id], r.generation) {
      assert id in s.objects ==> Sound(s.objects[id], s.generation);
    }
  }

  lemma RenameKeeps(s: Volume, tag: Label, parent: Label, name: Name, now: nat)
    requires Good(s) && Move(s, tag, parent, name, now).Some?
    ensures Kept(s, Move(s, tag, parent, name, now).value)
  {
    var r := Move(s, tag, parent, name, now).value;
    var t := Tick(s);
    TickKeeps(s);
    StampsKeep(t, tag, parent, now);
    var u := Stamped(t, tag, parent, now);
    if !NodeOf(s, tag).content.Directory? {
      FileIsChildless(s, tag);
      ChildlessIsNotReached(s.names, tag, parent);
    }
    MoveIsKept(u, tag, parent, name);
    KeptTwice(t, u, r);
    KeptTwice(s, t, r);
  }

  lemma RemoveKeeps(s: Volume, tag: Label, orphan: bool, now: nat)
    requires Good(s) && Live(s, tag) && HasParent(s, tag) && Childless(s.names, tag)
    requires orphan ==> NodeOf(s, tag).content.Regular?
    ensures Kept(s, DropName(TouchParent(Tick(s), tag, now), tag, orphan, now))
  {
    var t := Tick(s);
    TickKeeps(s);
    TouchKeeps(t, s.names[tag].parent.value, now);
    var u := TouchParent(t, tag, now);
    DropIsKept(u, tag, orphan, now);
    KeptTwice(t, u, DropName(u, tag, orphan, now));
    KeptTwice(s, t, DropName(u, tag, orphan, now));
  }

  /** Once the victim is gone the moved file takes its place. */
  lemma PlaceIsVacant(s: Volume, victim: Label, parent: Label, name: Name)
    requires SiblingsDiffer(s.names) && victim in s.names && s.names[victim].parent == Some(parent)
    requires s.names[victim].name == name
    ensures Vacant(s.names - {victim}, parent, name)
  {
  }

  /** Dropping a childless victim leaves every other directory in place. */
  lemma DirectoryStays(s: Volume, victim: Label, orphan: bool, now: nat, l: Label)
    requires LinksCounted(s) && Named(s, victim) && IsDirectory(s, l) && l != victim
    ensures IsDirectory(DropName(s, victim, orphan, now), l)
  {
    assert Counted(s, s.names[victim].id);
    if NodeOf(s, victim).links == 1 { SoleLink(s, victim, l); }
  }

  lemma FileStays(s: Volume, victim: Label, orphan: bool, now: nat, l: Label)
    requires Named(s, victim) && LiveFile(s, l) && s.names[l].id != s.names[victim].id
    ensures LiveFile(DropName(s, victim, orphan, now), l)
    ensures DropName(s, victim, orphan, now).names[l] == s.names[l]
  {
  }

  /** The victim leaves, then the file moves into its place. */
  lemma DropThenMoveKeeps(s: Volume, tag: Label, victim: Label, parent: Label, name: Name, orphan: bool, now: nat)
    requires Good(s) && LiveFile(s, tag) && IsDirectory(s, parent) && Replaceable(s, tag, victim, parent, name)
    requires Childless(s.names, victim) && (orphan ==> NodeOf(s, victim).content.Regular?)
    ensures Kept(s, DropName(s, victim, orphan, now))
    ensures var t := DropName(s, victim, orphan, now);
      && LiveFile(t, tag) && t.names[tag] == s.names[tag] && IsDirectory(t, parent)
      && Vacant(t.names, parent, name) && parent in t.names && Tree(t.names) && !Reaches(t.names, tag, parent)
  {
    assert Bound(s, victim);
    DropIsKept(s, victim, orphan, now);
    var t := DropName(s, victim, orphan, now);
    assert parent != victim;
    DirectoryStays(s, victim, orphan, now, parent);
    FileStays(s, victim, orphan, now, tag);
    PlaceIsVacant(s, victim, parent, name);
    FileIsChildless(t, tag);
    ChildlessIsNotReached(t.names, tag, parent);
  }

  lemma ReplaceKeeps(s: Volume, tag: Label, victim: Label, parent: Label, name: Name, orphan: bool, now: nat)
    requires Good(s) && Replace(s, tag, victim, parent, name, orphan, now).Some?
    ensures Kept(s, Replace(s, tag, victim, parent, name, orphan, now).value)
  {
    var r := Replace(s, tag, victim, parent, name, orphan, now).value;
    var t := Tick(s);
    TickKeeps(s);
    StampsKeep(t, tag, parent, now);
    StampsAreQuiet(t, tag, parent, now);
    var u := Stamped(t, tag, parent, now);
    FileIsChildless(s, victim);
    DropThenMoveKeeps(u, tag, victim, parent, name, orphan, now);
    var w := DropName(u, victim, orphan, now);
    MoveIsKept(w, tag, parent, name);
    KeptTwice(u, w, r);
    KeptTwice(t, u, r);
    KeptTwice(s, t, r);
  }

  // ---------- operations on contents and attributes

  lemma RewriteKeeps(s: Volume, l: Label, f: File, now: nat)
    requires Good(s) && LiveFile(s, l) && Consistent(f)
    ensures Kept(s, Rewrite(s, l, f, now))
  {
    var t, n := Tick(s), NodeOf(s, l);
    TickKeeps(s);
    PutKeeps(t, s.names[l].id,
      n.(content := n.content.(file := f), modified := now, changed := now, generation := t.generation));
    KeptTwice(s, t, Rewrite(s, l, f, now));
  }

  lemma AmendKeeps(s: Volume, l: Label, n: Node, now: nat)
    requires Good(s) && Named(s, l) && SameShape(NodeOf(s, l), n) && Sound(n, s.generation)
    ensures Kept(s, Amend(s, l, n, now))
  {
    var t := Tick(s);
    TickKeeps(s);
    PutKeeps(t, s.names[l].id, n.(changed := now));
    KeptTwice(s, t, Amend(s, l, n, now));
  }

  lemma SelfKept(s: Volume)
    requires Good(s)
    ensures Kept(s, s)
  {
    forall l | l in s.used && l in s.names ensures SameBinding(s, s, l) { assert Bound(s, l); }
  }

  lemma CloneRangeIsKept(s: Volume, source: Label, start: nat, dest: Label, target: nat, length: nat, now: nat)
    requires Good(s) && CloneRangeOf(s, source, start, dest, target, length, now).Some?
    ensures Kept(s, CloneRangeOf(s, source, start, dest, target, length, now).value)
  {
    if length == 0 {
      SelfKept(s);
    } else {
      CloneSomeIsKept(s, source, start, dest, target, length, now);
    }
  }

  lemma CloneSomeIsKept(s: Volume, source: Label, start: nat, dest: Label, target: nat, length: nat, now: nat)
    requires Good(s) && CloneRangeOf(s, source, start, dest, target, length, now).Some? && length > 0
    ensures Kept(s, CloneRangeOf(s, source, start, dest, target, length, now).value)
  {
    var n, d := NodeOf(s, source), NodeOf(s, dest);
    assert Sound(n, s.generation) && Sound(d, s.generation);
    CloneSourceKeeps(n.content.file, start, target, length);
    CloneRangeKeeps(n.content.file, d.content.file, start, target, length);
    var f := CloneDestination(n.content.file, d.content.file, start, target, length);
    if Marked(n.content.file, start, target, length) == {} {
      RewriteKeeps(s, dest, f, now);
    } else {
      var marked := n.(content := n.content.(file := CloneSource(n.content.file, start, target, length)),
        changed := now);
      PutKeeps(s, s.names[source].id, marked);
      var t := Put(s, s.names[source].id, marked);
      RewriteKeeps(t, dest, f, now);
      KeptTwice(s, t, Rewrite(t, dest, f, now));
    }
  }

  lemma WriteIsKept(s: Volume, l: Label, offset: nat, data: Bytes, budget: Option<Budget>, now: nat)
    requires Good(s) && WriteFile(s, l, offset, data, budget, now).Some?
    ensures Kept(s, WriteFile(s, l, offset, data, budget, now).value)
  {
    if data == [] {
      SelfKept(s);
    } else {
      assert Sound(NodeOf(s, l), s.generation);
      WriteKeeps(NodeOf(s, l).content.file, offset, data);
      RewriteKeeps(s, l, Files.Write(NodeOf(s, l).content.file, offset, data), now);
    }
  }

  lemma TruncateIsKept(s: Volume, l: Label, size: nat, budget: Option<Budget>, now: nat)
    requires Good(s) && TruncateFile(s, l, size, budget, now).Some?
    ensures Kept(s, TruncateFile(s, l, size, budget, now).value)
  {
    if size == |NodeOf(s, l).content.file.data| {
      SelfKept(s);
    } else {
      assert Sound(NodeOf(s, l), s.generation);
      TruncateKeeps(NodeOf(s, l).content.file, size);
      RewriteKeeps(s, l, Files.Truncate(NodeOf(s, l).content.file, size), now);
    }
  }

  lemma ReserveIsKept(s: Volume, l: Label, offset: nat, length: nat, budget: Option<Budget>, now: nat)
    requires Good(s) && Reserve(s, l, offset, length, budget, now).Some?
    ensures Kept(s, Reserve(s, l, offset, length, budget, now).value)
  {
    SelfKept(s);
    var n := NodeOf(s, l);
    assert Sound(n, s.generation);
    PreallocateKeeps(n.content.file, offset, length);
    AmendKeeps(s, l, n.(content := n.content.(file := Files.Preallocate(n.content.file, offset, length))), now);
  }

  lemma PolicyIsKept(s: Volume, l: Label, policy: bool, now: nat)
    requires Good(s) && SetPolicy(s, l, policy, now).Some?
    ensures Kept(s, SetPolicy(s, l, policy, now).value)
  {
    SelfKept(s);
    assert Sound(NodeOf(s, l), s.generation);
    AmendKeeps(s, l, NodeOf(s, l).(content := NodeOf(s, l).content.(policy := policy)), now);
  }

  lemma ProtectIsKept(s: Volume, l: Label, protection: nat, now: nat)
    requires Good(s) && Protect(s, l, protection, now).Some?
    ensures Kept(s, Protect(s, l, protection, now).value)
  {
    SelfKept(s);
    assert Sound(NodeOf(s, l), s.generation);
    AmendKeeps(s, l, NodeOf(s, l).(protection := protection), now);
  }

  lemma RestoreIsKept(s: Volume, l: Label, protection: nat, created: nat, modified: nat, changed: nat)
    requires Good(s) && Restore(s, l, protection, created, modified, changed).Some?
    ensures Kept(s, Restore(s, l, protection, created, modified, changed).value)
  {
    SelfKept(s);
    assert Sound(NodeOf(s, l), s.generation);
    AmendKeeps(s, l,
      NodeOf(s, l).(protection := protection, created := created, modified := modified, changed := changed), changed);
  }

  lemma CleanupIsKept(c: Config, s: Volume, tag: Label)
    requires Good(s) && Cleanup(c, s, tag).Some?
    ensures Kept(s, Cleanup(c, s, tag).value)
  {
    var t := Cleanup(c, s, tag).value;
    CleanupKeeps(c, s, tag);
    CleanupIsSound(c, s, tag);
    forall l | l in s.used && l in t.names ensures SameBinding(s, t, l) { assert Bound(s, l) && Bound(t, l); }
  }

  lemma CleanupIsSound(c: Config, s: Volume, tag: Label)
    requires AllSound(s) && Cleanup(c, s, tag).Some?
    ensures AllSound(Cleanup(c, s, tag).value)
  {
    var t := Cleanup(c, s, tag).value;
    forall id | id in t.objects ensures Sound(t.objects[id], t.generation) {
      assert Sound(s.objects[id], s.generation);
    }
  }

  // ---------- batches

  /** Objects that this window created are files while they exist. */
  ghost predicate CreatedFiles(s: Volume, created: set<nat>) {
    forall id :: id in created ==> id < s.nextObject && (id in s.objects ==> s.objects[id].content.Regular?)
  }

  /** A replaced victim does not cut off a subtree and can be registered as an orphan. */
  ghost predicate Harmless(s: Volume, item: Item, deferred: bool) {
    item.ItemReplace? && Named(s, item.victim) ==>
      NodeOf(s, item.victim).content.Regular? || (!deferred && Childless(s.names, item.victim))
  }

  lemma BatchMoveKeeps(s: Volume, tag: Label, parent: Label, name: Name, now: nat)
    requires Good(s) && LiveFile(s, tag) && IsDirectory(s, parent) && Vacant(s.names, parent, name) && HasParent(s, tag)
    ensures Kept(s, MoveEntry(Stamped(s, tag, parent, now), tag, parent, name))
  {
    StampsKeep(s, tag, parent, now);
    StampsAreQuiet(s, tag, parent, now);
    FileIsChildless(s, tag);
    ChildlessIsNotReached(s.names, tag, parent);
    var t := Stamped(s, tag, parent, now);
    MoveIsKept(t, tag, parent, name);
    KeptTwice(s, t, MoveEntry(t, tag, parent, name));
  }

  lemma MoveAfterDrop(s: Volume, t: Volume, tag: Label, parent: Label, name: Name, now: nat)
    requires s.names.Keys <= s.used && Kept(s, t)
    requires LiveFile(t, tag) && IsDirectory(t, parent) && Vacant(t.names, parent, name) && HasParent(t, tag)
    ensures Kept(s, MoveEntry(Stamped(t, tag, parent, now), tag, parent, name))
  {
    BatchMoveKeeps(t, tag, parent, name, now);
    KeptTwice(s, t, MoveEntry(Stamped(t, tag, parent, now), tag, parent, name));
  }

  lemma BatchReplaceShape(
    s: Volume, tag: Label, victim: Label, parent: Label, name: Name, deferred: bool, created: set<nat>, now: nat)
    requires BatchItem(s, ItemReplace(tag, victim, parent, name), deferred, created, now).Some?
    ensures LiveFile(s, tag) && IsDirectory(s, parent) && Replaceable(s, tag, victim, parent, name)
    ensures var t := DropName(s, victim, deferred && s.names[victim].id !in created, now);
      && Named(t, tag) && HasParent(t, tag) && Named(t, parent)
      && BatchItem(s, ItemReplace(tag, victim, parent, name), deferred, created, now).value.volume
         == MoveEntry(Stamped(t, tag, parent, now), tag, parent, name)
  {
  }

  lemma BatchReplaceKeeps(
    s: Volume, tag: Label, victim: Label, parent: Label, name: Name, deferred: bool, created: set<nat>, now: nat)
    requires Good(s) && BatchItem(s, ItemReplace(tag, victim, parent, name), deferred, created, now).Some?
    requires Named(s, victim) && (NodeOf(s, victim).content.Regular? || (!deferred && Childless(s.names, victim)))
    ensures Kept(s, BatchItem(s, ItemReplace(tag, victim, parent, name), deferred, created, now).value.volume)
  {
    var orphan := deferred && s.names[victim].id !in created;
    BatchReplaceShape(s, tag, victim, parent, name, deferred, created, now);
    if NodeOf(s, victim).content.Regular? { FileIsChildless(s, victim); }
    DropThenMoveKeeps(s, tag, victim, parent, name, orphan, now);
    MoveAfterDrop(s, DropName(s, victim, orphan, now), tag, parent, name, now);
  }

  lemma BatchItemKeeps(s: Volume, item: Item, deferred: bool, created: set<nat>, now: nat)
    requires Good(s) && BatchItem(s, item, deferred, created, now).Some? && Harmless(s, item, deferred)
    ensures Kept(s, BatchItem(s, item, deferred, created, now).value.volume)
  {
    match item
    case ItemCreate(tag, parent, name, data) =>
      CreatedIsConsistent(data);
      NewObjectKeeps(s, Fresh(s, Regular(Created(data), false), now), tag, parent, name, now);
    case ItemDelete(tag) =>
      TouchKeeps(s, s.names[tag].parent.value, now);
      var t := TouchParent(s, tag, now);
      FileIsChildless(s, tag);
      DropIsKept(t, tag, deferred && s.names[tag].id !in created, now);
      KeptTwice(s, t, DropName(t, tag, deferred && s.names[tag].id !in created, now));
    case ItemRename(tag, parent, name) => BatchMoveKeeps(s, tag, parent, name, now);
    case ItemReplace(tag, victim, parent, name) =>
      BatchReplaceKeeps(s, tag, victim, parent, name, deferred, created, now);
  }

  lemma NoSelfParent(s: Volume, k: Label)
    requires Tree(s.names) && k in s.names && s.names[k].parent.Some?
    ensures k != ROOT && s.names[k].parent.value != k
  {
    ParentIsRooted(s.names, k);
  }

  // ---------- programs whose labels have one kind

  /** Every bound label has the kind that the program gives it. */
  ghost predicate Typed(s: Volume, kinds: map<Label, Kind>) {
    forall l :: l in s.names ==> Named(s, l) && l in kinds && kinds[l] == KindOf(NodeOf(s, l).content)
  }

  predicate ItemTyped(item: Item, kinds: map<Label, Kind>) {
    match item
    case ItemCreate(tag, _, _, _) => tag in kinds && kinds[tag] == FileKind
    case ItemReplace(_, victim, _, _) => victim in kinds && kinds[victim] == FileKind
    case _ => true
  }

  predicate ItemsTyped(items: seq<Item>, kinds: map<Label, Kind>) {
    forall item :: item in items ==> ItemTyped(item, kinds)
  }

  predicate OperationTyped(op: Operation, kinds: map<Label, Kind>) {
    match op
    case Mkdir(tag, _, _) => tag in kinds && kinds[tag] == DirectoryKind
    case Symlink(tag, _, _, _) => tag in kinds && kinds[tag] == SymlinkKind
    case Create(tag, _, _, _) => tag in kinds && kinds[tag] == FileKind
    case Link(tag, _, _, _) => tag in kinds && kinds[tag] == FileKind
    case CloneFile(tag, _, _, _) => tag in kinds && kinds[tag] == FileKind
    case Batch(items) => ItemsTyped(items, kinds)
    case WindowBatch(items) => ItemsTyped(items, kinds)
    case _ => true
  }

  lemma StaysTyped(s: Volume, t: Volume, kinds: map<Label, Kind>)
    requires Typed(s, kinds) && Persists(s, t)
    requires forall l :: l in t.names && l !in s.used ==>
      Named(t, l) && l in kinds && kinds[l] == KindOf(NodeOf(t, l).content)
    ensures Typed(t, kinds)
  {
    forall l | l in t.names ensures Named(t, l) && l in kinds && kinds[l] == KindOf(NodeOf(t, l).content) {
      if l in s.used { assert SameBinding(s, t, l); }
    }
  }

  lemma TypedBatchItem(s: Volume, item: Item, deferred: bool, created: set<nat>, now: nat, kinds: map<Label, Kind>)
    requires Good(s) && Typed(s, kinds) && ItemTyped(item, kinds) && BatchItem(s, item, deferred, created, now).Some?
    ensures var t := BatchItem(s, item, deferred, created, now).value.volume; Kept(s, t) && Typed(t, kinds)
  {
    BatchItemKeeps(s, item, deferred, created, now);
    FreshObject(s);
    NewLabelOfItem(s, item, deferred, created, now);
    StaysTyped(s, BatchItem(s, item, deferred, created, now).value.volume, kinds);
  }

  lemma NewLabelOfItem(s: Volume, item: Item, deferred: bool, created: set<nat>, now: nat)
    requires s.names.Keys <= s.used && s.nextObject !in s.objects && BatchItem(s, item, deferred, created, now).Some?
    ensures var t := BatchItem(s, item, deferred, created, now).value.volume;
      forall l :: l in t.names && l !in s.used ==>
        item.ItemCreate? && l == item.tag && Named(t, l) && NodeOf(t, l).content.Regular?
  {
  }

  lemma {:induction false} TypedBatchItems(
    s: Volume, items: seq<Item>, deferred: bool, created: set<nat>, now: nat, kinds: map<Label, Kind>)
    requires Good(s) && Typed(s, kinds) && ItemsTyped(items, kinds)
    requires BatchItems(s, items, deferred, created, now).Some?
    ensures var t := BatchItems(s, items, deferred, created, now).value.volume; Kept(s, t) && Typed(t, kinds)
    decreases |items|
  {
    if items == [] {
      SelfKept(s);
    } else {
      TypedBatchItem(s, items[0], deferred, created, now, kinds);
      var r := BatchItem(s, items[0], deferred, created, now).value;
      TypedBatchItems(r.volume, items[1..], deferred, r.created, now, kinds);
      KeptTwice(s, r.volume, BatchItems(s, items, deferred, created, now).value.volume);
    }
  }

  lemma TypedBatch(s: Volume, items: seq<Item>, deferred: bool, created: set<nat>, now: nat, kinds: map<Label, Kind>)
    requires Good(s) && Typed(s, kinds) && ItemsTyped(items, kinds) && RunBatch(s, items, deferred, created, now).Some?
    ensures var t := RunBatch(s, items, deferred, created, now).value.volume; Kept(s, t) && Typed(t, kinds)
  {
    TickKeeps(s);
    TypedBatchItems(Tick(s), items, deferred, created, now, kinds);
    KeptTwice(s, Tick(s), RunBatch(s, items, deferred, created, now).value.volume);
  }

  lemma {:induction false} TypedGroups(
    s: Volume, groups: seq<Group>, created: set<nat>, now: nat, kinds: map<Label, Kind>)
    requires Good(s) && Typed(s, kinds) && PublishGroups(s, groups, created, now).Some?
    requires forall g :: g in groups ==> ItemsTyped(g.items, kinds)
    ensures var t := PublishGroups(s, groups, created, now).value; Kept(s, t) && Typed(t, kinds)
    decreases |groups|
  {
    if groups == [] {
      SelfKept(s);
    } else {
      TypedBatch(s, groups[0].items, true, created, now, kinds);
      var r := RunBatch(s, groups[0].items, true, created, now).value;
      TypedGroups(r.volume, groups[1..], r.created, now, kinds);
      KeptTwice(s, r.volume, PublishGroups(s, groups, created, now).value);
    }
  }
}
