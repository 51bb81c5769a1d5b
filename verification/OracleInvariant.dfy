/** What every accepted operation of the oracle keeps. */
module OracleInvariant {
  import opened Basics
  import opened Scenario
  import opened Namespace
  import opened Oracle

  ghost function NamesOf(names: Names, id: nat): set<Label> {
    set l | l in names && names[l].id == id
  }

  ghost function OrphansOf(orphaned: map<Label, nat>, id: nat): set<Label> {
    set l | l in orphaned && orphaned[l] == id
  }

  /** The link count of an object is the number of names bound to it plus its
      registrations in the reserved directory, and some link exists. */
  ghost predicate Counted(s: Volume, id: nat)
    requires id in s.objects
  {
    var n := s.objects[id];
    && 1 <= n.links == |NamesOf(s.names, id)| + |OrphansOf(s.orphaned, id)|
    && (!n.content.Regular? ==> n.links == 1)
    && id < s.nextObject
  }

  ghost predicate LinksCounted(s: Volume) {
    forall id {:trigger Counted(s, id)} :: id in s.objects ==> Counted(s, id)
  }

  /** A bound label names an object, and its parent is a directory. */
  ghost predicate Bound(s: Volume, l: Label)
    requires l in s.names
  {
    && Named(s, l)
    && (l == ROOT ==> IsDirectory(s, l))
    && (l != ROOT ==> s.names[l].parent.Some? && IsDirectory(s, s.names[l].parent.value))
  }

  ghost predicate NamesBound(s: Volume) {
    forall l {:trigger Bound(s, l)} :: l in s.names ==> Bound(s, l)
  }

  /** A registered orphan is a file whose one link is the registration. */
  ghost predicate Registered(s: Volume, l: Label)
    requires l in s.orphaned
  {
    s.orphaned[l] in s.objects && s.objects[s.orphaned[l]].content.Regular? && s.objects[s.orphaned[l]].links == 1
  }

  /** Orphans are registered, and a label that was ever bound stays used. */
  ghost predicate LabelsSpent(s: Volume) {
    && (forall l {:trigger Registered(s, l)} :: l in s.orphaned ==> Registered(s, l))
    && s.names.Keys !! s.orphaned.Keys
    && s.names.Keys <= s.used && s.orphaned.Keys <= s.used
  }

  ghost predicate Structure(s: Volume) {
    Tree(s.names) && NamesBound(s) && LinksCounted(s) && LabelsSpent(s)
  }

  // ---------- changes of times, contents and generations

  predicate SameShape(a: Node, b: Node) {
    a.links == b.links && KindOf(a.content) == KindOf(b.content)
  }

  /** Nothing but contents and attributes of existing objects differs. */
  ghost predicate Quiet(s: Volume, t: Volume) {
    && t.names == s.names && t.orphaned == s.orphaned && t.used == s.used && t.nextObject == s.nextObject
    && t.objects.Keys == s.objects.Keys
    && forall id :: id in s.objects ==> SameShape(s.objects[id], t.objects[id])
  }

  lemma QuietKeeps(s: Volume, t: Volume)
    requires Structure(s) && Quiet(s, t)
    ensures Structure(t)
  {
    forall l | l in t.names ensures Bound(t, l) { assert Bound(s, l); }
    forall id | id in t.objects ensures Counted(t, id) { assert Counted(s, id); }
    forall l | l in t.orphaned ensures Registered(t, l) { assert Registered(s, l); }
  }

  // ---------- counting

  lemma CountAfterInsert(names: Names, l: Label, e: Entry, id: nat)
    requires l !in names
    ensures |NamesOf(names[l := e], id)| == |NamesOf(names, id)| + if e.id == id then 1 else 0
  {
    assert NamesOf(names[l := e], id) == NamesOf(names, id) + if e.id == id then {l} else {};
  }

  lemma CountAfterRemove(names: Names, l: Label, id: nat)
    requires l in names
    ensures |NamesOf(names - {l}, id)| == |NamesOf(names, id)| - if names[l].id == id then 1 else 0
  {
    assert NamesOf(names - {l}, id) == NamesOf(names, id) - if names[l].id == id then {l} else {};
  }

  lemma CountAfterMove(names: Names, l: Label, e: Entry, id: nat)
    requires l in names && e.id == names[l].id
    ensures NamesOf(names[l := e], id) == NamesOf(names, id)
  {
  }

  lemma OrphansAfterInsert(orphaned: map<Label, nat>, l: Label, to: nat, id: nat)
    requires l !in orphaned
    ensures |OrphansOf(orphaned[l := to], id)| == |OrphansOf(orphaned, id)| + if to == id then 1 else 0
  {
    assert OrphansOf(orphaned[l := to], id) == OrphansOf(orphaned, id) + if to == id then {l} else {};
  }

  lemma OrphansAfterRemove(orphaned: map<Label, nat>, l: Label, id: nat)
    requires l in orphaned
    ensures |OrphansOf(orphaned - {l}, id)| == |OrphansOf(orphaned, id)| - if orphaned[l] == id then 1 else 0
  {
    assert OrphansOf(orphaned - {l}, id) == OrphansOf(orphaned, id) - if orphaned[l] == id then {l} else {};
  }

  // ---------- structural changes

  /** t is s with one more label; it names a fresh object or a file that gains a link. */
  ghost predicate Attached(s: Volume, t: Volume, tag: Label, id: nat, parent: Label, name: Name) {
    && t.names == s.names[tag := Entry(id, Some(parent), name)] && t.used == s.used + {tag} && t.orphaned == s.orphaned
    && t.objects.Keys == s.objects.Keys + {id}
    && s.nextObject <= t.nextObject && id < t.nextObject
    && t.objects[id].links == (if id in s.objects then s.objects[id].links else 0) + 1
    && (id in s.objects ==> t.objects[id].content.Regular?)
    && (forall k :: k in s.objects && k != id ==> t.objects[k].links == s.objects[k].links)
    && (forall k :: k in s.objects ==> KindOf(t.objects[k].content) == KindOf(s.objects[k].content))
  }

  lemma AttachBound(s: Volume, t: Volume, tag: Label, id: nat, parent: Label, name: Name)
    requires NamesBound(s) && IsDirectory(s, parent) && tag !in s.names && ROOT in s.names
    requires Attached(s, t, tag, id, parent, name)
    ensures NamesBound(t)
  {
    forall l | l in t.names ensures Bound(t, l) {
      if l != tag { assert Bound(s, l); }
    }
  }

  lemma AttachSpent(s: Volume, t: Volume, tag: Label, id: nat, parent: Label, name: Name)
    requires LabelsSpent(s) && tag !in s.used && Attached(s, t, tag, id, parent, name)
    requires forall l :: l in s.orphaned ==> s.orphaned[l] != id
    ensures LabelsSpent(t)
  {
    forall l | l in t.orphaned ensures Registered(t, l) { assert Registered(s, l); }
  }

  /** A fresh object has one name; an existing file has one more. */
  lemma AttachCounted(s: Volume, t: Volume, tag: Label, id: nat, parent: Label, name: Name, k: nat)
    requires LinksCounted(s) && NamesBound(s) && LabelsSpent(s) && tag !in s.names
    requires Attached(s, t, tag, id, parent, name) && k in t.objects
    ensures Counted(t, k)
  {
    CountAfterInsert(s.names, tag, Entry(id, Some(parent), name), k);
    if k in s.objects {
      assert Counted(s, k);
    } else {
      assert NamesOf(s.names, id) == {} by {
        forall l | l in s.names ensures s.names[l].id != id { assert Bound(s, l); }
      }
      assert OrphansOf(s.orphaned, id) == {} by {
        forall l | l in s.orphaned ensures s.orphaned[l] != id { assert Registered(s, l); }
      }
    }
  }

  /** A fresh object, or one more name for a file, under a fresh label. */
  lemma AttachKeeps(s: Volume, t: Volume, tag: Label, id: nat, parent: Label, name: Name)
    requires Structure(s) && Insertable(s, tag, parent, name) && Attached(s, t, tag, id, parent, name)
    requires forall l :: l in s.orphaned ==> s.orphaned[l] != id
    ensures Structure(t)
  {
    InsertKeepsTree(s.names, tag, Entry(id, Some(parent), name));
    AttachBound(s, t, tag, id, parent, name);
    AttachSpent(s, t, tag, id, parent, name);
    forall k | k in t.objects ensures Counted(t, k) { AttachCounted(s, t, tag, id, parent, name, k); }
  }

  lemma FileIsChildless(s: Volume, tag: Label)
    requires Structure(s) && tag in s.names && !IsDirectory(s, tag)
    ensures tag != ROOT && Childless(s.names, tag)
  {
    assert Bound(s, tag);
    forall k | k in s.names ensures s.names[k].parent != Some(tag) { assert Bound(s, k); }
  }

  /** An object with one link has one name and no registration. */
  lemma SoleLink(s: Volume, l: Label, k: Label)
    requires LinksCounted(s) && l in s.names && Named(s, l) && NodeOf(s, l).links == 1
    ensures k in s.names && s.names[k].id == s.names[l].id ==> k == l
    ensures k in s.orphaned ==> s.orphaned[k] != s.names[l].id
  {
    var id := s.names[l].id;
    var all := NamesOf(s.names, id);
    assert Counted(s, id);
    assert l in all;
    assert |all - {l}| == |all| - 1;
    assert k in all ==> k == l || k in all - {l};
    assert k in s.orphaned && s.orphaned[k] == id ==> k in OrphansOf(s.orphaned, id);
  }

  /** A named object is not registered as an orphan. */
  lemma NamedIsNotOrphaned(s: Volume, l: Label)
    requires LinksCounted(s) && LabelsSpent(s) && l in s.names && Named(s, l)
    ensures forall k :: k in s.orphaned ==> s.orphaned[k] != s.names[l].id
  {
    forall k | k in s.orphaned ensures s.orphaned[k] != s.names[l].id {
      assert Registered(s, k);
      if NodeOf(s, l).links == 1 { SoleLink(s, l, k); }
    }
  }

  lemma DropBoundAt(s: Volume, tag: Label, orphan: bool, now: nat, l: Label)
    requires LinksCounted(s) && tag in s.names && tag != ROOT && Named(s, tag)
    requires l in s.names && l != tag && Bound(s, l) && s.names[l].parent != Some(tag)
    ensures Bound(DropName(s, tag, orphan, now), l)
  {
    if NodeOf(s, tag).links == 1 {
      SoleLink(s, tag, l);
      if l != ROOT { SoleLink(s, tag, s.names[l].parent.value); }
    } else {
      assert Counted(s, s.names[tag].id);
    }
  }

  lemma DropBound(s: Volume, tag: Label, orphan: bool, now: nat)
    requires NamesBound(s) && LinksCounted(s) && tag in s.names && tag != ROOT && Childless(s.names, tag)
    requires Named(s, tag)
    ensures NamesBound(DropName(s, tag, orphan, now))
  {
    var t := DropName(s, tag, orphan, now);
    assert t.names == s.names - {tag};
    forall l | l in t.names ensures Bound(t, l) { DropBoundAt(s, tag, orphan, now, l); }
  }

  lemma DropSpent(s: Volume, tag: Label, orphan: bool, now: nat)
    requires LabelsSpent(s) && LinksCounted(s) && tag in s.names && Named(s, tag)
    requires orphan ==> NodeOf(s, tag).content.Regular?
    ensures LabelsSpent(DropName(s, tag, orphan, now))
  {
    NamedIsNotOrphaned(s, tag);
    var t := DropName(s, tag, orphan, now);
    forall l | l in t.orphaned ensures Registered(t, l) {
      if l != tag { assert Registered(s, l); }
    }
  }

  lemma DropCounted(s: Volume, tag: Label, orphan: bool, now: nat, k: nat)
    requires LabelsSpent(s) && LinksCounted(s) && tag in s.names && Named(s, tag)
    requires k in DropName(s, tag, orphan, now).objects
    ensures Counted(DropName(s, tag, orphan, now), k)
  {
    var id := s.names[tag].id;
    assert Counted(s, k);
    CountAfterRemove(s.names, tag, k);
    OrphansAfterInsert(s.orphaned, tag, id, k);
    if k == id && NodeOf(s, tag).links == 1 {
      assert tag in NamesOf(s.names, id);
      assert |NamesOf(s.names, id) - {tag}| == |NamesOf(s.names, id)| - 1;
    }
  }

  lemma DropKeeps(s: Volume, tag: Label, orphan: bool, now: nat)
    requires Structure(s) && tag in s.names && tag != ROOT && Childless(s.names, tag) && Named(s, tag)
    requires orphan ==> NodeOf(s, tag).content.Regular?
    ensures Structure(DropName(s, tag, orphan, now))
  {
    RemoveKeepsTree(s.names, tag);
    DropBound(s, tag, orphan, now);
    DropSpent(s, tag, orphan, now);
    var t := DropName(s, tag, orphan, now);
    forall k | k in t.objects ensures Counted(t, k) { DropCounted(s, tag, orphan, now, k); }
  }

  lemma MoveKeeps(s: Volume, tag: Label, parent: Label, name: Name)
    requires Structure(s) && tag in s.names && tag != ROOT && IsDirectory(s, parent) && Vacant(s.names, parent, name)
    requires !Reaches(s.names, tag, parent)
    ensures Structure(MoveEntry(s, tag, parent, name))
  {
    var t := MoveEntry(s, tag, parent, name);
    MoveKeepsTree(s.names, tag, t.names[tag]);
    MoveBound(s, tag, parent, name);
    forall k | k in t.objects ensures Counted(t, k) {
      assert Counted(s, k);
      CountAfterMove(s.names, tag, t.names[tag], k);
    }
    forall l | l in t.orphaned ensures Registered(t, l) { assert Registered(s, l); }
  }

  lemma MoveBound(s: Volume, tag: Label, parent: Label, name: Name)
    requires NamesBound(s) && tag in s.names && tag != ROOT && IsDirectory(s, parent)
    ensures NamesBound(MoveEntry(s, tag, parent, name))
  {
    var t := MoveEntry(s, tag, parent, name);
    forall l | l in t.names ensures Bound(t, l) { assert Bound(s, l); }
  }

  lemma CleanupKeeps(c: Config, s: Volume, tag: Label)
    requires Structure(s) && Cleanup(c, s, tag).Some?
    ensures Structure(Cleanup(c, s, tag).value)
  {
    var t := Cleanup(c, s, tag).value;
    forall l | l in t.names ensures Bound(t, l) {
      assert Bound(s, l);
      NamedIsNotOrphaned(s, l);
      if l != ROOT { NamedIsNotOrphaned(s, s.names[l].parent.value); }
    }
    forall l | l in t.orphaned ensures Registered(t, l) { CleanupRegistered(c, s, tag, l); }
    forall k | k in t.objects ensures Counted(t, k) {
      assert Counted(s, k);
      OrphansAfterRemove(s.orphaned, tag, k);
    }
  }

  lemma CleanupRegistered(c: Config, s: Volume, tag: Label, l: Label)
    requires LinksCounted(s) && LabelsSpent(s) && Cleanup(c, s, tag).Some? && l in s.orphaned && l != tag
    ensures Registered(Cleanup(c, s, tag).value, l)
  {
    var id := s.orphaned[tag];
    assert Registered(s, l) && Registered(s, tag);
    var all := OrphansOf(s.orphaned, id);
    assert Counted(s, id);
    assert tag in all;
    assert |all - {tag}| == |all| - 1;
    assert l in all ==> l in all - {tag};
  }
}
