/** What times and generations tell: an object or a directory whose contents
    differ carries a newer generation, and an object is unchanged exactly when
    its change time is old. */
module OracleTimes {
  import opened Basics
  import opened Scenario
  import opened Namespace
  import opened Files
  import opened Oracle

  // ---------- what an operation may do to one object

  /** The bytes an object serves. */
  function Payload(n: Node): Bytes {
    match n.content case Directory => [] case Symlink(target) => target case Regular(f, _) => f.data
  }

  predicate Policy(n: Node) { n.content.Regular? && n.content.policy }

  /** The generation before, and the times after the first and up to the second. */
  datatype Era = Era(base: nat, since: nat, until: nat)

  predicate Within(w: Era, time: nat) { w.since < time <= w.until }

  /** Which exceptional operations a run holds. */
  datatype Manner = Manner(amends: bool, restores: bool, clones: bool)

  function MannerOf(op: Operation): Manner {
    Manner(op.SetProtection? || op.SetDataPolicy? || op.RestoreMetadata?, op.RestoreMetadata?, op.CloneFile?)
  }

  predicate Dated(a: Node, b: Node, w: Era) {
    && a.created == b.created
    && (a != b ==> Within(w, b.changed))
    && (Payload(a) != Payload(b) || a.modified != b.modified || a.generation != b.generation ==> Within(w, b.modified))
  }

  /** An object that stays keeps its kind; new bytes show in its generation and times. */
  predicate Marks(a: Node, b: Node, w: Era, how: Manner) {
    && KindOf(a.content) == KindOf(b.content)
    && (Payload(a) != Payload(b) || a.generation != b.generation ==> b.generation > w.base)
    && (!how.restores && a.modified != b.modified ==> b.generation > w.base)
    && (!how.restores ==> Dated(a, b, w))
    && (!how.amends ==> a.protection == b.protection && Policy(a) == Policy(b))
  }

  predicate Newborn(n: Node, w: Era, how: Manner) {
    && n.generation > w.base
    && (!how.restores ==> Within(w, n.created) && Within(w, n.changed))
    && (!how.restores && !how.clones ==> Within(w, n.modified))
  }

  ghost predicate ObjectMarked(s: Volume, t: Volume, id: nat, w: Era, how: Manner)
    requires id in t.objects
  {
    if id in s.objects then Marks(s.objects[id], t.objects[id], w, how)
    else s.nextObject <= id < t.nextObject && Newborn(t.objects[id], w, how)
  }

  ghost predicate ObjectsMarked(s: Volume, t: Volume, w: Era, how: Manner) {
    && s.nextObject <= t.nextObject
    && forall id {:trigger ObjectMarked(s, t, id, w, how)} :: id in t.objects ==> ObjectMarked(s, t, id, w, how)
  }

  /** Identities are issued in order. */
  ghost predicate Numbered(s: Volume) { forall id :: id in s.objects ==> id < s.nextObject }

  lemma ObjectsStay(s: Volume, t: Volume, w: Era, how: Manner)
    requires t.nextObject == s.nextObject && t.objects == s.objects
    ensures ObjectsMarked(s, t, w, how)
  {
  }

  lemma MarksChain(a: Node, b: Node, c: Node, w: Era, how: Manner)
    requires Marks(a, b, w, how) && Marks(b, c, w, how)
    ensures Marks(a, c, w, how)
  {
    hide Payload, Policy;
  }

  lemma NewbornStays(a: Node, b: Node, w: Era, how: Manner)
    requires Newborn(a, w, how) && Marks(a, b, w, how)
    ensures Newborn(b, w, how)
  {
    hide Payload, Policy;
  }

  lemma ObjectsChain(s: Volume, t: Volume, u: Volume, w: Era, how: Manner)
    requires Numbered(s) && ObjectsMarked(s, t, w, how) && ObjectsMarked(t, u, w, how)
    ensures ObjectsMarked(s, u, w, how) && Numbered(t)
  {
    hide Marks, Newborn;
    forall id | id in t.objects ensures id < t.nextObject { assert ObjectMarked(s, t, id, w, how); }
    forall id | id in u.objects ensures ObjectMarked(s, u, id, w, how) {
      assert ObjectMarked(t, u, id, w, how);
      if id in t.objects {
        assert ObjectMarked(s, t, id, w, how);
        if id in s.objects {
          MarksChain(s.objects[id], t.objects[id], u.objects[id], w, how);
        } else {
          NewbornStays(t.objects[id], u.objects[id], w, how);
        }
      }
    }
  }

  lemma PutMarks(s: Volume, id: nat, n: Node, w: Era, how: Manner)
    requires id in s.objects && Marks(s.objects[id], n, w, how)
    ensures ObjectsMarked(s, Put(s, id, n), w, how)
  {
  }

  lemma TouchMarks(s: Volume, l: Label, now: nat, w: Era, how: Manner)
    requires Named(s, l) && w.base < s.generation && Within(w, now)
    ensures ObjectsMarked(s, Touch(s, l, now), w, how)
  {
    PutMarks(s, s.names[l].id, NodeOf(s, l).(modified := now, changed := now, generation := s.generation), w, how);
  }

  lemma ChangeMarks(s: Volume, id: nat, now: nat, w: Era, how: Manner)
    requires id in s.objects && Within(w, now)
    ensures ObjectsMarked(s, Change(s, id, now), w, how)
  {
    PutMarks(s, id, s.objects[id].(changed := now), w, how);
  }

  lemma DropMarks(s: Volume, tag: Label, orphan: bool, now: nat, w: Era, how: Manner)
    requires Named(s, tag) && Within(w, now)
    ensures ObjectsMarked(s, DropName(s, tag, orphan, now), w, how)
  {
  }

  // ---------- what an operation may do to names

  /** The entry of a directory, if the label is one. */
  function EntryIn(n: Names, d: Label, l: Label): Option<Entry> {
    if l in n && n[l].parent == Some(d) then Some(n[l]) else None
  }

  ghost predicate SameEntries(n: Names, m: Names, d: Label) {
    forall l :: EntryIn(n, d, l) == EntryIn(m, d, l)
  }

  /** Labels and identities are spent as they are given out. */
  ghost predicate Spent(s: Volume) {
    s.names.Keys <= s.used && Numbered(s) && forall l :: l in s.names ==> s.names[l].id < s.nextObject
  }

  /** A label that was ever used names what it named before, or nothing. */
  ghost predicate NamesMarked(s: Volume, t: Volume) {
    && s.used <= t.used && t.names.Keys <= t.used
    && (forall l :: l in t.names ==> t.names[l].id < t.nextObject)
    && (forall l :: l in t.names && l in s.used ==> l in s.names && t.names[l].id == s.names[l].id)
  }

  predicate Relisted(n: Node, w: Era, how: Manner) {
    n.generation > w.base && (!how.restores ==> Within(w, n.modified))
  }

  /** A directory whose entries differ has taken the generation and the time. */
  ghost predicate EntriesMarked(s: Volume, t: Volume, w: Era, how: Manner) {
    forall d {:trigger SameEntries(s.names, t.names, d)} ::
      d in s.names && d in t.names && t.names[d].id in t.objects && !SameEntries(s.names, t.names, d) ==>
        Relisted(t.objects[t.names[d].id], w, how)
  }

  ghost predicate Marked(s: Volume, t: Volume, w: Era, how: Manner) {
    s.generation <= t.generation && ObjectsMarked(s, t, w, how) && NamesMarked(s, t) && EntriesMarked(s, t, w, how)
  }

  lemma SpentStays(s: Volume, t: Volume, w: Era, how: Manner)
    requires Spent(s) && ObjectsMarked(s, t, w, how) && NamesMarked(s, t)
    ensures Spent(t)
  {
    forall id | id in t.objects ensures id < t.nextObject { assert ObjectMarked(s, t, id, w, how); }
  }

  lemma SameChain(n: Names, m: Names, k: Names, d: Label)
    requires SameEntries(n, m, d) && SameEntries(m, k, d)
    ensures SameEntries(n, k, d)
  {
    forall l ensures EntryIn(n, d, l) == EntryIn(k, d, l) {
      assert EntryIn(n, d, l) == EntryIn(m, d, l) && EntryIn(m, d, l) == EntryIn(k, d, l);
    }
  }

  lemma RelistedStays(a: Node, b: Node, w: Era, how: Manner)
    requires Relisted(a, w, how) && Marks(a, b, w, how)
    ensures Relisted(b, w, how)
  {
  }

  lemma EntriesChain(s: Volume, t: Volume, u: Volume, w: Era, how: Manner)
    requires Spent(s) && Marked(s, t, w, how) && Marked(t, u, w, how)
    ensures EntriesMarked(s, u, w, how)
  {
    hide Marks, Newborn, SameEntries, Relisted;
    forall d | d in s.names && d in u.names && u.names[d].id in u.objects && !SameEntries(s.names, u.names, d)
      ensures Relisted(u.objects[u.names[d].id], w, how)
    {
      assert d in s.used && d in t.used && d in t.names;
      var id := u.names[d].id;
      assert id == t.names[d].id && id < t.nextObject;
      assert ObjectMarked(t, u, id, w, how);
      if SameEntries(t.names, u.names, d) {
        if SameEntries(s.names, t.names, d) { SameChain(s.names, t.names, u.names, d); }
        RelistedStays(t.objects[id], u.objects[id], w, how);
      }
    }
  }

  lemma MarkedChain(s: Volume, t: Volume, u: Volume, w: Era, how: Manner)
    requires Spent(s) && Marked(s, t, w, how) && Marked(t, u, w, how)
    ensures Marked(s, u, w, how) && Spent(t)
  {
    hide ObjectsMarked, EntriesMarked;
    SpentStays(s, t, w, how);
    EntriesChain(s, t, u, w, how);
    ObjectsChain(s, t, u, w, how);
  }

  lemma MarkedSelf(s: Volume, w: Era, how: Manner)
    requires Spent(s)
    ensures Marked(s, s, w, how)
  {
  }

  /** A wider span and a freer manner promise less. */
  predicate Wider(w: Era, x: Era) { x.base <= w.base && x.since <= w.since && w.until <= x.until }

  predicate Freer(how: Manner, free: Manner) {
    (how.amends ==> free.amends) && (how.restores ==> free.restores) && (how.clones ==> free.clones)
  }

  lemma MarkedWider(s: Volume, t: Volume, w: Era, x: Era, how: Manner, free: Manner)
    requires Marked(s, t, w, how) && Wider(w, x) && Freer(how, free)
    ensures Marked(s, t, x, free)
  {
    hide SameEntries, Payload, Policy;
    forall id | id in t.objects ensures ObjectMarked(s, t, id, x, free) { assert ObjectMarked(s, t, id, w, how); }
  }

  // ---------- changes of names under stamped parents

  /** Outside some labels the names agree. */
  ghost predicate AgreeOutside(n: Names, m: Names, tags: set<Label>) {
    && (forall l :: l in n && l !in tags ==> l in m && m[l] == n[l])
    && (forall l :: l in m && l !in tags ==> l in n)
  }

  ghost predicate EntriesInside(n: Names, tags: set<Label>, parents: set<Label>) {
    forall l :: l in tags && l in n && n[l].parent.Some? ==> n[l].parent.value in parents
  }

  ghost predicate AllRelisted(t: Volume, parents: set<Label>, w: Era, how: Manner) {
    forall d :: d in parents && d in t.names && t.names[d].id in t.objects ==>
      Relisted(t.objects[t.names[d].id], w, how)
  }

  lemma EntriesElsewhere(n: Names, m: Names, tags: set<Label>, parents: set<Label>, d: Label)
    requires AgreeOutside(n, m, tags) && EntriesInside(n, tags, parents) && EntriesInside(m, tags, parents)
    requires d !in parents
    ensures SameEntries(n, m, d)
  {
    forall l ensures EntryIn(n, d, l) == EntryIn(m, d, l) { }
  }

  lemma Relists(s: Volume, t: Volume, tags: set<Label>, parents: set<Label>, w: Era, how: Manner)
    requires AgreeOutside(s.names, t.names, tags)
    requires EntriesInside(s.names, tags, parents) && EntriesInside(t.names, tags, parents)
    requires AllRelisted(t, parents, w, how)
    ensures EntriesMarked(s, t, w, how)
  {
    hide SameEntries, Relisted;
    forall d | d in s.names && d in t.names && t.names[d].id in t.objects && !SameEntries(s.names, t.names, d)
      ensures Relisted(t.objects[t.names[d].id], w, how)
    {
      if d !in parents { EntriesElsewhere(s.names, t.names, tags, parents, d); }
    }
  }

  lemma SameNames(s: Volume, t: Volume, w: Era, how: Manner)
    requires Spent(s) && ObjectsMarked(s, t, w, how) && t.names == s.names && t.used == s.used
    requires s.generation <= t.generation
    ensures Marked(s, t, w, how)
  {
    Relists(s, t, {}, {}, w, how);
  }

  lemma TickStarts(s: Volume, t: Volume, w: Era, how: Manner)
    requires Marked(Tick(s), t, w, how)
    ensures Marked(s, t, w, how)
  {
    forall id | id in t.objects ensures ObjectMarked(s, t, id, w, how) {
      assert ObjectMarked(Tick(s), t, id, w, how);
    }
  }

  lemma AddMarks(s: Volume, n: Node, w: Era, how: Manner)
    requires Spent(s) && Newborn(n, w, how)
    ensures Marked(s, AddObject(s, n), w, how)
  {
    assert ObjectsMarked(s, AddObject(s, n), w, how);
    SameNames(s, AddObject(s, n), w, how);
  }

  lemma BindMarks(s: Volume, tag: Label, id: nat, parent: Label, name: Name, now: nat, w: Era, how: Manner)
    requires Spent(s) && tag !in s.used && id in s.objects && Named(s, parent)
    requires w.base < s.generation && Within(w, now)
    ensures Marked(s, Bind(s, tag, id, parent, name, now), w, how)
  {
    var m := s.(used := s.used + {tag}, names := s.names[tag := Entry(id, Some(parent), name)]);
    var t := Bind(s, tag, id, parent, name, now);
    TouchMarks(m, parent, now, w, how);
    forall k | k in t.objects ensures ObjectMarked(s, t, k, w, how) { assert ObjectMarked(m, t, k, w, how); }
    Relists(s, t, {tag}, {parent}, w, how);
  }

  /** Change the object, then touch the old and the new parent. */
  ghost function Stamps(s: Volume, tag: Label, parent: Label, now: nat): Volume
    requires Named(s, tag) && HasParent(s, tag) && Named(s, parent)
  {
    Touch(TouchParent(Change(s, s.names[tag].id, now), tag, now), parent, now)
  }

  lemma StampsMark(s: Volume, tag: Label, parent: Label, now: nat, w: Era, how: Manner)
    requires Spent(s) && Named(s, tag) && HasParent(s, tag) && Named(s, parent)
    requires w.base < s.generation && Within(w, now)
    ensures ObjectsMarked(s, Stamps(s, tag, parent, now), w, how)
    ensures AllRelisted(Stamps(s, tag, parent, now), {s.names[tag].parent.value, parent}, w, how)
  {
    var a := Change(s, s.names[tag].id, now);
    var b := TouchParent(a, tag, now);
    ChangeMarks(s, s.names[tag].id, now, w, how);
    TouchMarks(a, s.names[tag].parent.value, now, w, how);
    TouchMarks(b, parent, now, w, how);
    hide ObjectsMarked;
    ObjectsChain(s, a, b, w, how);
    ObjectsChain(s, b, Stamps(s, tag, parent, now), w, how);
  }

  /** A stamped entry moves to its new place. */
  lemma MovedMarks(s: Volume, tag: Label, parent: Label, name: Name, now: nat, w: Era, how: Manner)
    requires Spent(s) && Named(s, tag) && HasParent(s, tag) && Named(s, parent)
    requires w.base < s.generation && Within(w, now)
    ensures Marked(s, MoveEntry(Stamps(s, tag, parent, now), tag, parent, name), w, how)
  {
    var u := Stamps(s, tag, parent, now);
    var t := MoveEntry(u, tag, parent, name);
    StampsMark(s, tag, parent, now, w, how);
    SameObjects(s, u, t, w, how);
    assert u.names == s.names && u.used == s.used;
    assert AllRelisted(t, {s.names[tag].parent.value, parent}, w, how);
    Relists(s, t, {tag}, {s.names[tag].parent.value, parent}, w, how);
  }

  lemma SameObjects(s: Volume, u: Volume, t: Volume, w: Era, how: Manner)
    requires ObjectsMarked(s, u, w, how) && t.objects == u.objects && t.nextObject == u.nextObject
    ensures ObjectsMarked(s, t, w, how)
  {
    forall id | id in t.objects ensures ObjectMarked(s, t, id, w, how) { assert ObjectMarked(s, u, id, w, how); }
  }

  /** A name dropped from a directory that was touched. */
  lemma DroppedMarks(s: Volume, u: Volume, tag: Label, orphan: bool, now: nat, w: Era, how: Manner)
    requires Spent(s) && ObjectsMarked(s, u, w, how) && u.names == s.names && u.used == s.used
    requires s.generation <= u.generation && Named(u, tag) && HasParent(u, tag) && Within(w, now)
    requires AllRelisted(u, {s.names[tag].parent.value}, w, how)
    ensures Marked(s, DropName(u, tag, orphan, now), w, how)
  {
    var t := DropName(u, tag, orphan, now);
    DropMarks(u, tag, orphan, now, w, how);
    DropRelists(u, tag, orphan, now, {s.names[tag].parent.value}, w, how);
    ObjectsChain(s, u, t, w, how);
    assert t.names == s.names - {tag} && t.used == s.used;
    Relists(s, t, {tag}, {s.names[tag].parent.value}, w, how);
  }

  lemma DropRelists(
    s: Volume, tag: Label, orphan: bool, now: nat, parents: set<Label>, w: Era, how: Manner)
    requires Named(s, tag) && AllRelisted(s, parents, w, how)
    ensures AllRelisted(DropName(s, tag, orphan, now), parents, w, how)
  {
  }

  // ---------- the operations on names

  lemma InsertMarks(
    s: Volume, content: Content, tag: Label, parent: Label, name: Name, now: nat, w: Era, how: Manner)
    requires Spent(s) && Insert(s, content, tag, parent, name, now).Some? && w.base <= s.generation && Within(w, now)
    ensures Marked(s, Insert(s, content, tag, parent, name, now).value, w, how)
  {
    hide Vacant, Marked;
    var t := Tick(s);
    var u := AddObject(t, Fresh(t, content, now));
    AddMarks(t, Fresh(t, content, now), w, how);
    NewNameMarks(s, u, tag, t.nextObject, parent, name, now, w, how);
  }

  /** A volume that only changed objects, then gets a new label. */
  lemma NewNameMarks(
    s: Volume, u: Volume, tag: Label, id: nat, parent: Label, name: Name, now: nat, w: Era, how: Manner)
    requires Spent(s) && Marked(Tick(s), u, w, how) && tag !in u.used && id in u.objects && Named(u, parent)
    requires w.base < u.generation && Within(w, now)
    ensures Marked(s, Bind(u, tag, id, parent, name, now), w, how)
  {
    hide ObjectsMarked, EntriesMarked;
    SpentStays(Tick(s), u, w, how);
    BindMarks(u, tag, id, parent, name, now, w, how);
    MarkedChain(Tick(s), u, Bind(u, tag, id, parent, name, now), w, how);
    TickStarts(s, Bind(u, tag, id, parent, name, now), w, how);
  }

  lemma LinkMarks(s: Volume, tag: Label, source: Label, parent: Label, name: Name, now: nat, w: Era, how: Manner)
    requires Spent(s) && AddLink(s, tag, source, parent, name, now).Some? && w.base <= s.generation && Within(w, now)
    ensures Marked(s, AddLink(s, tag, source, parent, name, now).value, w, how)
  {
    hide Vacant, Marked;
    var t, n, id := Tick(s), NodeOf(s, source), s.names[source].id;
    var u := Put(t, id, n.(links := n.links + 1, changed := now));
    PutMarks(t, id, n.(links := n.links + 1, changed := now), w, how);
    SameNames(t, u, w, how);
    NewNameMarks(s, u, tag, id, parent, name, now, w, how);
  }

  lemma CloneMarks(s: Volume, tag: Label, source: Label, parent: Label, name: Name, now: nat, w: Era, how: Manner)
    requires Spent(s) && Clone(s, tag, source, parent, name, now).Some? && w.base <= s.generation && Within(w, now)
    requires how.clones
    ensures Marked(s, Clone(s, tag, source, parent, name, now).value, w, how)
  {
    hide Vacant, Marked;
    var t, id, n := Tick(s), s.names[source].id, NodeOf(s, source);
    var f := n.content.file.(shared := n.content.file.blocks.Keys);
    var copy := Fresh(t, Regular(f, false), now).(protection := n.protection, modified := n.modified);
    var u := AddObject(t, copy);
    AddMarks(t, copy, w, how);
    var kept := n.(content := n.content.(file := f), changed := now);
    var v := Put(u, id, kept);
    assert u.objects[id] == n;
    PutMarks(u, id, kept, w, how);
    SpentAdds(t, copy);
    SameNames(u, v, w, how);
    MarkedChain(t, u, v, w, how);
    NewNameMarks(s, v, tag, t.nextObject, parent, name, now, w, how);
  }

  lemma SpentAdds(s: Volume, n: Node)
    requires Spent(s)
    ensures Spent(AddObject(s, n))
  {
  }

  lemma MoveMarks(s: Volume, tag: Label, parent: Label, name: Name, now: nat, w: Era, how: Manner)
    requires Spent(s) && Move(s, tag, parent, name, now).Some? && w.base <= s.generation && Within(w, now)
    ensures Marked(s, Move(s, tag, parent, name, now).value, w, how)
  {
    hide Vacant, Below, Marked;
    MovedMarks(Tick(s), tag, parent, name, now, w, how);
    TickStarts(s, Move(s, tag, parent, name, now).value, w, how);
  }

  lemma RemoveMarks(s: Volume, tag: Label, orphan: bool, now: nat, w: Era, how: Manner)
    requires Spent(s) && Live(s, tag) && HasParent(s, tag) && w.base <= s.generation && Within(w, now)
    ensures Marked(s, DropName(TouchParent(Tick(s), tag, now), tag, orphan, now), w, how)
  {
    hide Marked;
    var t, parent := Tick(s), s.names[tag].parent.value;
    TouchMarks(t, parent, now, w, how);
    DroppedMarks(t, TouchParent(t, tag, now), tag, orphan, now, w, how);
    TickStarts(s, DropName(TouchParent(t, tag, now), tag, orphan, now), w, how);
  }

  lemma ReplacedNames(s: Volume, t: Volume, tag: Label, victim: Label, parent: Label, name: Name)
    requires Spent(s) && tag in s.names && s.names[tag].parent.Some? && s.nextObject <= t.nextObject
    requires victim in s.names && s.names[victim].parent == Some(parent) && victim != tag && t.used == s.used
    requires t.names == (s.names - {victim})[tag := s.names[tag].(parent := Some(parent), name := name)]
    ensures NamesMarked(s, t) && AgreeOutside(s.names, t.names, {tag, victim})
    ensures EntriesInside(s.names, {tag, victim}, {s.names[tag].parent.value, parent})
    ensures EntriesInside(t.names, {tag, victim}, {s.names[tag].parent.value, parent})
  {
  }

  /** Stamp, drop the replaced name, then move: as the direct operation does. */
  lemma ReplaceMarks(
    s: Volume, tag: Label, victim: Label, parent: Label, name: Name, orphan: bool, now: nat, w: Era, how: Manner)
    requires Spent(s) && Replace(s, tag, victim, parent, name, orphan, now).Some?
    requires w.base <= s.generation && Within(w, now)
    ensures Marked(s, Replace(s, tag, victim, parent, name, orphan, now).value, w, how)
  {
    var k, was := Tick(s), s.names[tag].parent.value;
    var a := Stamps(k, tag, parent, now);
    var b := DropName(a, victim, orphan, now);
    var t := MoveEntry(b, tag, parent, name);
    StampsMark(k, tag, parent, now, w, how);
    DropMarks(a, victim, orphan, now, w, how);
    DropRelists(a, victim, orphan, now, {was, parent}, w, how);
    hide ObjectsMarked, ObjectMarked, Relisted;
    ObjectsChain(k, a, b, w, how);
    SameObjects(k, b, t, w, how);
    assert t.used == k.used && b.names == k.names - {victim};
    ReplacedNames(k, t, tag, victim, parent, name);
    Relists(k, t, {tag, victim}, {was, parent}, w, how);
    TickStarts(s, t, w, how);
  }

  lemma CleanupMarks(c: Config, s: Volume, tag: Label, w: Era, how: Manner)
    requires Spent(s) && Cleanup(c, s, tag).Some?
    ensures Marked(s, Cleanup(c, s, tag).value, w, how)
  {
    var t := Cleanup(c, s, tag).value;
    assert ObjectsMarked(s, t, w, how);
    SameNames(s, t, w, how);
  }

  // ---------- the operations on contents

  /** One object of the ticked volume takes a new value. */
  lemma AmendMarks(s: Volume, l: Label, n: Node, w: Era, how: Manner)
    requires Spent(s) && Named(s, l) && Marks(NodeOf(s, l), n, w, how)
    ensures Marked(s, Put(Tick(s), s.names[l].id, n), w, how)
  {
    hide Marks;
    PutMarks(Tick(s), s.names[l].id, n, w, how);
    SameNames(Tick(s), Put(Tick(s), s.names[l].id, n), w, how);
    TickStarts(s, Put(Tick(s), s.names[l].id, n), w, how);
  }

  lemma RewriteMarks(s: Volume, l: Label, f: File, now: nat, w: Era, how: Manner)
    requires Spent(s) && LiveFile(s, l) && w.base <= s.generation && Within(w, now)
    ensures Marked(s, Rewrite(s, l, f, now), w, how)
  {
    hide Marked;
    var t, n := Tick(s), NodeOf(s, l);
    AmendMarks(s, l, n.(content := n.content.(file := f), modified := now, changed := now, generation := t.generation),
               w, how);
  }

  lemma CloneRangeMarks(
    s: Volume, source: Label, start: nat, dest: Label, target: nat, length: nat, now: nat, w: Era, how: Manner)
    requires Spent(s) && CloneRangeOf(s, source, start, dest, target, length, now).Some?
    requires w.base <= s.generation && Within(w, now)
    ensures Marked(s, CloneRangeOf(s, source, start, dest, target, length, now).value, w, how)
  {
    hide Marked, CloneDestination, Cloneable, Files.Marked;
    var n, id := NodeOf(s, source), s.names[source].id;
    if length == 0 {
      MarkedSelf(s, w, how);
    } else {
      var f := CloneDestination(n.content.file, NodeOf(s, dest).content.file, start, target, length);
      var kept := n.(content := n.content.(file := CloneSource(n.content.file, start, target, length)), changed := now);
      var t := if Files.Marked(n.content.file, start, target, length) == {} then s else Put(s, id, kept);
      MarkedSelf(s, w, how);
      PutMarks(s, id, kept, w, how);
      SameNames(s, Put(s, id, kept), w, how);
      assert Spent(t);
      RewriteMarks(t, dest, f, now, w, how);
      MarkedChain(s, t, Rewrite(t, dest, f, now), w, how);
    }
  }

  // ---------- one operation

  lemma AddStepMarks(s: Volume, op: Operation, now: nat, w: Era)
    requires Spent(s) && AddStep(s, op, now).Some? && w.base <= s.generation && Within(w, now)
    ensures Marked(s, AddStep(s, op, now).value, w, MannerOf(op))
  {
    hide Marked, Insert, AddLink, Clone;
    var how := MannerOf(op);
    match op {
      case Create(tag, parent, name, data) =>
        InsertMarks(s, Regular(Created(data), false), tag, parent, name, now, w, how);
      case Mkdir(tag, parent, name) => InsertMarks(s, Directory, tag, parent, name, now, w, how);
      case Symlink(tag, parent, name, target) =>
        InsertMarks(s, Content.Symlink(target), tag, parent, name, now, w, how);
      case Link(tag, source, parent, name) => LinkMarks(s, tag, source, parent, name, now, w, how);
      case CloneFile(tag, source, parent, name) => CloneMarks(s, tag, source, parent, name, now, w, how);
      case _ =>
    }
  }

  lemma RemoveStepMarks(c: Config, s: Volume, op: Operation, now: nat, w: Era)
    requires Spent(s) && RemoveStep(c, s, op, now).Some? && w.base <= s.generation && Within(w, now)
    ensures Marked(s, RemoveStep(c, s, op, now).value, w, MannerOf(op))
  {
    hide Marked, Move, Replace, Cleanup, DropName, Childless;
    var how := MannerOf(op);
    match op {
      case Rename(tag, parent, name) => MoveMarks(s, tag, parent, name, now, w, how);
      case RenameReplace(tag, victim, parent, name, orphan) =>
        ReplaceMarks(s, tag, victim, parent, name, orphan, now, w, how);
      case OrphanFile(tag) => RemoveMarks(s, tag, true, now, w, how);
      case CleanupOrphan(tag) => CleanupMarks(c, s, tag, w, how);
      case Unlink(tag) => RemoveMarks(s, tag, false, now, w, how);
      case UnlinkSymlink(tag) => RemoveMarks(s, tag, false, now, w, how);
      case Rmdir(tag) => RemoveMarks(s, tag, false, now, w, how);
      case _ =>
    }
  }

  lemma AttributeStepMarks(s: Volume, op: Operation, now: nat, w: Era)
    requires Spent(s) && AttributeStep(s, op, now).Some? && Within(w, now)
    ensures Marked(s, AttributeStep(s, op, now).value, w, MannerOf(op))
  {
    hide Marked;
    var how, n := MannerOf(op), NodeOf(s, op.tag);
    MarkedSelf(s, w, how);
    match op {
      case SetDataPolicy(tag, policy) =>
        AmendMarks(s, tag, n.(content := n.content.(policy := policy), changed := now), w, how);
      case SetProtection(tag, protection) =>
        AmendMarks(s, tag, n.(protection := protection, changed := now), w, how);
      case RestoreMetadata(tag, protection, created, modified, changed) =>
        AmendMarks(s, tag, n.(protection := protection, created := created, modified := modified, changed := changed),
                   w, how);
      case _ =>
    }
  }

  lemma ReserveMarks(
    s: Volume, l: Label, offset: nat, length: nat, budget: Option<Budget>, now: nat, w: Era, how: Manner)
    requires Spent(s) && Reserve(s, l, offset, length, budget, now).Some? && Within(w, now)
    ensures Marked(s, Reserve(s, l, offset, length, budget, now).value, w, how)
  {
    hide Marked, Holes;
    var n := NodeOf(s, l);
    MarkedSelf(s, w, how);
    AmendMarks(s, l, n.(content := n.content.(file := Files.Preallocate(n.content.file, offset, length)),
                        changed := now), w, how);
  }

  lemma DataStepMarks(s: Volume, op: Operation, now: nat, w: Era)
    requires Spent(s) && DataStep(s, op, now).Some? && w.base <= s.generation && Within(w, now)
    ensures Marked(s, DataStep(s, op, now).value, w, MannerOf(op))
  {
    hide Marked, Rewrite, Files.Write, Files.Truncate, CloneRangeOf, Reserve, Retired;
    var how := MannerOf(op);
    MarkedSelf(s, w, how);
    match op {
      case CloneRange(source, start, dest, target, length) =>
        CloneRangeMarks(s, source, start, dest, target, length, now, w, how);
      case Write(tag, offset, data, _) =>
        RewriteMarks(s, tag, Files.Write(NodeOf(s, tag).content.file, offset, data), now, w, how);
      case Truncate(tag, size, _) =>
        RewriteMarks(s, tag, Files.Truncate(NodeOf(s, tag).content.file, size), now, w, how);
      case Preallocate(tag, offset, length, budget) => ReserveMarks(s, tag, offset, length, budget, now, w, how);
      case _ =>
    }
  }

  // ---------- batches

  const ORDINARY := Manner(false, false, false)

  lemma ReplacingMarks(s: Volume, item: Item, deferred: bool, created: set<nat>, now: nat, w: Era)
    requires Spent(s) && item.ItemReplace? && BatchItem(s, item, deferred, created, now).Some?
    requires w.base < s.generation && Within(w, now)
    ensures Marked(s, BatchItem(s, item, deferred, created, now).value.volume, w, ORDINARY)
  {
    var tag, victim, parent := item.tag, item.victim, item.parent;
    var a := DropName(s, victim, deferred && s.names[victim].id !in created, now);
    var b := Stamps(a, tag, parent, now);
    var t := MoveEntry(b, tag, parent, item.name);
    DropMarks(s, victim, deferred && s.names[victim].id !in created, now, w, ORDINARY);
    assert Spent(a);
    StampsMark(a, tag, parent, now, w, ORDINARY);
    hide ObjectsMarked, ObjectMarked, Relisted;
    ObjectsChain(s, a, b, w, ORDINARY);
    SameObjects(s, b, t, w, ORDINARY);
    assert a.names == s.names - {victim} && b.names == a.names && t.used == s.used;
    assert AllRelisted(t, {s.names[tag].parent.value, parent}, w, ORDINARY);
    Relists(s, t, {tag, victim}, {s.names[tag].parent.value, parent}, w, ORDINARY);
    assert NamesMarked(s, t);
  }

  lemma ItemMarks(s: Volume, item: Item, deferred: bool, created: set<nat>, now: nat, w: Era)
    requires Spent(s) && BatchItem(s, item, deferred, created, now).Some? && w.base < s.generation && Within(w, now)
    ensures Marked(s, BatchItem(s, item, deferred, created, now).value.volume, w, ORDINARY)
  {
    hide Marked, Vacant;
    match item {
      case ItemCreate(tag, parent, name, data) =>
        var n := Fresh(s, Regular(Created(data), false), now);
        AddMarks(s, n, w, ORDINARY);
        SpentAdds(s, n);
        BindMarks(AddObject(s, n), tag, s.nextObject, parent, name, now, w, ORDINARY);
        MarkedChain(s, AddObject(s, n), Bind(AddObject(s, n), tag, s.nextObject, parent, name, now), w, ORDINARY);
      case ItemDelete(tag) =>
        TouchMarks(s, s.names[tag].parent.value, now, w, ORDINARY);
        DroppedMarks(s, TouchParent(s, tag, now), tag, deferred && s.names[tag].id !in created, now, w, ORDINARY);
      case ItemRename(tag, parent, name) => MovedMarks(s, tag, parent, name, now, w, ORDINARY);
      case ItemReplace(_, _, _, _) => ReplacingMarks(s, item, deferred, created, now, w);
    }
  }

  lemma {:induction false} ItemsMark(
    s: Volume, items: seq<Item>, deferred: bool, created: set<nat>, now: nat, w: Era)
    requires Spent(s) && BatchItems(s, items, deferred, created, now).Some? && w.base < s.generation && Within(w, now)
    ensures Marked(s, BatchItems(s, items, deferred, created, now).value.volume, w, ORDINARY)
    decreases |items|
  {
    hide ObjectsMarked, EntriesMarked, BatchItem;
    if items == [] {
      MarkedSelf(s, w, ORDINARY);
    } else {
      var r := BatchItem(s, items[0], deferred, created, now).value;
      ItemMarks(s, items[0], deferred, created, now, w);
      SpentStays(s, r.volume, w, ORDINARY);
      ItemsMark(r.volume, items[1..], deferred, r.created, now, w);
      MarkedChain(s, r.volume, BatchItems(s, items, deferred, created, now).value.volume, w, ORDINARY);
    }
  }

  lemma BatchMarks(s: Volume, items: seq<Item>, deferred: bool, created: set<nat>, now: nat, w: Era)
    requires Spent(s) && RunBatch(s, items, deferred, created, now).Some? && w.base <= s.generation && Within(w, now)
    ensures Marked(s, RunBatch(s, items, deferred, created, now).value.volume, w, ORDINARY)
  {
    hide Marked, BatchItems;
    ItemsMark(Tick(s), items, deferred, created, now, w);
    TickStarts(s, RunBatch(s, items, deferred, created, now).value.volume, w, ORDINARY);
  }

  lemma {:induction false} GroupsMark(s: Volume, groups: seq<Group>, created: set<nat>, now: nat, w: Era)
    requires Spent(s) && PublishGroups(s, groups, created, now).Some? && w.base <= s.generation && Within(w, now)
    ensures Marked(s, PublishGroups(s, groups, created, now).value, w, ORDINARY)
    decreases |groups|
  {
    hide ObjectsMarked, EntriesMarked, RunBatch;
    if groups == [] {
      MarkedSelf(s, w, ORDINARY);
    } else {
      var r := RunBatch(s, groups[0].items, true, created, now).value;
      BatchMarks(s, groups[0].items, true, created, now, w);
      SpentStays(s, r.volume, w, ORDINARY);
      GroupsMark(r.volume, groups[1..], r.created, now, w);
      MarkedChain(s, r.volume, PublishGroups(s, groups, created, now).value, w, ORDINARY);
    }
  }

  // ---------- every operation

  lemma DirectMarks(c: Config, s: Volume, op: Operation, now: nat, w: Era)
    requires Spent(s) && DirectStep(c, s, op, now).Some? && w.base <= s.generation && Within(w, now)
    ensures Marked(s, DirectStep(c, s, op, now).value, w, MannerOf(op))
  {
    hide Marked, RunBatch, AddStep, RemoveStep, AttributeStep, DataStep;
    if op.Batch? {
      BatchMarks(s, op.items, false, {}, now, w);
    } else if AddOperation(op) {
      AddStepMarks(s, op, now, w);
    } else if RemoveOperation(op) {
      RemoveStepMarks(c, s, op, now, w);
    } else if AttributeOperation(op) {
      AttributeStepMarks(s, op, now, w);
    } else {
      DataStepMarks(s, op, now, w);
    }
  }

  /** Every accepted operation, staged or direct, marks what it changes. */
  lemma StepMarks(c: Config, s: State, op: Operation, now: nat, w: Era)
    requires Spent(s.volume) && Step(c, s, op, now).Some? && w.base <= s.volume.generation && Within(w, now)
    ensures Marked(s.volume, Step(c, s, op, now).value.volume, w, MannerOf(op))
  {
    hide Marked, DirectStep, PublishGroups, Fsync, CanCapture, Capture, Capturable;
    MarkedSelf(s.volume, w, MannerOf(op));
    TicksMark(s.volume, w, MannerOf(op));
    if op.WindowCommit? {
      GroupsMark(s.volume, s.staged[..|s.staged|], {}, now, w);
    } else if op.Remount? {
      GroupsMark(s.volume, s.staged[..AcknowledgedCount(s.staged)], {}, now, w);
    } else if op.WindowFsync? {
      FsyncStays(s);
    } else if !WindowOperation(op) && DirectStep(c, s.volume, op, now).Some? {
      DirectMarks(c, s.volume, op, now, w);
    }
  }

  lemma FsyncStays(s: State)
    ensures Fsync(s).Some? ==> Fsync(s).value.volume == s.volume
  {
  }

  lemma TicksMark(s: Volume, w: Era, how: Manner)
    requires Spent(s)
    ensures Marked(s, Tick(s), w, how)
  {
    hide EntriesMarked, NamesMarked;
    ObjectsStay(s, Tick(s), w, how);
    SameNames(s, Tick(s), w, how);
  }

  // ---------- runs

  function MannerOfRun(ops: seq<Operation>): Manner {
    if ops == [] then ORDINARY else
      var a, b := MannerOf(ops[0]), MannerOfRun(ops[1..]);
      Manner(a.amends || b.amends, a.restores || b.restores, a.clones || b.clones)
  }

  /** The operations after an index leave marks newer than that index. */
  lemma {:induction false} RunMarks(c: Config, s: State, ops: seq<Operation>, index: nat)
    requires Spent(s.volume) && RunFrom(c, s, ops, index).Some?
    ensures Marked(s.volume, RunFrom(c, s, ops, index).value.volume,
                   Era(s.volume.generation, index, index + |ops|), MannerOfRun(ops))
    decreases |ops|
  {
    hide ObjectsMarked, EntriesMarked, Step, MannerOf;
    var w, how := Era(s.volume.generation, index, index + |ops|), MannerOfRun(ops);
    if ops == [] {
      MarkedSelf(s.volume, w, how);
    } else {
      var t, u := Step(c, s, ops[0], index + 1).value, RunFrom(c, s, ops, index).value;
      StepMarks(c, s, ops[0], index + 1, w);
      SpentStays(s.volume, t.volume, w, MannerOf(ops[0]));
      MarkedWider(s.volume, t.volume, w, w, MannerOf(ops[0]), how);
      RunMarks(c, t, ops[1..], index + 1);
      var x := Era(t.volume.generation, index + 1, index + 1 + |ops[1..]|);
      MarkedWider(t.volume, u.volume, x, w, MannerOfRun(ops[1..]), how);
      MarkedChain(s.volume, t.volume, u.volume, w, how);
    }
  }

  /** Whatever a run held, an object no newer than the volume was before it
      serves the same bytes, and a directory lists the same entries. */
  lemma GenerationTells(c: Config, s: State, ops: seq<Operation>, index: nat, id: nat)
    requires Spent(s.volume) && RunFrom(c, s, ops, index).Some?
    ensures var t := RunFrom(c, s, ops, index).value.volume;
      id in t.objects && t.objects[id].generation <= s.volume.generation ==>
        && id in s.volume.objects
        && Payload(t.objects[id]) == Payload(s.volume.objects[id])
        && KindOf(t.objects[id].content) == KindOf(s.volume.objects[id].content)
        && t.objects[id].generation == s.volume.objects[id].generation
        && forall d :: d in s.volume.names && d in t.names && t.names[d].id == id ==>
             SameEntries(s.volume.names, t.names, d)
  {
    hide RunFrom, Payload, SameEntries, NamesMarked;
    var t := RunFrom(c, s, ops, index).value.volume;
    RunMarks(c, s, ops, index);
    var w, how := Era(s.volume.generation, index, index + |ops|), MannerOfRun(ops);
    if id in t.objects { assert ObjectMarked(s.volume, t, id, w, how); }
  }

  /** Times are ordered and not in the future. */
  ghost predicate InOrder(s: Volume, time: nat) {
    forall id :: id in s.objects ==>
      s.objects[id].created <= s.objects[id].changed && s.objects[id].modified <= s.objects[id].changed <= time
  }

  lemma MarkedInOrder(s: Volume, t: Volume, base: nat, now: nat, how: Manner)
    requires now > 0 && InOrder(s, now - 1) && Marked(s, t, Era(base, now - 1, now), how)
    requires !how.restores && !how.clones
    ensures InOrder(t, now)
  {
    hide EntriesMarked, NamesMarked, Payload, Policy;
    forall id | id in t.objects
      ensures t.objects[id].created <= t.objects[id].changed && t.objects[id].modified <= t.objects[id].changed <= now
    {
      assert ObjectMarked(s, t, id, Era(base, now - 1, now), how);
    }
  }

  lemma CloneInOrder(s: Volume, tag: Label, source: Label, parent: Label, name: Name, now: nat)
    requires now > 0 && InOrder(s, now - 1) && Clone(s, tag, source, parent, name, now).Some?
    ensures InOrder(Clone(s, tag, source, parent, name, now).value, now)
  {
    hide Vacant;
  }

  lemma StepInOrder(c: Config, s: State, op: Operation, now: nat)
    requires now > 0 && Spent(s.volume) && InOrder(s.volume, now - 1) && Step(c, s, op, now).Some?
    requires !op.RestoreMetadata?
    ensures InOrder(Step(c, s, op, now).value.volume, now)
  {
    hide Marked, InOrder, Clone;
    if op.CloneFile? {
      CloneInOrder(s.volume, op.tag, op.source, op.parent, op.name, now);
    } else {
      hide Step;
      StepMarks(c, s, op, now, Era(s.volume.generation, now - 1, now));
      MarkedInOrder(s.volume, Step(c, s, op, now).value.volume, s.volume.generation, now, MannerOf(op));
    }
  }

  lemma {:induction false} RunInOrder(c: Config, s: State, ops: seq<Operation>, index: nat)
    requires Spent(s.volume) && InOrder(s.volume, index) && RunFrom(c, s, ops, index).Some?
    requires !MannerOfRun(ops).restores
    ensures InOrder(RunFrom(c, s, ops, index).value.volume, index + |ops|)
    decreases |ops|
  {
    hide Step, InOrder, ObjectsMarked, EntriesMarked;
    if ops != [] {
      var t, w := Step(c, s, ops[0], index + 1).value, Era(s.volume.generation, index, index + 1);
      StepInOrder(c, s, ops[0], index + 1);
      StepMarks(c, s, ops[0], index + 1, w);
      SpentStays(s.volume, t.volume, w, MannerOf(ops[0]));
      RunInOrder(c, t, ops[1..], index + 1);
    }
  }

  /** In every run without a restoration, times are ordered and never run ahead. */
  lemma TimesAreOrdered(c: Config, ops: seq<Operation>)
    requires RunFrom(c, Initial(), ops, 0).Some? && !MannerOfRun(ops).restores
    ensures InOrder(RunFrom(c, Initial(), ops, 0).value.volume, |ops|)
  {
    hide RunFrom, MannerOfRun;
    RunInOrder(c, Initial(), ops, 0);
  }

  /** Without a restoration the change time tells exactly whether a run changed
      an object, and the creation time whether the run made it. */
  lemma ChangeTimeTells(c: Config, s: State, ops: seq<Operation>, index: nat, id: nat)
    requires Spent(s.volume) && InOrder(s.volume, index) && RunFrom(c, s, ops, index).Some?
    requires !MannerOfRun(ops).restores
    ensures var t := RunFrom(c, s, ops, index).value.volume;
      id in t.objects ==>
        && (id in s.volume.objects <==> t.objects[id].created <= index)
        && (t.objects[id].changed <= index <==> id in s.volume.objects && t.objects[id] == s.volume.objects[id])
        && (t.objects[id].modified <= index && id in s.volume.objects ==>
              Payload(t.objects[id]) == Payload(s.volume.objects[id]))
  {
    hide RunFrom, Payload, Policy, NamesMarked, EntriesMarked;
    var t := RunFrom(c, s, ops, index).value.volume;
    RunMarks(c, s, ops, index);
    var w, how := Era(s.volume.generation, index, index + |ops|), MannerOfRun(ops);
    if id in t.objects { assert ObjectMarked(s.volume, t, id, w, how); }
  }

  /** A restoration can hide a change from every time: the restriction is needed. */
  lemma RestoreHides(s: Volume, l: Label)
    requires Live(s, l)
    ensures var n, id := NodeOf(s, l), s.names[l].id;
      var r := Restore(s, l, n.protection + 1, n.created, n.modified, n.changed);
      && r.Some? && id in r.value.objects && r.value.objects[id] != n
      && r.value.objects[id].created == n.created && r.value.objects[id].modified == n.modified
      && r.value.objects[id].changed == n.changed
  {
  }
}
