/** A batch member does what its direct operation does, all under one generation. */
module OracleMembers {
  import opened Basics
  import opened Scenario
  import opened Namespace
  import opened Files
  import opened Oracle
  import opened OracleInvariant
  import opened OracleSteps
  import opened OracleHarm

  /** The direct operation of a member: a deferred deletion of the last link of a file
      that the window did not make is an orphaning, and so is a deferred replacement. */
  function Direct(s: Volume, item: Item, deferred: bool, created: set<nat>): Operation {
    match item
    case ItemCreate(tag, parent, name, data) => Create(tag, parent, name, data)
    case ItemDelete(tag) =>
      if deferred && Named(s, tag) && NodeOf(s, tag).links <= 1 && s.names[tag].id !in created then OrphanFile(tag)
      else Unlink(tag)
    case ItemRename(tag, parent, name) => Rename(tag, parent, name)
    case ItemReplace(tag, victim, parent, name) =>
      RenameReplace(tag, victim, parent, name, deferred && Named(s, victim) && s.names[victim].id !in created)
  }

  /** A batch does not look at the victim's kind, the direct operation does. */
  predicate FileVictim(s: Volume, item: Item) { item.ItemReplace? ==> LiveFile(s, item.victim) }

  // ---------- one member

  lemma CreationIsDirect(c: Config, s: Volume, item: Item, deferred: bool, created: set<nat>, now: nat)
    requires item.ItemCreate?
    ensures var r := BatchItem(Tick(s), item, deferred, created, now);
      var d := DirectStep(c, s, Direct(s, item, deferred, created), now);
      (r.Some? <==> d.Some?) && (r.Some? ==> r.value.volume == d.value)
  {
    hide Vacant;
  }

  lemma DeletionIsDirect(c: Config, s: Volume, item: Item, deferred: bool, created: set<nat>, now: nat)
    requires item.ItemDelete? && LinksCounted(s)
    ensures var r := BatchItem(Tick(s), item, deferred, created, now);
      var d := DirectStep(c, s, Direct(s, item, deferred, created), now);
      (r.Some? <==> d.Some?) && (r.Some? ==> r.value.volume == d.value)
  {
    if Named(s, item.tag) { assert Counted(s, s.names[item.tag].id); }
  }

  lemma RenamingIsDirect(c: Config, s: Volume, item: Item, deferred: bool, created: set<nat>, now: nat)
    requires item.ItemRename?
    ensures var r := BatchItem(Tick(s), item, deferred, created, now);
      var d := DirectStep(c, s, Direct(s, item, deferred, created), now);
      && (r.Some? <==> d.Some? && LiveFile(s, item.tag)) && (r.Some? ==> r.value.volume == d.value)
  {
    hide Vacant, Below;
  }

  lemma DropAfterTouch(s: Volume, l: Label, victim: Label, orphan: bool, now: nat)
    requires Named(s, l) && Named(s, victim) && l != victim && s.names[l].id != s.names[victim].id
    ensures var t := DropName(s, victim, orphan, now);
      Named(t, l) && t.names[l] == s.names[l] && DropName(Touch(s, l, now), victim, orphan, now) == Touch(t, l, now)
  {
    var t := DropName(s, victim, orphan, now);
    assert DropName(Touch(s, l, now), victim, orphan, now).objects == Touch(t, l, now).objects;
  }

  lemma DropAfterChange(s: Volume, l: Label, victim: Label, orphan: bool, now: nat)
    requires Named(s, l) && Named(s, victim) && l != victim && s.names[l].id != s.names[victim].id
    ensures var t, id := DropName(s, victim, orphan, now), s.names[l].id;
      Named(t, l) && t.names[l] == s.names[l] && DropName(Change(s, id, now), victim, orphan, now) == Change(t, id, now)
  {
    var t, id := DropName(s, victim, orphan, now), s.names[l].id;
    assert DropName(Change(s, id, now), victim, orphan, now).objects == Change(t, id, now).objects;
  }

  /** The stamps of a move touch neither the victim's object nor its name. */
  lemma DropsCommute(s: Volume, tag: Label, victim: Label, parent: Label, orphan: bool, now: nat)
    requires Named(s, tag) && HasParent(s, tag) && Named(s, parent) && Named(s, victim)
    requires victim != tag && victim != parent && s.names[tag].parent != Some(victim)
    requires s.names[victim].id != s.names[tag].id && s.names[victim].id != s.names[parent].id
    requires s.names[victim].id != s.names[s.names[tag].parent.value].id
    ensures var t := DropName(s, victim, orphan, now);
      && Named(t, tag) && HasParent(t, tag) && Named(t, parent)
      && Touch(TouchParent(Change(t, t.names[tag].id, now), tag, now), parent, now) ==
         DropName(Touch(TouchParent(Change(s, s.names[tag].id, now), tag, now), parent, now), victim, orphan, now)
  {
    var home := s.names[tag].parent.value;
    var a := Change(s, s.names[tag].id, now);
    var b := Touch(a, home, now);
    hide DropName;
    DropAfterChange(s, tag, victim, orphan, now);
    DropAfterTouch(s, home, victim, orphan, now);
    DropAfterTouch(s, parent, victim, orphan, now);
    DropAfterTouch(a, home, victim, orphan, now);
    DropAfterTouch(b, parent, victim, orphan, now);
  }

  /** On a sound volume a file and a directory are different objects. */
  lemma VictimIsApart(s: Volume, tag: Label, victim: Label, parent: Label)
    requires NamesBound(s) && LiveFile(s, tag) && LiveFile(s, victim) && IsDirectory(s, parent)
    ensures HasParent(s, tag) && victim != parent && s.names[tag].parent != Some(victim)
    ensures s.names[victim].id != s.names[parent].id && s.names[victim].id != s.names[s.names[tag].parent.value].id
  {
    assert Bound(s, tag);
  }

  /** What a batch replacement of a file comes to. */
  lemma ReplacementShape(s: Volume, item: Item, deferred: bool, created: set<nat>, now: nat)
    requires item.ItemReplace? && NamesBound(s) && LiveFile(s, item.victim)
    ensures var orphan := deferred && s.names[item.victim].id !in created;
      var r := BatchItem(Tick(s), item, deferred, created, now);
      var d := Replace(s, item.tag, item.victim, item.parent, item.name, orphan, now);
      (r.Some? <==> d.Some?) && (r.Some? ==> r.value.volume == d.value)
  {
    hide NamesBound, DropName, Touch, Change;
    if LiveFile(s, item.tag) && IsDirectory(s, item.parent) {
      VictimIsApart(s, item.tag, item.victim, item.parent);
      if Replaceable(s, item.tag, item.victim, item.parent, item.name) {
        DropsCommute(Tick(s), item.tag, item.victim, item.parent, deferred && s.names[item.victim].id !in created, now);
      }
    }
  }

  lemma ReplacementIsDirect(c: Config, s: Volume, item: Item, deferred: bool, created: set<nat>, now: nat)
    requires item.ItemReplace? && NamesBound(s)
    ensures var r := BatchItem(Tick(s), item, deferred, created, now);
      var d := DirectStep(c, s, Direct(s, item, deferred, created), now);
      (r.Some? && FileVictim(s, item) <==> d.Some?) && (d.Some? ==> r.value.volume == d.value)
  {
    if LiveFile(s, item.victim) { ReplacementShape(s, item, deferred, created, now); }
    hide NamesBound, BatchItem, DropName, Touch, Change;
  }

  /** Every member is its direct operation; a batch also replaces what is no file, and
      renames only files. */
  lemma MemberIsDirect(c: Config, s: Volume, item: Item, deferred: bool, created: set<nat>, now: nat)
    requires Structure(s)
    ensures var r := BatchItem(Tick(s), item, deferred, created, now);
      var d := DirectStep(c, s, Direct(s, item, deferred, created), now);
      && (r.Some? && FileVictim(s, item) <==> d.Some? && (item.ItemRename? ==> LiveFile(s, item.tag)))
      && (r.Some? && FileVictim(s, item) ==> r.value.volume == d.value)
  {
    assert NamesBound(s) && LinksCounted(s);
    hide Structure, NamesBound, LinksCounted, BatchItem, DirectStep, Direct;
    if item.ItemCreate? {
      CreationIsDirect(c, s, item, deferred, created, now);
    } else if item.ItemDelete? {
      DeletionIsDirect(c, s, item, deferred, created, now);
    } else if item.ItemRename? {
      RenamingIsDirect(c, s, item, deferred, created, now);
    } else {
      ReplacementIsDirect(c, s, item, deferred, created, now);
    }
  }

  // ---------- whole batches

  /** The members as direct operations, each taking its generation back. */
  ghost function AtOnce(
    c: Config, s: Volume, items: seq<Item>, deferred: bool, created: set<nat>, now: nat): Option<Progress>
    decreases |items|
  {
    if items == [] then Some(Progress(s, created))
    else if items[0].ItemRename? && !LiveFile(s, items[0].tag) then None
    else
      var r := DirectStep(c, s, Direct(s, items[0], deferred, created), now);
      if r.None? then None else
        AtOnce(c, r.value.(generation := s.generation), items[1..], deferred,
               if items[0].ItemCreate? then created + {s.nextObject} else created, now)
  }

  /** Every replaced label names a file where it is replaced. */
  ghost predicate FileVictims(s: Volume, items: seq<Item>, deferred: bool, created: set<nat>, now: nat)
    decreases |items|
  {
    items != [] ==>
      && FileVictim(s, items[0])
      && var r := BatchItem(s, items[0], deferred, created, now);
         r.Some? ==> FileVictims(r.value.volume, items[1..], deferred, r.value.created, now)
  }

  lemma MemberKeepsGeneration(s: Volume, item: Item, deferred: bool, created: set<nat>, now: nat)
    requires BatchItem(s, item, deferred, created, now).Some?
    ensures var r := BatchItem(s, item, deferred, created, now).value;
      && r.volume.generation == s.generation
      && r.created == if item.ItemCreate? then created + {s.nextObject} else created
  {
    hide Vacant;
  }

  lemma TickStructure(s: Volume)
    ensures Structure(Tick(s)) <==> Structure(s)
  {
    if Structure(s) { QuietKeeps(s, Tick(s)); }
    if Structure(Tick(s)) { QuietKeeps(Tick(s), s); }
  }

  /** A batch is its members' direct operations under one generation, exactly when
      every label it replaces names a file. */
  lemma {:induction false} MembersAreDirect(
    c: Config, s: Volume, items: seq<Item>, deferred: bool, created: set<nat>, now: nat)
    requires Good(Tick(s))
    ensures var r, d := BatchItems(Tick(s), items, deferred, created, now), AtOnce(c, s, items, deferred, created, now);
      && (d.Some? <==> r.Some? && FileVictims(Tick(s), items, deferred, created, now))
      && (d.Some? ==> r == Some(Progress(Tick(d.value.volume), d.value.created)))
    decreases |items|
  {
    TickStructure(s);
    hide Structure, AllSound, BatchItem, DirectStep, Direct;
    if items != [] {
      MemberIsDirect(c, s, items[0], deferred, created, now);
      var r := BatchItem(Tick(s), items[0], deferred, created, now);
      if r.Some? && FileVictim(s, items[0]) {
        MemberKeepsGeneration(Tick(s), items[0], deferred, created, now);
        BatchItemKeeps(Tick(s), items[0], deferred, created, now);
        var next := r.value.volume.(generation := s.generation);
        assert Tick(next) == r.value.volume;
        MembersAreDirect(c, next, items[1..], deferred, r.value.created, now);
      }
    }
  }

  /** So an accepted batch is its direct operations, then one generation. */
  lemma BatchIsDirect(c: Config, s: Volume, items: seq<Item>, deferred: bool, created: set<nat>, now: nat)
    requires Good(s) && items != []
    ensures var r, d := RunBatch(s, items, deferred, created, now), AtOnce(c, s, items, deferred, created, now);
      && (d.Some? <==> r.Some? && FileVictims(Tick(s), items, deferred, created, now))
      && (d.Some? ==> r == Some(Progress(Tick(d.value.volume), d.value.created)))
  {
    hide Good, BatchItems, AtOnce, FileVictims;
    TickKeeps(s);
    MembersAreDirect(c, s, items, deferred, created, now);
  }

  // ---------- what a created file holds

  /** A file made by a batch holds its bytes, in written blocks of its own. */
  lemma CreationHolds(s: Volume, item: Item, deferred: bool, created: set<nat>, now: nat)
    requires item.ItemCreate? && BatchItem(s, item, deferred, created, now).Some? && s.nextObject !in s.objects
    ensures var t := BatchItem(s, item, deferred, created, now).value.volume;
      && LiveFileOf(t, item.tag).Some? && LiveFileOf(t, item.tag).value.data == item.data
      && LiveFileOf(t, item.tag).value.shared == {}
      && forall b: nat ::
           At(LiveFileOf(t, item.tag).value.blocks, b) == if b * 4096 < |item.data| then Some(false) else None
  {
    hide Vacant;
    var f := Created(item.data);
    forall b: nat ensures At(f.blocks, b) == if b * 4096 < |item.data| then Some(false) else None {
      assert b < Blocks(|item.data|) <==> b * 4096 < |item.data|;
    }
  }

  function LiveFileOf(s: Volume, l: Label): Option<File> {
    if Named(s, l) && NodeOf(s, l).content.Regular? then Some(NodeOf(s, l).content.file) else None
  }
}
