/** Which batch replacements harm the volume, and why the harm never goes away. */
module OracleHarm {
  import opened Basics
  import opened Scenario
  import opened Namespace
  import opened Files
  import opened Oracle
  import opened OracleInvariant
  import opened OracleSteps

  // ---------- lasting harm

  /** The parent of k was unbound under it. */
  predicate CutOff(s: Volume, k: Label) {
    && k in s.names && k in s.used && k != ROOT && s.names[k].parent.Some?
    && s.names[k].parent.value !in s.names && s.names[k].parent.value in s.used
  }

  predicate Unnamed(s: Volume, id: nat) { forall k :: k in s.names ==> s.names[k].id != id }

  /** The reserved directory holds a directory or a symlink. */
  predicate Misfiled(s: Volume, l: Label) {
    && l in s.orphaned && l in s.used && l !in s.names
    && s.orphaned[l] in s.objects && s.orphaned[l] < s.nextObject
    && !s.objects[s.orphaned[l]].content.Regular? && Unnamed(s, s.orphaned[l])
  }

  ghost predicate Broken(s: Volume) {
    (exists k :: CutOff(s, k)) || (exists l :: Misfiled(s, l))
  }

  lemma BrokenIsUnsound(s: Volume)
    requires Broken(s)
    ensures !Structure(s)
  {
    if k :| CutOff(s, k) {
      assert !Bound(s, k);
    } else {
      var l :| Misfiled(s, l);
      assert !Registered(s, l);
    }
  }

  /** What an accepted operation leaves alone: a name under an unbound parent, an
      unnamed object that is no file, and the registration of one. */
  ghost predicate Leaves(s: Volume, t: Volume) {
    && s.used <= t.used && s.nextObject <= t.nextObject
    && (forall l :: l in t.names && l !in s.names ==> l !in s.used)
    && (forall k :: CutOff(s, k) ==> k in t.names && t.names[k] == s.names[k])
    && (forall l :: Misfiled(s, l) ==>
        && l in t.orphaned && t.orphaned[l] == s.orphaned[l] && Unnamed(t, s.orphaned[l])
        && s.orphaned[l] in t.objects && t.objects[s.orphaned[l]] == s.objects[s.orphaned[l]])
  }

  lemma BrokenStays(s: Volume, t: Volume)
    requires Broken(s) && Leaves(s, t)
    ensures Broken(t)
  {
    if k :| CutOff(s, k) {
      assert CutOff(t, k);
    } else {
      var l :| Misfiled(s, l);
      assert Misfiled(t, l);
    }
  }

  // ---------- every accepted operation leaves it alone

  lemma ContentLeaves(s: Volume, op: Operation, now: nat)
    requires ContentStep(s, op, now).Some?
    ensures Leaves(s, ContentStep(s, op, now).value)
  {
    hide Consistent, Files.Write, Files.Truncate, Files.Preallocate, Retired, Holes, Marked, CloneDestination,
      CloneSource;
  }

  lemma AddLeaves(s: Volume, op: Operation, now: nat)
    requires AddStep(s, op, now).Some?
    ensures Leaves(s, AddStep(s, op, now).value)
  {
  }

  lemma MoveLeaves(s: Volume, op: Operation, now: nat)
    requires MoveStep(s, op, now).Some?
    ensures Leaves(s, MoveStep(s, op, now).value)
  {
  }

  lemma NameLeaves(s: Volume, tag: Label, now: nat)
    requires Remove(s, tag, now).Some?
    ensures Leaves(s, Remove(s, tag, now).value)
  {
  }

  lemma UnlinkLeaves(s: Volume, op: Operation, now: nat)
    requires UnlinkStep(s, op, now).Some?
    ensures Leaves(s, UnlinkStep(s, op, now).value)
  {
    hide Remove, Leaves, Childless;
    NameLeaves(s, op.tag, now);
  }

  lemma OrphanLeaves(c: Config, s: Volume, op: Operation, now: nat)
    requires OrphanStep(c, s, op, now).Some?
    ensures Leaves(s, OrphanStep(c, s, op, now).value)
  {
  }

  lemma RemoveLeaves(c: Config, s: Volume, op: Operation, now: nat)
    requires RemoveStep(c, s, op, now).Some?
    ensures Leaves(s, RemoveStep(c, s, op, now).value)
  {
    hide MoveStep, OrphanStep, UnlinkStep, Leaves;
    if op.Rename? || op.RenameReplace? {
      MoveLeaves(s, op, now);
    } else if op.OrphanFile? || op.CleanupOrphan? {
      OrphanLeaves(c, s, op, now);
    } else {
      UnlinkLeaves(s, op, now);
    }
  }

  lemma CreationLeaves(s: Volume, item: Item, deferred: bool, created: set<nat>, now: nat)
    requires item.ItemCreate? && BatchItem(s, item, deferred, created, now).Some?
    ensures Leaves(s, BatchItem(s, item, deferred, created, now).value.volume)
  {
    hide Vacant;
  }

  lemma DeletionLeaves(s: Volume, item: Item, deferred: bool, created: set<nat>, now: nat)
    requires item.ItemDelete? && BatchItem(s, item, deferred, created, now).Some?
    ensures Leaves(s, BatchItem(s, item, deferred, created, now).value.volume)
  {
  }

  lemma RenamingLeaves(s: Volume, item: Item, deferred: bool, created: set<nat>, now: nat)
    requires item.ItemRename? && BatchItem(s, item, deferred, created, now).Some?
    ensures Leaves(s, BatchItem(s, item, deferred, created, now).value.volume)
  {
    hide Vacant;
  }

  lemma ReplacementLeaves(s: Volume, item: Item, deferred: bool, created: set<nat>, now: nat)
    requires item.ItemReplace? && BatchItem(s, item, deferred, created, now).Some?
    ensures Leaves(s, BatchItem(s, item, deferred, created, now).value.volume)
  {
  }

  lemma ItemLeaves(s: Volume, item: Item, deferred: bool, created: set<nat>, now: nat)
    requires BatchItem(s, item, deferred, created, now).Some?
    ensures Leaves(s, BatchItem(s, item, deferred, created, now).value.volume)
  {
    hide BatchItem, Leaves;
    if item.ItemCreate? { CreationLeaves(s, item, deferred, created, now); }
    else if item.ItemDelete? { DeletionLeaves(s, item, deferred, created, now); }
    else if item.ItemRename? { RenamingLeaves(s, item, deferred, created, now); }
    else { ReplacementLeaves(s, item, deferred, created, now); }
  }

  // ---------- a harmful member breaks the volume

  lemma CutsOff(s: Volume, item: Item, deferred: bool, created: set<nat>, now: nat, k: Label)
    requires item.ItemReplace? && BatchItem(s, item, deferred, created, now).Some? && LabelsSpent(s)
    requires k in s.names && s.names[k].parent == Some(item.victim) && k != item.victim && k != ROOT
    ensures CutOff(BatchItem(s, item, deferred, created, now).value.volume, k)
  {
  }

  lemma Misfiles(s: Volume, item: Item, created: set<nat>, now: nat)
    requires item.ItemReplace? && BatchItem(s, item, true, created, now).Some? && LinksCounted(s) && LabelsSpent(s)
    requires s.names[item.victim].id !in created && !NodeOf(s, item.victim).content.Regular?
    ensures Misfiled(BatchItem(s, item, true, created, now).value.volume, item.victim)
  {
    var id, t := s.names[item.victim].id, BatchItem(s, item, true, created, now).value.volume;
    assert Counted(s, id);
    forall k | k in t.names ensures t.names[k].id != id { SoleLink(s, item.victim, k); }
  }

  lemma HarmBreaks(s: Volume, item: Item, deferred: bool, created: set<nat>, now: nat)
    requires Structure(s) && CreatedFiles(s, created)
    requires BatchItem(s, item, deferred, created, now).Some? && !Harmless(s, item, deferred)
    ensures Broken(BatchItem(s, item, deferred, created, now).value.volume)
  {
    hide BatchItem;
    if deferred {
      Misfiles(s, item, created, now);
    } else {
      var k :| k in s.names && s.names[k].parent == Some(item.victim);
      NoSelfParent(s, k);
      CutsOff(s, item, deferred, created, now, k);
    }
  }

  /** The oracle does not look at the kind of a batch victim. From a sound volume
      an accepted member keeps the structure exactly when it replaces nothing, or
      its victim is a file, or the victim is deleted at once and has no children. */
  lemma BatchItemExactly(s: Volume, item: Item, deferred: bool, created: set<nat>, now: nat)
    requires Good(s) && CreatedFiles(s, created) && BatchItem(s, item, deferred, created, now).Some?
    ensures Structure(BatchItem(s, item, deferred, created, now).value.volume) <==> Harmless(s, item, deferred)
  {
    hide BatchItem, Broken, Structure, Harmless, CreatedFiles;
    if Harmless(s, item, deferred) {
      BatchItemKeeps(s, item, deferred, created, now);
    } else {
      HarmBreaks(s, item, deferred, created, now);
      BrokenIsUnsound(BatchItem(s, item, deferred, created, now).value.volume);
    }
  }

  lemma CreatedStayFiles(s: Volume, item: Item, deferred: bool, created: set<nat>, now: nat)
    requires CreatedFiles(s, created) && BatchItem(s, item, deferred, created, now).Some?
    ensures var r := BatchItem(s, item, deferred, created, now).value; CreatedFiles(r.volume, r.created)
  {
  }

  // ---------- batches and published groups

  /** No member of the batch is harmful when its turn comes. */
  ghost predicate HarmlessItems(s: Volume, items: seq<Item>, deferred: bool, created: set<nat>, now: nat)
    decreases |items|
  {
    items != [] ==>
      && Harmless(s, items[0], deferred)
      && var r := BatchItem(s, items[0], deferred, created, now);
         r.Some? ==> HarmlessItems(r.value.volume, items[1..], deferred, r.value.created, now)
  }

  ghost predicate HarmlessGroups(s: Volume, groups: seq<Group>, created: set<nat>, now: nat)
    decreases |groups|
  {
    groups != [] ==>
      && HarmlessItems(Tick(s), groups[0].items, true, created, now)
      && var r := RunBatch(s, groups[0].items, true, created, now);
         r.Some? ==> HarmlessGroups(r.value.volume, groups[1..], r.value.created, now)
  }

  lemma {:induction false} ItemsStayBroken(s: Volume, items: seq<Item>, deferred: bool, created: set<nat>, now: nat)
    requires Broken(s) && BatchItems(s, items, deferred, created, now).Some?
    ensures Broken(BatchItems(s, items, deferred, created, now).value.volume)
    decreases |items|
  {
    hide BatchItem, Broken, Leaves;
    if items != [] {
      var r := BatchItem(s, items[0], deferred, created, now).value;
      ItemLeaves(s, items[0], deferred, created, now);
      BrokenStays(s, r.volume);
      ItemsStayBroken(r.volume, items[1..], deferred, r.created, now);
    }
  }

  lemma TickStaysBroken(s: Volume)
    requires Broken(s)
    ensures Broken(Tick(s))
  {
    BrokenStays(s, Tick(s));
  }

  lemma {:induction false} GroupsStayBroken(s: Volume, groups: seq<Group>, created: set<nat>, now: nat)
    requires Broken(s) && PublishGroups(s, groups, created, now).Some?
    ensures Broken(PublishGroups(s, groups, created, now).value)
    decreases |groups|
  {
    hide Broken, BatchItems;
    if groups != [] {
      TickStaysBroken(s);
      ItemsStayBroken(Tick(s), groups[0].items, true, created, now);
      var r := RunBatch(s, groups[0].items, true, created, now).value;
      GroupsStayBroken(r.volume, groups[1..], r.created, now);
    }
  }

  /** An accepted batch keeps a sound volume sound when no member is harmful, and
      breaks it for good otherwise. */
  lemma {:induction false} ItemsExactly(s: Volume, items: seq<Item>, deferred: bool, created: set<nat>, now: nat)
    requires Good(s) && CreatedFiles(s, created) && BatchItems(s, items, deferred, created, now).Some?
    ensures var r := BatchItems(s, items, deferred, created, now).value;
      if HarmlessItems(s, items, deferred, created, now) then Kept(s, r.volume) && CreatedFiles(r.volume, r.created)
      else Broken(r.volume)
    decreases |items|
  {
    hide BatchItem, Broken, Structure, AllSound, Persists, Harmless, CreatedFiles;
    if items == [] {
      SelfKept(s);
    } else {
      var r := BatchItem(s, items[0], deferred, created, now).value;
      CreatedStayFiles(s, items[0], deferred, created, now);
      if Harmless(s, items[0], deferred) {
        BatchItemKeeps(s, items[0], deferred, created, now);
        ItemsExactly(r.volume, items[1..], deferred, r.created, now);
        if HarmlessItems(s, items, deferred, created, now) {
          SpentKeys(s);
          KeptTwice(s, r.volume, BatchItems(s, items, deferred, created, now).value.volume);
        }
      } else {
        HarmBreaks(s, items[0], deferred, created, now);
        ItemsStayBroken(r.volume, items[1..], deferred, r.created, now);
      }
    }
  }

  lemma SpentKeys(s: Volume)
    requires Structure(s)
    ensures s.names.Keys <= s.used
  {
  }

  lemma BatchExactly(s: Volume, items: seq<Item>, deferred: bool, created: set<nat>, now: nat)
    requires Good(s) && CreatedFiles(s, created) && RunBatch(s, items, deferred, created, now).Some?
    ensures var r := RunBatch(s, items, deferred, created, now).value;
      if HarmlessItems(Tick(s), items, deferred, created, now)
      then Kept(s, r.volume) && CreatedFiles(r.volume, r.created)
      else Broken(r.volume)
  {
    hide BatchItems, HarmlessItems, Broken, Structure, AllSound, Persists;
    TickKeeps(s);
    ItemsExactly(Tick(s), items, deferred, created, now);
    SpentKeys(s);
    if HarmlessItems(Tick(s), items, deferred, created, now) {
      KeptTwice(s, Tick(s), RunBatch(s, items, deferred, created, now).value.volume);
    }
  }

  lemma {:induction false} GroupsExactly(s: Volume, groups: seq<Group>, created: set<nat>, now: nat)
    requires Good(s) && CreatedFiles(s, created) && PublishGroups(s, groups, created, now).Some?
    ensures var t := PublishGroups(s, groups, created, now).value;
      if HarmlessGroups(s, groups, created, now) then Kept(s, t) else Broken(t)
    decreases |groups|
  {
    hide RunBatch, HarmlessItems, Broken, Structure, AllSound, Persists, CreatedFiles;
    if groups == [] {
      SelfKept(s);
    } else {
      BatchExactly(s, groups[0].items, true, created, now);
      var r := RunBatch(s, groups[0].items, true, created, now).value;
      if HarmlessItems(Tick(s), groups[0].items, true, created, now) {
        GroupsExactly(r.volume, groups[1..], r.created, now);
        SpentKeys(s);
        if HarmlessGroups(s, groups, created, now) {
          KeptTwice(s, r.volume, PublishGroups(s, groups, created, now).value);
        }
      } else {
        GroupsStayBroken(r.volume, groups[1..], r.created, now);
      }
    }
  }

  // ---------- members whose victims are called files

  lemma {:induction false} TypedItemsAreHarmless(
    s: Volume, items: seq<Item>, deferred: bool, created: set<nat>, now: nat, kinds: map<Label, Kind>)
    requires Good(s) && Typed(s, kinds) && ItemsTyped(items, kinds)
    ensures HarmlessItems(s, items, deferred, created, now)
    decreases |items|
  {
    hide BatchItem, Structure, AllSound;
    if items != [] {
      assert ItemTyped(items[0], kinds);
      var r := BatchItem(s, items[0], deferred, created, now);
      if r.Some? {
        TypedBatchItem(s, items[0], deferred, created, now, kinds);
        TypedItemsAreHarmless(r.value.volume, items[1..], deferred, r.value.created, now, kinds);
      }
    }
  }

  lemma {:induction false} TypedGroupsAreHarmless(
    s: Volume, groups: seq<Group>, created: set<nat>, now: nat, kinds: map<Label, Kind>)
    requires Good(s) && Typed(s, kinds) && forall g :: g in groups ==> ItemsTyped(g.items, kinds)
    ensures HarmlessGroups(s, groups, created, now)
    decreases |groups|
  {
    hide HarmlessItems, BatchItems, Structure, AllSound, ItemsTyped;
    if groups != [] {
      var items := groups[0].items;
      TickKeeps(s);
      TypedItemsAreHarmless(Tick(s), items, true, created, now, kinds);
      var r := RunBatch(s, items, true, created, now);
      if r.Some? {
        TypedBatch(s, items, true, created, now, kinds);
        TypedGroupsAreHarmless(r.value.volume, groups[1..], r.value.created, now, kinds);
      }
    }
  }
}
