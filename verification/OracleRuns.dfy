/** Safety of whole runs of the oracle: the namespace, the captured views and
    the acknowledged window prefix. */
module OracleRuns {
  import opened Basics
  import opened Scenario
  import opened Namespace
  import opened Ordering
  import opened Files
  import opened Oracle
  import opened OracleInvariant
  import opened OracleSteps
  import opened OracleHarm

  // ---------- captured views

  /** Nothing in a view is newer than the view, and its paths strictly ascend. */
  ghost predicate ViewSound(v: View) {
    && v.root.generation <= v.generation
    && (forall e :: e in v.entries ==> e.metadata.generation <= v.generation)
    && (forall i, j :: 0 <= i < j < |v.entries| ==> PathBefore(v.entries[i].path, v.entries[j].path))
  }

  ghost predicate Registers(s: State, l: Label)
    requires l in s.views
  {
    s.views[l].Some? ==>
      && l in s.snapshotIds && s.views[l].value.id == s.snapshotIds[l]
      && s.views[l].value.generation < s.volume.generation && ViewSound(s.views[l].value)
  }

  /** Identities are positive, bounded by the number ever issued, and distinct. */
  ghost predicate Issued(ids: map<Label, nat>) {
    && (forall l :: l in ids ==> 1 <= ids[l] <= |ids|)
    && (forall k, l :: k in ids && l in ids && k != l ==> ids[k] != ids[l])
  }

  /** A later identity was captured at a later generation. */
  ghost predicate Chronological(s: State) {
    forall k, l :: k in s.views && l in s.views && s.views[k].Some? && s.views[l].Some? ==>
      s.views[k].value.id < s.views[l].value.id ==> s.views[k].value.generation < s.views[l].value.generation
  }

  ghost predicate ViewsSound(s: State) {
    && (forall l :: l in s.views ==> Registers(s, l))
    && Issued(s.snapshotIds) && Chronological(s)
    && s.handles <= OpenViews(s)
    && s.views.Keys == s.snapshotIds.Keys
  }

  // ---------- the window

  /** Acknowledged groups come before the others. */
  ghost predicate AcknowledgedFirst(groups: seq<Group>) {
    forall i, j :: 0 <= i < j < |groups| && groups[j].acknowledged ==> groups[i].acknowledged
  }

  ghost predicate WindowSound(s: State) {
    AcknowledgedFirst(s.staged) && forall g :: g in s.staged ==> g.items != []
  }

  ghost predicate Inv(s: State) { Good(s.volume) && ViewsSound(s) && WindowSound(s) }

  /** What one operation does to names, views and identities. */
  ghost predicate Follows(s: State, op: Operation, t: State) {
    && Persists(s.volume, t.volume)
    && (forall l :: l in s.snapshotIds ==> l in t.snapshotIds && t.snapshotIds[l] == s.snapshotIds[l])
    && (forall l :: l in s.views && s.views[l].Some? && op != Snapshot(ViewDelete, l) ==>
          l in t.views && t.views[l] == s.views[l])
  }

  // ---------- operations outside windows and views

  lemma AttributeStepKeeps(s: Volume, op: Operation, now: nat)
    requires Good(s) && AttributeStep(s, op, now).Some?
    ensures Kept(s, AttributeStep(s, op, now).value)
  {
    match op
    case SetDataPolicy(l, policy) => PolicyIsKept(s, l, policy, now);
    case SetProtection(l, protection) => ProtectIsKept(s, l, protection, now);
    case RestoreMetadata(l, protection, created, modified, changed) =>
      RestoreIsKept(s, l, protection, created, modified, changed);
  }

  lemma DataStepKeeps(s: Volume, op: Operation, now: nat)
    requires Good(s) && DataStep(s, op, now).Some?
    ensures Kept(s, DataStep(s, op, now).value)
  {
    if op.CloneRange? {
      CloneRangeIsKept(s, op.source, op.sourceOffset, op.destination, op.destinationOffset, op.length, now);
    } else if op.Write? {
      WriteIsKept(s, op.tag, op.offset, op.data, op.budget, now);
    } else if op.Truncate? {
      TruncateIsKept(s, op.tag, op.size, op.budget, now);
    } else {
      ReserveIsKept(s, op.tag, op.offset, op.length, op.budget, now);
    }
  }

  lemma ContentStepKeeps(s: Volume, op: Operation, now: nat)
    requires Good(s) && ContentStep(s, op, now).Some?
    ensures Kept(s, ContentStep(s, op, now).value)
  {
    if AttributeOperation(op) { AttributeStepKeeps(s, op, now); } else { DataStepKeeps(s, op, now); }
  }

  lemma AddStepKeeps(s: Volume, op: Operation, now: nat)
    requires Good(s) && AddStep(s, op, now).Some?
    ensures Kept(s, AddStep(s, op, now).value)
  {
    if op.Link? {
      AddLinkKeeps(s, op.tag, op.source, op.parent, op.name, now);
    } else if op.CloneFile? {
      CloneKeeps(s, op.tag, op.source, op.parent, op.name, now);
    } else {
      var content := if op.Create? then Regular(Created(op.data), false)
        else if op.Mkdir? then Directory else Content.Symlink(op.target);
      if op.Create? { CreatedIsConsistent(op.data); }
      InsertKeeps(s, content, op.tag, op.parent, op.name, now);
    }
  }

  lemma MoveStepKeeps(s: Volume, op: Operation, now: nat)
    requires Good(s) && MoveStep(s, op, now).Some?
    ensures Kept(s, MoveStep(s, op, now).value)
  {
    match op
    case Rename(tag, parent, name) => RenameKeeps(s, tag, parent, name, now);
    case RenameReplace(tag, victim, parent, name, orphan) => ReplaceKeeps(s, tag, victim, parent, name, orphan, now);
  }

  lemma UnlinkStepKeeps(s: Volume, op: Operation, now: nat)
    requires Good(s) && UnlinkStep(s, op, now).Some?
    ensures Kept(s, UnlinkStep(s, op, now).value)
  {
    if !op.Rmdir? { FileIsChildless(s, op.tag); }
    RemoveKeeps(s, op.tag, false, now);
  }

  lemma OrphanStepKeeps(c: Config, s: Volume, op: Operation, now: nat)
    requires Good(s) && OrphanStep(c, s, op, now).Some?
    ensures Kept(s, OrphanStep(c, s, op, now).value)
  {
    match op
    case OrphanFile(tag) => FileIsChildless(s, tag); RemoveKeeps(s, tag, true, now);
    case CleanupOrphan(tag) => CleanupIsKept(c, s, tag);
  }

  lemma RemoveStepKeeps(c: Config, s: Volume, op: Operation, now: nat)
    requires Good(s) && RemoveStep(c, s, op, now).Some?
    ensures Kept(s, RemoveStep(c, s, op, now).value)
  {
    if op.Rename? || op.RenameReplace? {
      MoveStepKeeps(s, op, now);
    } else if op.OrphanFile? || op.CleanupOrphan? {
      OrphanStepKeeps(c, s, op, now);
    } else {
      UnlinkStepKeeps(s, op, now);
    }
  }

  lemma AddStepTyped(s: Volume, op: Operation, now: nat, kinds: map<Label, Kind>)
    requires Good(s) && Typed(s, kinds) && OperationTyped(op, kinds) && AddStep(s, op, now).Some?
    ensures Kept(s, AddStep(s, op, now).value) && Typed(AddStep(s, op, now).value, kinds)
  {
    AddStepKeeps(s, op, now);
    FreshObject(s);
    NewLabelOfAdd(s, op, now, kinds);
    StaysTyped(s, AddStep(s, op, now).value, kinds);
  }

  lemma NewLabelOfAdd(s: Volume, op: Operation, now: nat, kinds: map<Label, Kind>)
    requires s.names.Keys <= s.used && s.nextObject !in s.objects && AddStep(s, op, now).Some?
    requires OperationTyped(op, kinds)
    ensures var t := AddStep(s, op, now).value;
      forall l :: l in t.names && l !in s.used ==> Named(t, l) && l in kinds && kinds[l] == KindOf(NodeOf(t, l).content)
  {
  }

  lemma UsedStays(c: Config, s: Volume, op: Operation, now: nat)
    ensures RemoveStep(c, s, op, now).Some? ==> RemoveStep(c, s, op, now).value.used == s.used
    ensures ContentStep(s, op, now).Some? ==> ContentStep(s, op, now).value.used == s.used
  {
  }

  /** No label beyond the used ones, so nothing new to type. */
  lemma NothingNew(s: Volume, t: Volume, kinds: map<Label, Kind>)
    requires Typed(s, kinds) && Kept(s, t) && t.used == s.used
    ensures Typed(t, kinds)
  {
    StaysTyped(s, t, kinds);
  }

  // ---------- views

  /** What a capture records is no newer than the volume, in path order. */
  lemma CaptureIsSound(s: Volume, id: nat)
    requires CanCapture(s) && AllSound(s)
    ensures ViewSound(Capture(s, id))
  {
    var v := Capture(s, id);
    var labels := SortByPath(s.names, s.names.Keys - {ROOT});
    SortAscends(s.names, s.names.Keys - {ROOT});
    assert Sound(s.objects[1], s.generation);
    forall e | e in v.entries ensures e.metadata.generation <= v.generation {
      var i :| 0 <= i < |v.entries| && v.entries[i] == e;
      assert labels[i] in labels && Named(s, labels[i]);
      assert Sound(NodeOf(s, labels[i]), s.generation);
    }
    forall i, j | 0 <= i < j < |v.entries| ensures PathBefore(v.entries[i].path, v.entries[j].path) {
      assert v.entries[i].path == Path(s.names, labels[i]) && v.entries[j].path == Path(s.names, labels[j]);
    }
  }

  lemma IssueKeeps(ids: map<Label, nat>, l: Label)
    requires Issued(ids) && l !in ids
    ensures Issued(ids[l := |ids| + 1])
  {
    var t := ids[l := |ids| + 1];
    assert t.Keys == ids.Keys + {l};
    assert |t| == |ids| + 1;
  }

  /** A view with the next identity, captured at the present generation. */
  ghost predicate Next(s: State, l: Label, v: View) {
    v.id == |s.snapshotIds| + 1 && v.generation == s.volume.generation && ViewSound(v) && l !in s.snapshotIds
  }

  lemma AddViewRegisters(s: State, l: Label, v: View, k: Label)
    requires ViewsSound(s) && Next(s, l, v) && k in AddView(s, l, v).views
    ensures Registers(AddView(s, l, v), k)
  {
    if k != l { assert Registers(s, k); }
  }

  lemma AddViewIsChronological(s: State, l: Label, v: View)
    requires ViewsSound(s) && Next(s, l, v)
    ensures Chronological(AddView(s, l, v))
  {
    var t := AddView(s, l, v);
    forall j, k | j in t.views && k in t.views && t.views[j].Some? && t.views[k].Some?
                  && t.views[j].value.id < t.views[k].value.id
      ensures t.views[j].value.generation < t.views[k].value.generation
    {
      if j != l { assert Registers(s, j); }
      if k != l { assert Registers(s, k); }
    }
  }

  lemma AddViewKeeps(s: State, l: Label, v: View)
    requires ViewsSound(s) && Next(s, l, v)
    ensures ViewsSound(AddView(s, l, v))
  {
    var t := AddView(s, l, v);
    AddViewIssues(s, l, v);
    forall k | k in t.views ensures Registers(t, k) { AddViewRegisters(s, l, v, k); }
    AddViewIsChronological(s, l, v);
  }

  lemma AddViewIssues(s: State, l: Label, v: View)
    requires Issued(s.snapshotIds) && l !in s.views && l !in s.snapshotIds && s.handles <= OpenViews(s)
    ensures var t := AddView(s, l, v); Issued(t.snapshotIds) && t.handles <= OpenViews(t)
  {
    IssueKeeps(s.snapshotIds, l);
    assert OpenViews(s) <= OpenViews(AddView(s, l, v));
  }

  /** Dropping views, opening or closing handles of registered ones. */
  lemma FewerViewsKeep(s: State, t: State)
    requires ViewsSound(s) && t.snapshotIds == s.snapshotIds && t.views.Keys == s.views.Keys
    requires s.volume.generation <= t.volume.generation
    requires forall k :: k in t.views && t.views[k].Some? ==> t.views[k] == s.views[k]
    requires t.handles <= OpenViews(t)
    ensures ViewsSound(t)
  {
    forall k | k in t.views ensures Registers(t, k) { assert Registers(s, k); }
  }

  lemma SnapshotKeeps(c: Config, s: State, action: Action, l: Label)
    requires ViewsSound(s) && AllSound(s.volume) && SnapshotStep(c, s, action, l).Some?
    ensures ViewsSound(SnapshotStep(c, s, action, l).value)
  {
    if action.ViewCreate? {
      CaptureIsSound(s.volume, |s.snapshotIds| + 1);
      AddViewKeeps(s, l, Capture(s.volume, |s.snapshotIds| + 1));
    } else {
      FewerViewsKeep(s, SnapshotStep(c, s, action, l).value);
    }
  }

  // ---------- windows

  lemma {:induction false} CountIsPrefix(groups: seq<Group>)
    requires AcknowledgedFirst(groups)
    ensures forall i :: 0 <= i < |groups| ==> (groups[i].acknowledged <==> i < AcknowledgedCount(groups))
  {
    if groups != [] {
      var n := |groups| - 1;
      CountIsPrefix(groups[..n]);
      assert forall i :: 0 <= i < n ==> groups[..n][i] == groups[i];
    }
  }

  lemma {:induction false} UnacknowledgedIsZero(groups: seq<Group>)
    requires forall g :: g in groups ==> g.items != []
    ensures Unacknowledged(groups) == 0 <==> forall i :: 0 <= i < |groups| ==> groups[i].acknowledged
  {
    if groups != [] {
      var n := |groups| - 1;
      UnacknowledgedIsZero(groups[..n]);
      assert groups == groups[..n] + [groups[n]];
      assert groups[n] in groups;
      assert forall i :: 0 <= i < n ==> groups[..n][i] == groups[i];
    }
  }

  /** A remount keeps exactly the acknowledged groups: they are the published
      prefix, and every later group was never acknowledged. */
  lemma RemountPublishesAcknowledged(s: State)
    requires WindowSound(s)
    ensures var n := AcknowledgedCount(s.staged);
      && (forall i :: 0 <= i < n ==> s.staged[..n][i].acknowledged)
      && (forall i :: n <= i < |s.staged| ==> !s.staged[i].acknowledged)
  {
    CountIsPrefix(s.staged);
  }

  lemma FsyncAcknowledgesAll(s: State)
    requires Fsync(s).Some? && AcknowledgedFirst(s.staged) && forall g :: g in s.staged ==> g.items != []
    ensures var f := Fsync(s).value;
      && |f.staged| == |s.staged| == AcknowledgedCount(f.staged)
      && (forall i :: 0 <= i < |f.staged| ==> f.staged[i].items == s.staged[i].items)
      && f == s.(staged := f.staged, records := f.records)
  {
    var f := Fsync(s).value;
    UnacknowledgedIsZero(s.staged);
    assert forall i :: 0 <= i < |f.staged| ==> f.staged[i].acknowledged;
    CountIsPrefix(f.staged);
  }

  /** After a successful fsync a remount gives the volume that a commit gives. */
  lemma FsyncThenRemountIsCommit(s: State, now: nat)
    requires WindowSound(s) && Fsync(s).Some?
    ensures var f, commit := Fsync(s).value, WindowStep(s, WindowCommit, now);
      var remount := WindowStep(f, Remount, now);
      && remount.Some? == commit.Some?
      && (commit.Some? ==> remount.value == commit.value.(handles := {}))
  {
    var f := Fsync(s).value;
    FsyncAcknowledgesAll(s);
    assert s.staged[..|s.staged|] == s.staged && f.staged[..|f.staged|] == f.staged;
    GroupsByItems(s.volume, f.staged, s.staged, {}, now);
  }

  /** Publishing reads the items of a group and nothing else of it. */
  lemma {:induction false} GroupsByItems(s: Volume, a: seq<Group>, b: seq<Group>, created: set<nat>, now: nat)
    requires |a| == |b| && forall i :: 0 <= i < |a| ==> a[i].items == b[i].items
    ensures PublishGroups(s, a, created, now) == PublishGroups(s, b, created, now)
    decreases |a|
  {
    if a != [] {
      var r := RunBatch(s, a[0].items, true, created, now);
      if r.Some? { GroupsByItems(r.value.volume, a[1..], b[1..], r.value.created, now); }
    }
  }

  lemma FsyncKeepsWindow(s: State)
    requires WindowSound(s) && Fsync(s).Some?
    ensures WindowSound(Fsync(s).value)
  {
    var t := Fsync(s).value;
    forall g | g in t.staged ensures g.items != [] {
      var i :| 0 <= i < |t.staged| && t.staged[i] == g;
      assert s.staged[i] in s.staged;
    }
  }

  /** What each window operation comes down to. */
  lemma WindowFamilies(s: State, op: Operation, now: nat)
    requires WindowStep(s, op, now).Some?
    ensures if op.WindowBatch? then
              && op.items != []
              && WindowStep(s, op, now).value == s.(staged := s.staged + [Group(op.items, false)])
            else if op.WindowFsync? then WindowStep(s, op, now) == Fsync(s)
            else var r := Publish(s, if op.Remount? then AcknowledgedCount(s.staged) else |s.staged|, now);
              r.Some? && WindowStep(s, op, now).value == if op.Remount? then r.value.(handles := {}) else r.value
  {
  }

  lemma StageKeepsWindow(s: State, items: seq<Item>)
    requires WindowSound(s) && items != []
    ensures WindowSound(s.(staged := s.staged + [Group(items, false)]))
  {
  }

  // ---------- harmless operations and harmful ones

  /** No batch member is harmful when its turn comes, in a direct batch or in the
      groups that a commit or a remount publishes. */
  ghost predicate HarmlessStep(s: State, op: Operation, now: nat) {
    if op.Batch? then HarmlessItems(Tick(s.volume), op.items, false, {}, now)
    else if op.WindowCommit? then HarmlessGroups(s.volume, s.staged, {}, now)
    else if op.Remount? then HarmlessGroups(s.volume, s.staged[..AcknowledgedCount(s.staged)], {}, now)
    else true
  }

  /** The volume moved on; views stayed and the window is sound again. */
  ghost predicate Moved(s: State, t: State) {
    && Kept(s.volume, t.volume) && WindowSound(t)
    && t.views == s.views && t.snapshotIds == s.snapshotIds && t.handles <= s.handles
  }

  lemma MovedKeeps(s: State, t: State)
    requires ViewsSound(s) && Moved(s, t)
    ensures Inv(t) && forall op :: Follows(s, op, t)
  {
    FewerViewsKeep(s, t);
  }

  lemma PublishExactly(s: State, count: nat, now: nat)
    requires Good(s.volume) && WindowSound(s) && count <= |s.staged| && Publish(s, count, now).Some?
    ensures var t := Publish(s, count, now).value;
      if HarmlessGroups(s.volume, s.staged[..count], {}, now) then Moved(s, t) && Moved(s, t.(handles := {}))
      else Broken(t.volume)
  {
    hide HarmlessGroups, Broken, Good, Kept, PublishGroups;
    GroupsExactly(s.volume, s.staged[..count], {}, now);
  }

  lemma WindowStepExactly(s: State, op: Operation, now: nat, t: State)
    requires Good(s.volume) && WindowSound(s) && WindowOperation(op) && WindowStep(s, op, now) == Some(t)
    ensures if HarmlessStep(s, op, now) then Moved(s, t) else Broken(t.volume)
  {
    hide HarmlessGroups, Broken, Good, Publish, WindowStep;
    SelfKept(s.volume);
    WindowFamilies(s, op, now);
    if op.WindowBatch? {
      StageKeepsWindow(s, op.items);
    } else if op.WindowFsync? {
      FsyncKeepsWindow(s);
    } else {
      assert s.staged[..|s.staged|] == s.staged;
      PublishExactly(s, if op.Remount? then AcknowledgedCount(s.staged) else |s.staged|, now);
    }
  }

  lemma DirectStepExactly(c: Config, s: State, op: Operation, now: nat)
    requires Good(s.volume) && !WindowOperation(op) && DirectStep(c, s.volume, op, now).Some?
    ensures var t := DirectStep(c, s.volume, op, now).value;
      if HarmlessStep(s, op, now) then Kept(s.volume, t) else Broken(t)
  {
    hide Broken, Structure, AllSound, HarmlessItems, BatchItems, AddStep, RemoveStep, ContentStep;
    if op.Batch? {
      BatchExactly(s.volume, op.items, false, {}, now);
    } else if AddOperation(op) {
      AddStepKeeps(s.volume, op, now);
    } else if RemoveOperation(op) {
      RemoveStepKeeps(c, s.volume, op, now);
    } else {
      ContentStepKeeps(s.volume, op, now);
    }
  }

  lemma PlainStepExactly(c: Config, s: State, op: Operation, now: nat)
    requires Good(s.volume) && WindowSound(s) && Step(c, s, op, now).Some? && !op.Snapshot?
    ensures var t := Step(c, s, op, now).value; if HarmlessStep(s, op, now) then Moved(s, t) else Broken(t.volume)
  {
    hide Broken, Good, DirectStep, WindowStep;
    if WindowOperation(op) {
      WindowStepExactly(s, op, now, Step(c, s, op, now).value);
    } else if op.Sync? || op.ReclaimStep? || op.SnapshotMaintenanceStep? {
      SelfKept(s.volume);
    } else {
      DirectStepExactly(c, s, op, now);
    }
  }

  /** An accepted operation that is harmless keeps the invariant, rebinds no
      label, issues only new identities and leaves every view alone but the one it
      deletes. A harmful one breaks the volume. */
  lemma StepExactly(c: Config, s: State, op: Operation, now: nat)
    requires Inv(s) && Step(c, s, op, now).Some?
    ensures var t := Step(c, s, op, now).value;
      if HarmlessStep(s, op, now) then Inv(t) && Follows(s, op, t) else Broken(t.volume)
  {
    hide Broken;
    if op.Snapshot? {
      SnapshotStepKeeps(c, s, op.action, op.tag);
      SnapshotFollows(c, s, op.action, op.tag);
    } else {
      hide Step, Good, ViewsSound;
      PlainStepExactly(c, s, op, now);
      if HarmlessStep(s, op, now) { MovedKeeps(s, Step(c, s, op, now).value); }
    }
  }

  lemma SnapshotStepKeeps(c: Config, s: State, action: Action, l: Label)
    requires Inv(s) && SnapshotStep(c, s, action, l).Some?
    ensures Inv(SnapshotStep(c, s, action, l).value)
  {
    SnapshotKeeps(c, s, action, l);
    TickKeeps(s.volume);
    SnapshotTicks(c, s, action, l);
  }

  /** A snapshot operation changes the volume by its generation at most. */
  lemma SnapshotTicks(c: Config, s: State, action: Action, l: Label)
    requires SnapshotStep(c, s, action, l).Some?
    ensures var t := SnapshotStep(c, s, action, l).value;
      (t.volume == s.volume || t.volume == Tick(s.volume)) && t.staged == s.staged && t.records == s.records
  {
  }

  lemma SnapshotFollows(c: Config, s: State, action: Action, l: Label)
    requires Structure(s.volume) && AllSound(s.volume) && s.views.Keys == s.snapshotIds.Keys
    requires SnapshotStep(c, s, action, l).Some?
    ensures Follows(s, Snapshot(action, l), SnapshotStep(c, s, action, l).value)
  {
    SnapshotTicks(c, s, action, l);
    SelfKept(s.volume);
    TickKeeps(s.volume);
  }

  // ---------- the harm is never undone

  lemma DirectStaysBroken(c: Config, s: Volume, op: Operation, now: nat)
    requires Broken(s) && DirectStep(c, s, op, now).Some?
    ensures Broken(DirectStep(c, s, op, now).value)
  {
    hide Broken, Leaves, BatchItems, AddStep, RemoveStep, ContentStep;
    if op.Batch? {
      TickStaysBroken(s);
      ItemsStayBroken(Tick(s), op.items, false, {}, now);
    } else {
      if AddOperation(op) {
        AddLeaves(s, op, now);
      } else if RemoveOperation(op) {
        RemoveLeaves(c, s, op, now);
      } else {
        ContentLeaves(s, op, now);
      }
      BrokenStays(s, DirectStep(c, s, op, now).value);
    }
  }

  lemma WindowStaysBroken(s: State, op: Operation, now: nat)
    requires Broken(s.volume) && WindowStep(s, op, now).Some?
    ensures Broken(WindowStep(s, op, now).value.volume)
  {
    hide Broken, PublishGroups, WindowStep;
    WindowFamilies(s, op, now);
    if !op.WindowBatch? && !op.WindowFsync? {
      var count := if op.Remount? then AcknowledgedCount(s.staged) else |s.staged|;
      GroupsStayBroken(s.volume, s.staged[..count], {}, now);
    }
  }

  lemma StepStaysBroken(c: Config, s: State, op: Operation, now: nat)
    requires Broken(s.volume) && Step(c, s, op, now).Some?
    ensures Broken(Step(c, s, op, now).value.volume)
  {
    hide Broken, DirectStep, WindowStep, SnapshotStep;
    if WindowOperation(op) {
      WindowStaysBroken(s, op, now);
    } else if op.Snapshot? {
      SnapshotTicks(c, s, op.action, op.tag);
      TickStaysBroken(s.volume);
    } else if !op.Sync? && !op.ReclaimStep? && !op.SnapshotMaintenanceStep? {
      DirectStaysBroken(c, s.volume, op, now);
    }
  }

  lemma {:induction false} RunStaysBroken(c: Config, s: State, ops: seq<Operation>, index: nat)
    requires Broken(s.volume) && RunFrom(c, s, ops, index).Some?
    ensures Broken(RunFrom(c, s, ops, index).value.volume)
    decreases |ops|
  {
    hide Broken, Step;
    if ops != [] {
      StepStaysBroken(c, s, ops[0], index + 1);
      RunStaysBroken(c, Step(c, s, ops[0], index + 1).value, ops[1..], index + 1);
    }
  }

  // ---------- whole runs

  lemma InitialIsSound()
    ensures Inv(Initial())
  {
    var v := Initial().volume;
    assert AtDepth(v.names, ROOT, 0);
    assert Sound(v.objects[1], 1);
    assert NamesOf(v.names, 1) == {ROOT} && OrphansOf(v.orphaned, 1) == {};
    assert Counted(v, 1);
    assert Bound(v, ROOT);
  }

  /** What a whole run does to labels, identities and views. */
  ghost predicate RunFollows(s: State, ops: seq<Operation>, t: State) {
    && Persists(s.volume, t.volume)
    && (forall l :: l in s.snapshotIds ==> l in t.snapshotIds && t.snapshotIds[l] == s.snapshotIds[l])
    && (forall l :: l in s.views && s.views[l].Some? && Snapshot(ViewDelete, l) !in ops ==>
        l in t.views && t.views[l] == s.views[l])
  }

  /** No operation of the run is harmful when its turn comes. */
  ghost predicate HarmlessRun(c: Config, s: State, ops: seq<Operation>, index: nat)
    decreases |ops|
  {
    ops != [] ==>
      && HarmlessStep(s, ops[0], index + 1)
      && var r := Step(c, s, ops[0], index + 1);
         r.Some? ==> HarmlessRun(c, r.value, ops[1..], index + 1)
  }

  /** An accepted run keeps the structure exactly when none of its operations is
      harmful. It then keeps the whole invariant; a label once used is never bound
      to another object, an identity is never issued again, and a view stays as
      captured until it is deleted. */
  lemma {:induction false} RunKeeps(c: Config, s: State, ops: seq<Operation>, index: nat)
    requires Inv(s) && RunFrom(c, s, ops, index).Some?
    ensures var t := RunFrom(c, s, ops, index).value;
      && (HarmlessRun(c, s, ops, index) <==> Structure(t.volume))
      && (HarmlessRun(c, s, ops, index) ==> Inv(t) && RunFollows(s, ops, t))
    decreases |ops|
  {
    hide Step, HarmlessStep, Broken, ViewsSound, WindowSound, Structure, AllSound;
    if ops == [] {
      SelfKept(s.volume);
    } else {
      StepExactly(c, s, ops[0], index + 1);
      var t := Step(c, s, ops[0], index + 1).value;
      if HarmlessStep(s, ops[0], index + 1) {
        RunKeeps(c, t, ops[1..], index + 1);
        if HarmlessRun(c, s, ops, index) { RunFollowsOn(s, ops, t, RunFrom(c, s, ops, index).value); }
      } else {
        RunStaysBroken(c, t, ops[1..], index + 1);
        BrokenIsUnsound(RunFrom(c, s, ops, index).value.volume);
      }
    }
  }

  lemma RunFollowsOn(s: State, ops: seq<Operation>, t: State, u: State)
    requires ops != [] && Follows(s, ops[0], t) && RunFollows(t, ops[1..], u)
    ensures RunFollows(s, ops, u)
  {
    forall l | l in s.volume.used && l in u.volume.names ensures SameBinding(s.volume, u.volume, l) {
      assert SameBinding(t.volume, u.volume, l);
      assert SameBinding(s.volume, t.volume, l);
    }
  }

  /** A new view takes an identity above every identity ever issued. */
  lemma NewIdentityIsLargest(c: Config, s: State, l: Label, k: Label)
    requires ViewsSound(s) && SnapshotStep(c, s, ViewCreate, l).Some? && k in s.snapshotIds
    ensures var t := SnapshotStep(c, s, ViewCreate, l).value; t.snapshotIds[k] < t.snapshotIds[l] && k != l
  {
  }

  // ---------- programs whose labels have one kind

  /** Bound labels and staged groups respect the kinds. */
  ghost predicate TypedState(s: State, kinds: map<Label, Kind>) {
    Typed(s.volume, kinds) && forall g :: g in s.staged ==> ItemsTyped(g.items, kinds)
  }

  lemma TypedDirect(c: Config, s: Volume, op: Operation, now: nat, kinds: map<Label, Kind>)
    requires Good(s) && Typed(s, kinds) && OperationTyped(op, kinds) && DirectStep(c, s, op, now).Some?
    ensures Typed(DirectStep(c, s, op, now).value, kinds)
  {
    hide Structure, AllSound;
    if op.Batch? {
      TypedBatch(s, op.items, false, {}, now, kinds);
    } else if AddOperation(op) {
      AddStepTyped(s, op, now, kinds);
    } else {
      UsedStays(c, s, op, now);
      if RemoveOperation(op) { RemoveStepKeeps(c, s, op, now); } else { ContentStepKeeps(s, op, now); }
      NothingNew(s, DirectStep(c, s, op, now).value, kinds);
    }
  }

  lemma TypedWindow(s: State, op: Operation, now: nat, kinds: map<Label, Kind>)
    requires Good(s.volume) && TypedState(s, kinds) && OperationTyped(op, kinds)
    requires WindowOperation(op) && WindowStep(s, op, now).Some?
    ensures HarmlessStep(s, op, now) && TypedState(WindowStep(s, op, now).value, kinds)
  {
    hide Good, Typed, ItemsTyped, WindowStep, PublishGroups, HarmlessGroups;
    WindowFamilies(s, op, now);
    if op.WindowFsync? {
      AcknowledgedItems(s, kinds);
    } else if !op.WindowBatch? {
      var count := if op.Remount? then AcknowledgedCount(s.staged) else |s.staged|;
      assert s.staged[..|s.staged|] == s.staged;
      TypedGroupsAreHarmless(s.volume, s.staged[..count], {}, now, kinds);
      TypedGroups(s.volume, s.staged[..count], {}, now, kinds);
    }
  }

  lemma AcknowledgedItems(s: State, kinds: map<Label, Kind>)
    requires Fsync(s).Some? && forall g :: g in s.staged ==> ItemsTyped(g.items, kinds)
    ensures forall g :: g in Fsync(s).value.staged ==> ItemsTyped(g.items, kinds)
  {
    var t := Fsync(s).value;
    forall g | g in t.staged ensures ItemsTyped(g.items, kinds) {
      var i :| 0 <= i < |t.staged| && t.staged[i] == g;
      assert s.staged[i] in s.staged;
    }
  }

  /** Operations that respect label kinds are harmless and keep the kinds. */
  lemma TypedStep(c: Config, s: State, op: Operation, now: nat, kinds: map<Label, Kind>)
    requires Good(s.volume) && TypedState(s, kinds) && OperationTyped(op, kinds) && Step(c, s, op, now).Some?
    ensures HarmlessStep(s, op, now) && TypedState(Step(c, s, op, now).value, kinds)
  {
    hide Good, Typed, WindowStep, DirectStep, HarmlessItems, SnapshotStep;
    if WindowOperation(op) {
      TypedWindow(s, op, now, kinds);
    } else if op.Snapshot? {
      SnapshotTicks(c, s, op.action, op.tag);
      TypedTick(s.volume, kinds);
    } else if !op.Sync? && !op.ReclaimStep? && !op.SnapshotMaintenanceStep? {
      TypedDirect(c, s.volume, op, now, kinds);
      if op.Batch? {
        TypedTick(s.volume, kinds);
        TickKeeps(s.volume);
        TypedItemsAreHarmless(Tick(s.volume), op.items, false, {}, now, kinds);
      }
    }
  }

  lemma TypedTick(s: Volume, kinds: map<Label, Kind>)
    requires Typed(s, kinds)
    ensures Typed(Tick(s), kinds)
  {
  }

  /** So a program whose labels have one kind and whose victims are called files
      is harmless. */
  lemma {:induction false} TypedRunIsHarmless(
    c: Config, s: State, ops: seq<Operation>, index: nat, kinds: map<Label, Kind>)
    requires Inv(s) && TypedState(s, kinds) && RunFrom(c, s, ops, index).Some?
    requires forall op :: op in ops ==> OperationTyped(op, kinds)
    ensures HarmlessRun(c, s, ops, index) && TypedState(RunFrom(c, s, ops, index).value, kinds)
    decreases |ops|
  {
    hide Step, HarmlessStep, TypedState, ViewsSound, WindowSound, Structure, AllSound;
    if ops != [] {
      TypedStep(c, s, ops[0], index + 1, kinds);
      StepExactly(c, s, ops[0], index + 1);
      TypedRunIsHarmless(c, Step(c, s, ops[0], index + 1).value, ops[1..], index + 1, kinds);
    }
  }

  // ---------- a program that breaks the volume

  /** A directory, a file in it, a file beside it, and a batch that replaces the
      directory by the second file. */
  const REPLACING: seq<Operation> := [
    Mkdir("d", ROOT, [1]), Create("f", "d", [2], []), Create("g", ROOT, [3], []),
    Batch([ItemReplace("g", "d", ROOT, [1])])]

  function RootAt(now: nat): Node { Node(Directory, 1, 0, 0, now, now, now + 1) }

  function FileAt(now: nat): Node { Node(Regular(Created([]), false), 1, 0, now, now, now, now + 1) }

  function FirstVolume(): Volume {
    Volume(2, 17, map[1 := RootAt(1), 16 := Node(Directory, 1, 0, 1, 1, 1, 2)],
           map[ROOT := Entry(1, None, []), "d" := Entry(16, Some(ROOT), [1])], {ROOT, "d"}, map[])
  }

  function SecondVolume(): Volume {
    Volume(3, 18, map[1 := RootAt(1), 16 := Node(Directory, 1, 0, 1, 2, 2, 3), 17 := FileAt(2)],
           map[ROOT := Entry(1, None, []), "d" := Entry(16, Some(ROOT), [1]), "f" := Entry(17, Some("d"), [2])],
           {ROOT, "d", "f"}, map[])
  }

  function ThirdVolume(): Volume {
    Volume(4, 19, map[1 := RootAt(3), 16 := Node(Directory, 1, 0, 1, 2, 2, 3), 17 := FileAt(2), 18 := FileAt(3)],
           map[ROOT := Entry(1, None, []), "d" := Entry(16, Some(ROOT), [1]), "f" := Entry(17, Some("d"), [2]),
               "g" := Entry(18, Some(ROOT), [3])], {ROOT, "d", "f", "g"}, map[])
  }

  lemma FirstStep()
    ensures Insert(Initial().volume, Directory, "d", ROOT, [1], 1) == Some(FirstVolume())
  {
    hide Created;
    assert Insertable(Initial().volume, "d", ROOT, [1]);
    var t := Insert(Initial().volume, Directory, "d", ROOT, [1], 1).value;
    assert t.objects == FirstVolume().objects && t.names == FirstVolume().names && t.used == FirstVolume().used;
  }

  lemma SecondStep()
    ensures Insert(FirstVolume(), Regular(Created([]), false), "f", "d", [2], 2) == Some(SecondVolume())
  {
    hide Created;
    assert Insertable(FirstVolume(), "f", "d", [2]);
    var t := Insert(FirstVolume(), Regular(Created([]), false), "f", "d", [2], 2).value;
    assert t.objects == SecondVolume().objects && t.names == SecondVolume().names && t.used == SecondVolume().used;
  }

  lemma ThirdStep()
    ensures Insert(SecondVolume(), Regular(Created([]), false), "g", ROOT, [3], 3) == Some(ThirdVolume())
  {
    hide Created;
    assert Insertable(SecondVolume(), "g", ROOT, [3]);
    var t := Insert(SecondVolume(), Regular(Created([]), false), "g", ROOT, [3], 3).value;
    assert t.objects == ThirdVolume().objects && t.names == ThirdVolume().names && t.used == ThirdVolume().used;
  }

  lemma LastStep()
    ensures RunBatch(ThirdVolume(), [ItemReplace("g", "d", ROOT, [1])], false, {}, 4).Some?
    ensures !HarmlessItems(Tick(ThirdVolume()), [ItemReplace("g", "d", ROOT, [1])], false, {}, 4)
  {
    hide Created;
    var v, item := Tick(ThirdVolume()), ItemReplace("g", "d", ROOT, [1]);
    assert v.names["f"].parent == Some("d");
    var r := BatchItem(v, item, false, {}, 4);
    assert r.Some? && [item][1..] == [];
    assert BatchItems(r.value.volume, [], false, r.value.created, 4).Some?;
  }

  /** The program is accepted, and no volume it ends in is sound. */
  lemma ReplacedDirectoryExample(c: Config)
    ensures RunFrom(c, Initial(), REPLACING, 0).Some? && !Structure(RunFrom(c, Initial(), REPLACING, 0).value.volume)
  {
    hide Insert, RunBatch, HarmlessItems, Structure, FirstVolume, SecondVolume, ThirdVolume;
    FirstStep();
    SecondStep();
    ThirdStep();
    LastStep();
    var s := Initial();
    var s1, s2, s3 := s.(volume := FirstVolume()), s.(volume := SecondVolume()), s.(volume := ThirdVolume());
    assert Step(c, s, REPLACING[0], 1) == Some(s1);
    assert Step(c, s1, REPLACING[1], 2) == Some(s2);
    assert Step(c, s2, REPLACING[2], 3) == Some(s3);
    assert Step(c, s3, REPLACING[3], 4).Some? && !HarmlessStep(s3, REPLACING[3], 4);
    RunsOn(c, s, s1, REPLACING, 0);
    RunsOn(c, s1, s2, REPLACING[1..], 1);
    RunsOn(c, s2, s3, REPLACING[2..], 2);
    RunsOn(c, s3, Step(c, s3, REPLACING[3], 4).value, REPLACING[3..], 3);
    assert REPLACING[1..][1..] == REPLACING[2..] && REPLACING[2..][1..] == REPLACING[3..] && REPLACING[3..][1..] == [];
    InitialIsSound();
    RunKeeps(c, s, REPLACING, 0);
  }

  lemma RunsOn(c: Config, s: State, t: State, ops: seq<Operation>, index: nat)
    requires ops != [] && Step(c, s, ops[0], index + 1) == Some(t)
    ensures RunFrom(c, s, ops, index) == RunFrom(c, t, ops[1..], index + 1)
    ensures HarmlessRun(c, s, ops, index) <==>
      HarmlessStep(s, ops[0], index + 1) && HarmlessRun(c, t, ops[1..], index + 1)
  {
    hide Step, HarmlessStep;
  }
}
