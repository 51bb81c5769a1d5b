/** What a captured view holds, and that it goes on holding it. */
module OracleViews {
  import opened Basics
  import opened Scenario
  import opened Namespace
  import opened Ordering
  import opened Files
  import opened Oracle
  import opened OracleInvariant
  import opened OracleSteps
  import opened OracleRuns
  import Coverage

  /** The attributes recorded for an object are those it has. */
  predicate Recorded(m: Metadata, id: nat, n: Node) {
    && m.id == id && m.kind == KindOf(n.content) && m.links == n.links && m.protection == n.protection
    && m.created == n.created && m.modified == n.modified && m.changed == n.changed && m.generation == n.generation
  }

  /** What one entry of a view says about the object of a label: its bytes, their
      number, the space its blocks take, and the blocks. */
  ghost predicate Shows(s: Volume, l: Label, e: Captured)
    requires Named(s, l) && Rooted(s.names, l)
  {
    var n := NodeOf(s, l);
    && e.path == Path(s.names, l) && Recorded(e.metadata, s.names[l].id, n) && e.metadata.size == |e.data|
    && (n.content.Regular? ==>
          && e.data == n.content.file.data && e.metadata.space == 4096 * |n.content.file.blocks|
          && Coverage.Maximal(e.allocation) && Coverage.Denotes(e.allocation, n.content.file.blocks))
    && (n.content.Symlink? ==> e.data == n.content.target)
    && (!n.content.Regular? ==> e.metadata.space == 0 && e.allocation == [])
    && (n.content.Directory? ==> e.data == [])
  }

  ghost predicate ShownIn(s: Volume, l: Label, entries: seq<Captured>)
    requires Named(s, l) && Rooted(s.names, l)
  {
    exists e :: e in entries && Shows(s, l, e)
  }

  ghost predicate ShowsSome(s: Volume, e: Captured)
    requires CanCapture(s)
  {
    exists l :: l in s.names && l != ROOT && Shows(s, l, e)
  }

  /** A view shows a volume: one entry for each label but the root, in path order, and
      the root's own attributes, in one block. */
  ghost predicate ShowsAll(s: Volume, v: View)
    requires CanCapture(s)
  {
    && v.generation == s.generation && v.transaction == s.generation
    && Recorded(v.root, 1, s.objects[1]) && v.root.size == 0 && v.root.space == 4096
    && (forall i, j :: 0 <= i < j < |v.entries| ==> PathBefore(v.entries[i].path, v.entries[j].path))
    && (forall l :: l in s.names && l != ROOT ==> ShownIn(s, l, v.entries))
    && (forall e :: e in v.entries ==> ShowsSome(s, e))
  }

  lemma EntryShows(s: Volume, l: Label)
    requires Named(s, l) && Rooted(s.names, l) && (s.names[l].id == 1 ==> l == ROOT) && l != ROOT
    ensures Shows(s, l, CaptureEntry(Path(s.names, l), s.names[l].id, NodeOf(s, l)))
  {
    var n := NodeOf(s, l);
    if n.content.Regular? { Coverage.OfIsCanonical(n.content.file.blocks); }
  }

  /** One entry for each label of a list, in its order. */
  ghost predicate ShowsList(s: Volume, labels: seq<Label>, entries: seq<Captured>)
    requires AllBound(s, labels)
  {
    |entries| == |labels| && forall i :: 0 <= i < |labels| ==> labels[i] in labels && Shows(s, labels[i], entries[i])
  }

  lemma ListShows(s: Volume, labels: seq<Label>, id: nat)
    requires CanCapture(s) && OneRoot(s) && labels == SortByPath(s.names, s.names.Keys - {ROOT})
    ensures AllBound(s, labels) && ShowsList(s, labels, Capture(s, id).entries)
  {
    hide Shows, CaptureEntry, Path, SortByPath;
    forall i | 0 <= i < |labels| ensures labels[i] in labels && Shows(s, labels[i], Capture(s, id).entries[i]) {
      assert labels[i] in labels;
      EntryShows(s, labels[i]);
    }
  }

  /** Only the root names object 1, which is a directory. */
  ghost predicate OneRoot(s: Volume) {
    && 1 in s.objects && s.objects[1].content.Directory?
    && forall l :: l in s.names && s.names[l].id == 1 ==> l == ROOT
  }

  lemma ListCovers(s: Volume, labels: seq<Label>, entries: seq<Captured>)
    requires CanCapture(s) && AllBound(s, labels) && ShowsList(s, labels, entries) && Ascends(s.names, labels)
    requires forall l :: l in labels <==> l in s.names && l != ROOT
    ensures forall i, j :: 0 <= i < j < |entries| ==> PathBefore(entries[i].path, entries[j].path)
    ensures forall l :: l in s.names && l != ROOT ==> ShownIn(s, l, entries)
    ensures forall e :: e in entries ==> ShowsSome(s, e)
  {
    hide Shows, Path;
    forall l | l in s.names && l != ROOT ensures ShownIn(s, l, entries) {
      assert l in labels;
      var i :| 0 <= i < |labels| && labels[i] == l;
      assert entries[i] in entries && Shows(s, l, entries[i]);
    }
    forall e | e in entries ensures ShowsSome(s, e) {
      var i :| 0 <= i < |entries| && entries[i] == e;
      assert labels[i] in labels && Shows(s, labels[i], e);
    }
    forall i, j | 0 <= i < j < |entries| ensures PathBefore(entries[i].path, entries[j].path) {
      assert labels[i] in labels && labels[j] in labels;
      PathsOf(s, labels[i], entries[i]);
      PathsOf(s, labels[j], entries[j]);
    }
  }

  lemma PathsOf(s: Volume, l: Label, e: Captured)
    requires Named(s, l) && Rooted(s.names, l) && Shows(s, l, e)
    ensures e.path == Path(s.names, l)
  {
  }

  /** A capture shows the volume it is taken from. */
  lemma CaptureShows(s: Volume, id: nat)
    requires CanCapture(s) && OneRoot(s)
    ensures ShowsAll(s, Capture(s, id)) && Capture(s, id).id == id
  {
    var labels := SortByPath(s.names, s.names.Keys - {ROOT});
    SortAscends(s.names, s.names.Keys - {ROOT});
    hide Shows, Path, SortByPath, ShowsList, ShownIn, ShowsSome, CaptureEntries;
    ListShows(s, labels, id);
    ListCovers(s, labels, Capture(s, id).entries);
  }

  // ---------- a view outlives what it shows

  lemma ViewStays(c: Config, s: State, op: Operation, now: nat, l: Label)
    requires Step(c, s, op, now).Some? && l in s.snapshotIds && l in s.views && s.views[l].Some?
    requires op != Snapshot(ViewDelete, l)
    ensures var t := Step(c, s, op, now).value; l in t.snapshotIds && l in t.views && t.views[l] == s.views[l]
  {
    hide PublishGroups, DirectStep, Capture, CanCapture, Capturable;
  }

  lemma {:induction false} ViewLasts(c: Config, s: State, ops: seq<Operation>, index: nat, l: Label)
    requires RunFrom(c, s, ops, index).Some? && l in s.snapshotIds && l in s.views && s.views[l].Some?
    requires Snapshot(ViewDelete, l) !in ops
    ensures var t := RunFrom(c, s, ops, index).value; l in t.views && t.views[l] == s.views[l]
    decreases |ops|
  {
    hide Step;
    if ops != [] {
      ViewStays(c, s, ops[0], index + 1, l);
      ViewLasts(c, Step(c, s, ops[0], index + 1).value, ops[1..], index + 1, l);
    }
  }

  /** On a sound volume object 1 is the root and nothing else. */
  lemma RootIsOne(s: Volume)
    requires Structure(s)
    ensures OneRoot(s) && CanCapture(s)
  {
    assert Bound(s, ROOT) && Counted(s, 1);
    forall l | l in s.names ensures Named(s, l) { assert Bound(s, l); }
    forall l | l in s.names && s.names[l].id == 1 ensures l == ROOT {
      SoleName(s, 1, ROOT, l);
    }
  }

  lemma SoleName(s: Volume, id: nat, k: Label, l: Label)
    requires id in s.objects && Counted(s, id) && s.objects[id].links == 1
    requires k in s.names && l in s.names && s.names[k].id == id == s.names[l].id
    ensures k == l
  {
    var names := NamesOf(s.names, id);
    assert {k, l} <= names;
    assert k != l ==> |names - {k, l}| == |names| - 2;
  }

  /** A view of a sound volume shows it from its creation on, whatever a later program
      writes, moves or removes, until the view is deleted. */
  lemma ViewGoesOnShowing(c: Config, s: State, l: Label, ops: seq<Operation>, index: nat)
    requires Structure(s.volume) && SnapshotStep(c, s, ViewCreate, l).Some?
    requires RunFrom(c, SnapshotStep(c, s, ViewCreate, l).value, ops, index).Some?
    requires Snapshot(ViewDelete, l) !in ops
    ensures var t := RunFrom(c, SnapshotStep(c, s, ViewCreate, l).value, ops, index).value;
      CanCapture(s.volume) && l in t.views && t.views[l].Some? && ShowsAll(s.volume, t.views[l].value)
  {
    RootIsOne(s.volume);
    hide Structure, RunFrom, ShowsAll, Capture, OneRoot, Capturable;
    CaptureShows(s.volume, |s.snapshotIds| + 1);
    ViewLasts(c, SnapshotStep(c, s, ViewCreate, l).value, ops, index, l);
  }
}
