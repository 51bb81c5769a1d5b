/** The flat model is the object model seen through labels: on the operations both
    know they accept the same programs and end in the same files. */
module Flattening {
  import opened Basics
  import opened Scenario
  import opened Namespace
  import opened Files
  import opened Oracle
  import opened OracleInvariant
  import opened OracleSteps
  import opened OracleRuns
  import Windows

  /** What the flat model sees of a node. */
  function FlatContent(content: Content): Windows.Flat {
    if content.Regular? then Windows.FlatFile(content.file.data) else Windows.FlatDirectory
  }

  function FlatAt(s: Volume, l: Label): Windows.FlatNode
    requires Named(s, l)
  {
    Windows.FlatNode(FlatContent(NodeOf(s, l).content), s.names[l].parent, s.names[l].name)
  }

  /** What the flat model sees of a volume. */
  function Flatten(s: Volume): Windows.Nodes
    requires forall l :: l in s.names ==> Named(s, l)
  {
    map l | l in s.names :: FlatAt(s, l)
  }

  /** Every object has one name, and there are no symlinks. */
  ghost predicate Plain(s: Volume) {
    && (forall l :: l in s.names ==> Named(s, l))
    && (forall k, l :: k in s.names && l in s.names && s.names[k].id == s.names[l].id ==> k == l)
    && (forall l :: l in s.names ==> !NodeOf(s, l).content.Symlink?)
  }

  /** Operations of the flat model. */
  predicate Shared(op: Operation) {
    || op.Sync? || op.Remount? || op.Create? || op.Mkdir? || op.Rename? || op.Unlink? || op.Rmdir?
    || (op.Write? && op.budget.None?) || (op.Truncate? && op.budget.None?)
  }

  /** The object model never gives a label twice; the flat model may reuse one that
      was removed. The object model moves directories, the flat model only files. */
  ghost predicate Common(s: Volume, op: Operation) {
    && (op.Create? || op.Mkdir? ==> op.tag !in s.used)
    && (op.Rename? ==> op.tag in s.names && Named(s, op.tag) && !NodeOf(s, op.tag).content.Directory?)
  }

  /** Two volumes' views agree on one label. */
  predicate SameAt(s: Volume, nodes: Windows.Nodes, l: Label) {
    if l !in s.names then l !in nodes
    else Named(s, l) && l in nodes && nodes[l] == FlatAt(s, l)
  }

  lemma FlattenedBy(s: Volume, nodes: Windows.Nodes)
    requires forall l :: SameAt(s, nodes, l)
    ensures (forall l :: l in s.names ==> Named(s, l)) && Flatten(s) == nodes
  {
    forall l | l in s.names ensures Named(s, l) { assert SameAt(s, nodes, l); }
    forall l ensures l in Flatten(s) <==> l in nodes { assert SameAt(s, nodes, l); }
    forall l | l in nodes ensures Flatten(s)[l] == nodes[l] { assert SameAt(s, nodes, l); }
  }

  // ---------- the two checks of a name agree

  lemma SameChecks(s: Volume, l: Label, parent: Label, name: Name)
    requires Plain(s)
    ensures Windows.IsFile(Flatten(s), l) <==> l in s.names && NodeOf(s, l).content.Regular?
    ensures Windows.IsDirectory(Flatten(s), l) <==> IsDirectory(s, l)
    ensures Flatten(s).Keys == s.names.Keys
    ensures Windows.Occupied(Flatten(s), parent, name) <==> !Vacant(s.names, parent, name)
    ensures Windows.HasChild(Flatten(s), l) <==> !Childless(s.names, l)
  {
    if !Vacant(s.names, parent, name) {
      var k :| k in s.names && s.names[k].parent == Some(parent) && s.names[k].name == name;
      assert k in Flatten(s);
    }
    if !Childless(s.names, l) {
      var k :| k in s.names && s.names[k].parent == Some(l);
      assert k in Flatten(s);
    }
  }

  // ---------- one operation

  lemma InsertedNames(s: Volume, content: Content, tag: Label, parent: Label, name: Name, now: nat, l: Label)
    requires Insert(s, content, tag, parent, name, now).Some? && s.nextObject !in s.objects
    requires tag !in s.names && (l == tag || (l in s.names && Named(s, l)))
    ensures var t := Insert(s, content, tag, parent, name, now).value;
      t.names.Keys == s.names.Keys + {tag} && KeptBy(s, t, content, tag, parent, name, l)
  {
    hide Vacant;
  }

  lemma InsertFlattens(s: Volume, content: Content, tag: Label, parent: Label, name: Name, now: nat)
    requires Good(s) && Plain(s) && !content.Symlink? && Insert(s, content, tag, parent, name, now).Some?
    ensures var t := Insert(s, content, tag, parent, name, now).value;
      Plain(t) && Flatten(t) == Flatten(s)[tag := Windows.FlatNode(FlatContent(content), Some(parent), name)]
  {
    var t := Insert(s, content, tag, parent, name, now).value;
    var nodes := Flatten(s)[tag := Windows.FlatNode(FlatContent(content), Some(parent), name)];
    NextIsNew(s);
    assert tag !in s.names;
    hide Structure, AllSound, Insert;
    forall l | l == tag || l in s.names ensures KeptBy(s, t, content, tag, parent, name, l) {
      InsertedNames(s, content, tag, parent, name, now, l);
    }
    InsertedNames(s, content, tag, parent, name, now, tag);
    InsertIsPlain(s, t, content, tag, parent, name);
    forall l ensures SameAt(t, nodes, l) {
      if l == tag || l in s.names { assert KeptBy(s, t, content, tag, parent, name, l); }
    }
    FlattenedBy(t, nodes);
  }

  /** The new label names a new object; another keeps its entry and its content. */
  predicate KeptBy(s: Volume, t: Volume, content: Content, tag: Label, parent: Label, name: Name, l: Label) {
    && Named(t, l)
    && if l == tag then t.names[l] == Entry(s.nextObject, Some(parent), name) && NodeOf(t, l).content == content
       else Named(s, l) && t.names[l] == s.names[l] && NodeOf(t, l).content == NodeOf(s, l).content
  }

  lemma InsertIsPlain(s: Volume, t: Volume, content: Content, tag: Label, parent: Label, name: Name)
    requires Plain(s) && !content.Symlink? && s.nextObject !in s.objects && t.names.Keys == s.names.Keys + {tag}
    requires forall l :: l == tag || l in s.names ==> KeptBy(s, t, content, tag, parent, name, l)
    ensures Plain(t)
  {
    forall k, l | k in t.names && l in t.names && t.names[k].id == t.names[l].id ensures k == l {
      assert KeptBy(s, t, content, tag, parent, name, k) && KeptBy(s, t, content, tag, parent, name, l);
    }
    forall l | l in t.names ensures Named(t, l) && !NodeOf(t, l).content.Symlink? {
      assert KeptBy(s, t, content, tag, parent, name, l);
    }
  }

  lemma NextIsNew(s: Volume)
    requires Structure(s)
    ensures s.nextObject !in s.objects
  {
    assert s.nextObject in s.objects ==> Counted(s, s.nextObject);
  }

  lemma RewriteFlattens(s: Volume, tag: Label, f: File, now: nat)
    requires Plain(s) && LiveFile(s, tag)
    ensures var t := Rewrite(s, tag, f, now);
      Plain(t) && Flatten(t) == Windows.SetData(Flatten(s), tag, f.data)
  {
    var t, nodes := Rewrite(s, tag, f, now), Windows.SetData(Flatten(s), tag, f.data);
    forall l ensures SameAt(t, nodes, l) {
    }
    FlattenedBy(t, nodes);
  }

  lemma MoveFlattens(s: Volume, tag: Label, parent: Label, name: Name, now: nat)
    requires Plain(s) && Move(s, tag, parent, name, now).Some?
    ensures var t := Move(s, tag, parent, name, now).value;
      Plain(t) && Flatten(t) == Flatten(s)[tag := Flatten(s)[tag].(parent := Some(parent), name := name)]
  {
    hide Vacant, Below;
    var t := Move(s, tag, parent, name, now).value;
    var nodes := Flatten(s)[tag := Flatten(s)[tag].(parent := Some(parent), name := name)];
    forall l ensures SameAt(t, nodes, l) {
    }
    FlattenedBy(t, nodes);
  }

  lemma RemoveFlattens(s: Volume, tag: Label, now: nat)
    requires Good(s) && Plain(s) && Remove(s, tag, now).Some?
    ensures var t := Remove(s, tag, now).value; Plain(t) && Flatten(t) == Flatten(s) - {tag}
  {
    var t, nodes := Remove(s, tag, now).value, Flatten(s) - {tag};
    OneLink(s, tag);
    hide Structure, AllSound;
    forall l ensures SameAt(t, nodes, l) {
    }
    FlattenedBy(t, nodes);
  }

  lemma OneLink(s: Volume, l: Label)
    requires Structure(s) && Plain(s) && l in s.names
    ensures NodeOf(s, l).links == 1
  {
    var id := s.names[l].id;
    assert Counted(s, id);
    assert NamesOf(s.names, id) == {l};
    NamedIsNotOrphaned(s, l);
    assert OrphansOf(s.orphaned, id) == {};
  }

  /** The two models agree on an operation: outside the common ground they do not
      both accept it, and there both do or neither does; the results match. */
  ghost predicate Matches(s: Volume, op: Operation, r: Option<Volume>)
    requires Plain(s)
  {
    var n := Windows.ModelStep(Flatten(s), op);
    && (Common(s, op) ==> (r.Some? <==> n.Some?))
    && (r.Some? && n.Some? ==> Common(s, op) && Plain(r.value) && Flatten(r.value) == n.value)
  }

  lemma AddMatches(s: Volume, op: Operation, now: nat)
    requires Good(s) && Plain(s) && (op.Create? || op.Mkdir?)
    ensures Matches(s, op, AddStep(s, op, now))
  {
    var content := if op.Create? then Regular(Created(op.data), false) else Directory;
    assert s.names.Keys <= s.used;
    hide Structure, AllSound, Insert, Created, Vacant, Flatten, FlatAt, Windows.Occupied, Windows.IsDirectory,
      IsDirectory, Named;
    SameChecks(s, op.parent, op.parent, op.name);
    InsertsExactly(s, content, op.tag, op.parent, op.name, now);
    if Insert(s, content, op.tag, op.parent, op.name, now).Some? {
      InsertFlattens(s, content, op.tag, op.parent, op.name, now);
      if op.Create? { CreatedData(op.data); }
    }
  }

  lemma CreatedData(data: Bytes)
    ensures Created(data).data == data
  {
  }

  lemma InsertsExactly(s: Volume, content: Content, tag: Label, parent: Label, name: Name, now: nat)
    ensures Insert(s, content, tag, parent, name, now).Some? <==>
      tag !in s.used && IsDirectory(s, parent) && Vacant(s.names, parent, name)
  {
  }

  lemma LiveIsHeld(s: Volume, l: Label)
    requires Structure(s) && l in s.names && l != ROOT
    ensures Live(s, l) && HasParent(s, l)
  {
    assert Bound(s, l);
  }

  lemma RootIsDirectory(s: Volume)
    requires Structure(s)
    ensures IsDirectory(s, ROOT)
  {
    assert Bound(s, ROOT);
  }

  lemma DataMatches(s: Volume, op: Operation, now: nat)
    requires Good(s) && Plain(s) && (op.Write? || op.Truncate?) && op.budget.None?
    ensures Matches(s, op, DataStep(s, op, now))
  {
    RootIsDirectory(s);
    hide Structure, AllSound, Files.Write, Files.Truncate, Retired;
    SameChecks(s, op.tag, op.tag, []);
    if LiveFile(s, op.tag) {
      var f := NodeOf(s, op.tag).content.file;
      assert Windows.SetData(Flatten(s), op.tag, f.data) == Flatten(s);
      if op.Write? {
        if op.data != [] {
          RewriteFlattens(s, op.tag, Files.Write(f, op.offset, op.data), now);
          WrittenData(f, op.offset, op.data);
        }
      } else if op.size == |f.data| {
        assert Resize(f.data, op.size) == f.data;
      } else {
        RewriteFlattens(s, op.tag, Files.Truncate(f, op.size), now);
        TruncatedData(f, op.size);
      }
    }
  }

  lemma WrittenData(f: File, offset: nat, data: Bytes)
    ensures Files.Write(f, offset, data).data == Overwrite(f.data, offset, data)
  {
  }

  lemma TruncatedData(f: File, size: nat)
    ensures Files.Truncate(f, size).data == Resize(f.data, size)
  {
  }

  lemma MoveMatches(s: Volume, op: Operation, now: nat)
    requires Good(s) && Plain(s) && op.Rename?
    ensures Matches(s, op, MoveStep(s, op, now))
  {
    RootIsDirectory(s);
    if op.tag in s.names && op.tag != ROOT { LiveIsHeld(s, op.tag); }
    hide Structure, AllSound, Vacant, Below;
    SameChecks(s, op.tag, op.parent, op.name);
    SameChecks(s, op.parent, op.parent, op.name);
    if MoveStep(s, op, now).Some? { MoveFlattens(s, op.tag, op.parent, op.name, now); }
  }

  lemma UnlinksExactly(s: Volume, op: Operation, now: nat)
    requires Structure(s) && (op.Unlink? || op.Rmdir?)
    ensures UnlinkStep(s, op, now).Some? <==>
      if op.Unlink? then LiveFile(s, op.tag)
      else Live(s, op.tag) && IsDirectory(s, op.tag) && Childless(s.names, op.tag)
    ensures UnlinkStep(s, op, now).Some? ==> UnlinkStep(s, op, now) == Remove(s, op.tag, now)
  {
    if op.tag in s.names && op.tag != ROOT { LiveIsHeld(s, op.tag); }
    hide Structure, Childless, DropName;
  }

  lemma UnlinkMatches(s: Volume, op: Operation, now: nat)
    requires Good(s) && Plain(s) && (op.Unlink? || op.Rmdir?)
    ensures Matches(s, op, UnlinkStep(s, op, now))
  {
    hide Structure, AllSound, Childless, Flatten, FlatAt, UnlinkStep, Remove;
    hide Windows.Occupied, Windows.IsDirectory, Windows.IsFile, Windows.HasChild;
    UnlinksExactly(s, op, now);
    if op.tag in s.names { FileHasNoChildren(s, op.tag); }
    SameChecks(s, op.tag, op.tag, []);
    if UnlinkStep(s, op, now).Some? { RemoveFlattens(s, op.tag, now); }
  }

  lemma FileHasNoChildren(s: Volume, l: Label)
    requires Structure(s) && Named(s, l)
    ensures NodeOf(s, l).content.Regular? ==> Childless(s.names, l)
  {
    forall k | k in s.names ensures s.names[k].parent == Some(l) ==> IsDirectory(s, l) { assert Bound(s, k); }
  }

  // ---------- programs

  function Volumes(r: Option<State>): Option<Volume> { if r.None? then None else Some(r.value.volume) }

  /** On the operations of the flat model the two models agree. */
  lemma StepMatches(c: Config, s: State, op: Operation, now: nat)
    requires Inv(s) && Plain(s.volume) && s.staged == [] && Shared(op)
    ensures Matches(s.volume, op, Volumes(Step(c, s, op, now)))
    ensures Step(c, s, op, now).Some? ==> Inv(Step(c, s, op, now).value) && Step(c, s, op, now).value.staged == []
  {
    hide Structure, AllSound, ViewsSound, WindowSound, Matches, AddStep, RemoveStep, ContentStep, Plain;
    if op.Remount? {
      RemountIsQuiet(c, s, now);
      SameVolumeMatches(s.volume, op);
    } else if op.Sync? {
      SameVolumeMatches(s.volume, op);
    } else if op.Create? || op.Mkdir? {
      AddMatches(s.volume, op, now);
    } else if op.Rename? {
      MoveMatches(s.volume, op, now);
      assert RemoveStep(c, s.volume, op, now) == MoveStep(s.volume, op, now) by { RemovesAs(c, s.volume, op, now); }
    } else if op.Unlink? || op.Rmdir? {
      UnlinkMatches(s.volume, op, now);
      assert RemoveStep(c, s.volume, op, now) == UnlinkStep(s.volume, op, now) by { RemovesAs(c, s.volume, op, now); }
    } else {
      DataMatches(s.volume, op, now);
      assert ContentStep(s.volume, op, now) == DataStep(s.volume, op, now) by { WritesAs(s.volume, op, now); }
    }
    if Step(c, s, op, now).Some? { StepIsHarmless(c, s, op, now); }
  }

  lemma RemovesAs(c: Config, s: Volume, op: Operation, now: nat)
    ensures op.Rename? ==> RemoveStep(c, s, op, now) == MoveStep(s, op, now)
    ensures op.Unlink? || op.Rmdir? ==> RemoveStep(c, s, op, now) == UnlinkStep(s, op, now)
  {
  }

  lemma WritesAs(s: Volume, op: Operation, now: nat)
    requires op.Write? || op.Truncate?
    ensures ContentStep(s, op, now) == DataStep(s, op, now)
  {
  }

  lemma SameVolumeMatches(s: Volume, op: Operation)
    requires Plain(s) && (op.Sync? || op.Remount?)
    ensures Matches(s, op, Some(s))
  {
  }

  /** With nothing staged a remount only closes the handles. */
  lemma RemountIsQuiet(c: Config, s: State, now: nat)
    requires s.staged == []
    ensures Step(c, s, Remount, now) == Some(s.(records := 0, handles := {}))
  {
    assert s.staged[..AcknowledgedCount(s.staged)] == [];
  }

  lemma StepIsHarmless(c: Config, s: State, op: Operation, now: nat)
    requires Inv(s) && s.staged == [] && Shared(op) && Step(c, s, op, now).Some?
    ensures Inv(Step(c, s, op, now).value) && Step(c, s, op, now).value.staged == []
  {
    hide Inv, DirectStep;
    StepExactly(c, s, op, now);
    if op.Remount? { RemountIsQuiet(c, s, now); }
  }

  /** The flat model over a program. */
  function FlatRun(nodes: Windows.Nodes, ops: seq<Operation>): Option<Windows.Nodes>
    decreases |ops|
  {
    if ops == [] then Some(nodes) else
      var r := Windows.ModelStep(nodes, ops[0]);
      if r.None? then None else FlatRun(r.value, ops[1..])
  }

  /** No label is created twice. */
  predicate NewLabels(used: set<Label>, ops: seq<Operation>)
    decreases |ops|
  {
    if ops == [] then true
    else if ops[0].Create? || ops[0].Mkdir? then ops[0].tag !in used && NewLabels(used + {ops[0].tag}, ops[1..])
    else NewLabels(used, ops[1..])
  }

  /** A program that the flat model accepts, and that creates no label twice, is
      accepted by the object model, which ends with the files of the flat model. */
  lemma {:induction false} FlatRunIsRun(c: Config, s: State, ops: seq<Operation>, index: nat)
    requires Inv(s) && Plain(s.volume) && s.staged == [] && NewLabels(s.volume.used, ops)
    requires (forall op :: op in ops ==> Shared(op)) && FlatRun(Flatten(s.volume), ops).Some?
    ensures RunFrom(c, s, ops, index).Some?
    ensures var t := RunFrom(c, s, ops, index).value;
      Plain(t.volume) && Flatten(t.volume) == FlatRun(Flatten(s.volume), ops).value
    decreases |ops|
  {
    assert Plain(s.volume);
    hide Inv, Plain, Step, Flatten, Windows.ModelStep, Shared;
    if ops != [] {
      assert Shared(ops[0]) && forall op :: op in ops[1..] ==> op in ops;
      FlatStepIsStep(c, s, ops[0], index + 1);
      var t := Step(c, s, ops[0], index + 1).value;
      assert NewLabels(t.volume.used, ops[1..]) by {
        if !ops[0].Create? && !ops[0].Mkdir? { assert t.volume.used == s.volume.used; }
      }
      FlatRunIsRun(c, t, ops[1..], index + 1);
    }
  }

  lemma FlatStepIsStep(c: Config, s: State, op: Operation, now: nat)
    requires Inv(s) && Plain(s.volume) && s.staged == [] && Shared(op)
    requires Windows.ModelStep(Flatten(s.volume), op).Some? && (op.Create? || op.Mkdir? ==> op.tag !in s.volume.used)
    ensures Step(c, s, op, now).Some?
    ensures var t := Step(c, s, op, now).value;
      && Inv(t) && t.staged == [] && Plain(t.volume)
      && Flatten(t.volume) == Windows.ModelStep(Flatten(s.volume), op).value
      && t.volume.used == s.volume.used + if op.Create? || op.Mkdir? then {op.tag} else {}
  {
    StepMatches(c, s, op, now);
    SameChecks(s.volume, if op.Rename? then op.tag else ROOT, ROOT, []);
    assert Common(s.volume, op);
    hide Inv, Plain, Flatten, Windows.ModelStep;
    UsedGrows(c, s, op, now);
  }

  lemma UsedGrows(c: Config, s: State, op: Operation, now: nat)
    requires s.staged == [] && Shared(op) && Step(c, s, op, now).Some?
    ensures Step(c, s, op, now).value.volume.used == s.volume.used + if op.Create? || op.Mkdir? then {op.tag} else {}
  {
    hide ContentStep, RemoveStep, Vacant;
    if op.Remount? {
      RemountIsQuiet(c, s, now);
    } else if !op.Create? && !op.Mkdir? {
      UsedStays(c, s.volume, op, now);
    }
  }

  lemma InitialFlattens()
    ensures Plain(Initial().volume) && Flatten(Initial().volume) == Windows.InitialNodes()
  {
    var s := Initial().volume;
    forall l ensures SameAt(s, Windows.InitialNodes(), l) {
    }
    FlattenedBy(s, Windows.InitialNodes());
  }

  /** A program generated against the flat model ends, in the object model, with the
      files the flat model expects. */
  lemma FlatProgram(c: Config, ops: seq<Operation>)
    requires (forall op :: op in ops ==> Shared(op)) && NewLabels({ROOT}, ops)
    requires FlatRun(Windows.InitialNodes(), ops).Some?
    ensures RunFrom(c, Initial(), ops, 0).Some?
    ensures var t := RunFrom(c, Initial(), ops, 0).value.volume;
      Plain(t) && Flatten(t) == FlatRun(Windows.InitialNodes(), ops).value
  {
    InitialFlattens();
    InitialIsSound();
    assert Initial().volume.used == {ROOT} && Initial().staged == [];
    hide Initial, Inv, Plain, Flatten, Shared;
    FlatRunIsRun(c, Initial(), ops, 0);
  }

  // ---------- deferred work

  /** The direct operations an operation of the window model stands for. */
  function Eager(op: Operation): seq<Operation> {
    match op
    case WindowWrite(tag, offset, data) => [Write(tag, offset, data, None)]
    case WindowTruncate(tag, size) => [Truncate(tag, size, None)]
    case WindowFsync => []
    case WindowCommit => []
    case Remount => []
    case _ => [op]
  }

  function EagerRun(ops: seq<Operation>): seq<Operation> {
    if ops == [] then [] else Eager(ops[0]) + EagerRun(ops[1..])
  }

  lemma {:induction false} FlatRunJoins(nodes: Windows.Nodes, a: seq<Operation>, b: seq<Operation>)
    requires FlatRun(nodes, a).Some?
    ensures FlatRun(nodes, a + b) == FlatRun(FlatRun(nodes, a).value, b)
    decreases |a|
  {
    hide Windows.ModelStep;
    if a == [] {
      assert a + b == b;
    } else {
      assert (a + b)[0] == a[0] && (a + b)[1..] == a[1..] + b;
      FlatRunJoins(Windows.ModelStep(nodes, a[0]).value, a[1..], b);
    }
  }

  /** The files if everything staged were published now. */
  function Pending(w: Windows.Window): Option<Windows.Nodes> { Windows.PublishAll(w.committed, w.staged) }

  /** A remount forgets work that no fsync acknowledged. */
  predicate Loses(w: Windows.Window, op: Operation) { op.Remount? && Windows.Unacknowledged(w.staged) > 0 }

  lemma StagesOne(w: Windows.Window, op: Operation)
    requires Windows.Sound(w) && Windows.Deferred(op) && Windows.WindowStep(w, op).Some?
    ensures Windows.IsFile(w.committed, op.tag)
    ensures Windows.WindowStep(w, op).value == w.(staged := w.staged + [Windows.Staged(op, false)])
  {
    hide Windows.Visible, Windows.AcknowledgedFirst;
  }

  lemma FileStays(nodes: Windows.Nodes, staged: seq<Windows.Staged>, l: Label)
    requires Windows.OnFiles(nodes, staged) && Windows.IsFile(nodes, l)
    ensures Windows.PublishAll(nodes, staged).Some? && Windows.IsFile(Windows.PublishAll(nodes, staged).value, l)
  {
    Windows.PublishSucceeds(nodes, staged);
    hide Windows.PublishAll, Windows.StageAll;
    assert Windows.PublishedAs(nodes, staged, Windows.PublishAll(nodes, staged).value, l);
  }

  lemma StageIsDirect(nodes: Windows.Nodes, op: Operation)
    requires Windows.Deferred(op) && Windows.IsFile(nodes, op.tag)
    ensures |Eager(op)| == 1
    ensures Windows.ModelStep(nodes, Eager(op)[0])
         == Some(Windows.SetData(nodes, op.tag, Windows.Stage(nodes[op.tag].content.data, op)))
  {
    hide Overwrite, Resize;
  }

  lemma StagedIsEager(nodes: Windows.Nodes, staged: seq<Windows.Staged>, x: Windows.Staged)
    requires Windows.OnFiles(nodes, staged) && Windows.Deferred(x.op) && Windows.IsFile(nodes, x.op.tag)
    ensures Windows.PublishAll(nodes, staged).Some?
    ensures FlatRun(Windows.PublishAll(nodes, staged).value, Eager(x.op)) == Windows.PublishAll(nodes, staged + [x])
    ensures Windows.PublishAll(nodes, staged + [x]).Some?
  {
    FileStays(nodes, staged, x.op.tag);
    assert (staged + [x])[..|staged|] == staged;
    hide Windows.OnFiles, Windows.ModelStep, Windows.Stage, Windows.SetData, Eager;
    StageIsDirect(Windows.PublishAll(nodes, staged).value, x.op);
    assert Eager(x.op)[1..] == [];
  }

  lemma StepIsEager(w: Windows.Window, op: Operation)
    requires Windows.Sound(w) && Windows.WindowStep(w, op).Some? && !Loses(w, op)
    ensures Pending(w).Some? && FlatRun(Pending(w).value, Eager(op)) == Pending(Windows.WindowStep(w, op).value)
    ensures Pending(Windows.WindowStep(w, op).value).Some?
  {
    hide Windows.AcknowledgedFirst, Windows.ModelStep;
    Windows.PublishSucceeds(w.committed, w.staged);
    if Windows.Deferred(op) {
      StagesOne(w, op);
      hide Windows.WindowStep, FlatRun, Windows.PublishAll;
      StagedIsEager(w.committed, w.staged, Windows.Staged(op, false));
    } else if op.WindowFsync? {
      hide Windows.OnFiles;
      Windows.PublishByOperation(w.committed, w.staged, Windows.WindowStep(w, op).value.staged);
    } else if op.WindowCommit? || op.Remount? {
      assert w.staged[..|w.staged|] == w.staged;
      Windows.Publications(w);
      hide Windows.OnFiles, Windows.WindowStep;
    } else {
      hide Windows.OnFiles;
      assert [op][1..] == [];
    }
  }

  /** No remount of the run meets unacknowledged work. */
  predicate LosesNothing(w: Windows.Window, ops: seq<Operation>)
    requires Windows.Sound(w)
    decreases |ops|
  {
    ops == [] || (
      && !Loses(w, ops[0])
      && (Windows.WindowStep(w, ops[0]).Some? ==>
            (Windows.StepKeeps(w, ops[0]); LosesNothing(Windows.WindowStep(w, ops[0]).value, ops[1..]))))
  }

  /** A program through the window, when no remount forgets work, is the same program
      done at once: what is staged at its end is all that is still to be published. */
  lemma {:induction false} WindowIsEager(w: Windows.Window, ops: seq<Operation>)
    requires Windows.Sound(w) && Windows.RunWindow(w, ops).Some? && LosesNothing(w, ops)
    ensures Pending(w).Some?
    ensures FlatRun(Pending(w).value, EagerRun(ops)) == Pending(Windows.RunWindow(w, ops).value)
    decreases |ops|
  {
    hide Windows.OnFiles, Windows.AcknowledgedFirst, Windows.WindowStep, Pending, Eager;
    if ops == [] {
      PendingExists(w);
    } else {
      var t := Windows.WindowStep(w, ops[0]).value;
      Windows.StepKeeps(w, ops[0]);
      StepIsEager(w, ops[0]);
      WindowIsEager(t, ops[1..]);
      FlatRunJoins(Pending(w).value, Eager(ops[0]), EagerRun(ops[1..]));
    }
  }

  lemma PendingExists(w: Windows.Window)
    requires Windows.Sound(w)
    ensures Pending(w).Some?
  {
    Windows.PublishSucceeds(w.committed, w.staged);
  }
}
