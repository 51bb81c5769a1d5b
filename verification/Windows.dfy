/** The flat model and the deferred window over it: staged data work, its
    acknowledged prefix and its publication. */
module Windows {
  import opened Basics
  import opened Scenario
  import opened Files

  datatype Flat = FlatDirectory | FlatFile(data: Bytes)
  datatype FlatNode = FlatNode(content: Flat, parent: Option<Label>, name: Name)
  type Nodes = map<Label, FlatNode>

  function InitialNodes(): Nodes { map[ROOT := FlatNode(FlatDirectory, None, [])] }

  predicate IsFile(nodes: Nodes, l: Label) { l in nodes && nodes[l].content.FlatFile? }
  predicate IsDirectory(nodes: Nodes, l: Label) { l in nodes && nodes[l].content.FlatDirectory? }

  predicate Occupied(nodes: Nodes, parent: Label, name: Name) {
    exists l :: l in nodes && nodes[l].parent == Some(parent) && nodes[l].name == name
  }

  predicate HasChild(nodes: Nodes, parent: Label) {
    exists l :: l in nodes && nodes[l].parent == Some(parent)
  }

  function SetData(nodes: Nodes, l: Label, data: Bytes): Nodes
    requires l in nodes
  {
    nodes[l := nodes[l].(content := FlatFile(data))]
  }

  /** One direct operation of the flat model. */
  function ModelStep(nodes: Nodes, op: Operation): Option<Nodes> {
    match op
    case Sync => Some(nodes)
    case Remount => Some(nodes)
    case Create(tag, parent, name, data) =>
      if tag in nodes || !IsDirectory(nodes, parent) || Occupied(nodes, parent, name) then None
      else Some(nodes[tag := FlatNode(FlatFile(data), Some(parent), name)])
    case Mkdir(tag, parent, name) =>
      if tag in nodes || !IsDirectory(nodes, parent) || Occupied(nodes, parent, name) then None
      else Some(nodes[tag := FlatNode(FlatDirectory, Some(parent), name)])
    case Write(tag, offset, data, None) =>
      if IsFile(nodes, tag) then Some(SetData(nodes, tag, Overwrite(nodes[tag].content.data, offset, data))) else None
    case Truncate(tag, size, None) =>
      if IsFile(nodes, tag) then Some(SetData(nodes, tag, Resize(nodes[tag].content.data, size))) else None
    case Rename(tag, parent, name) =>
      if !IsFile(nodes, tag) || !IsDirectory(nodes, parent) || Occupied(nodes, parent, name) then None
      else Some(nodes[tag := nodes[tag].(parent := Some(parent), name := name)])
    case Unlink(tag) =>
      if tag == ROOT || !IsFile(nodes, tag) || HasChild(nodes, tag) then None else Some(nodes - {tag})
    case Rmdir(tag) =>
      if tag == ROOT || !IsDirectory(nodes, tag) || HasChild(nodes, tag) then None else Some(nodes - {tag})
    case _ => None
  }

  // ---------- the window

  datatype Staged = Staged(op: Operation, acknowledged: bool)

  datatype Window = Window(committed: Nodes, staged: seq<Staged>, records: nat, touched: set<Label>)

  predicate Deferred(op: Operation) { op.WindowWrite? || op.WindowTruncate? }

  /** The effect of one staged operation on the bytes of its file. */
  function Stage(data: Bytes, op: Operation): Bytes
    requires Deferred(op)
  {
    if op.WindowTruncate? then Resize(data, op.size) else Overwrite(data, op.offset, op.data)
  }

  /** Every staged operation is deferred work on a committed file. */
  predicate OnFiles(nodes: Nodes, staged: seq<Staged>) {
    forall x :: x in staged ==> Deferred(x.op) && IsFile(nodes, x.op.tag)
  }

  function StageAll(data: Bytes, staged: seq<Staged>, l: Label): Bytes
    requires forall x :: x in staged ==> Deferred(x.op)
  {
    if staged == [] then data else
      var n := |staged| - 1;
      var before := StageAll(data, staged[..n], l);
      assert staged[n] in staged && Deferred(staged[n].op);
      if staged[n].op.tag == l then Stage(before, staged[n].op) else before
  }

  /** Bytes a reader sees through the open window. */
  function Visible(w: Window, l: Label): Bytes
    requires OnFiles(w.committed, w.staged) && IsFile(w.committed, l)
  {
    StageAll(w.committed[l].content.data, w.staged, l)
  }

  function Unacknowledged(staged: seq<Staged>): (n: nat)
    ensures n <= |staged|
  {
    if staged == [] then 0 else
      Unacknowledged(staged[..|staged| - 1]) + if staged[|staged| - 1].acknowledged then 0 else 1
  }

  /** Apply the staged operations in order; a dead label stops the publication. */
  function PublishAll(nodes: Nodes, staged: seq<Staged>): Option<Nodes> {
    if staged == [] then Some(nodes) else
      var n := |staged| - 1;
      var r := PublishAll(nodes, staged[..n]);
      if r.None? || !Deferred(staged[n].op) || !IsFile(r.value, staged[n].op.tag) then None
      else Some(SetData(r.value, staged[n].op.tag, Stage(r.value[staged[n].op.tag].content.data, staged[n].op)))
  }

  function Labels(staged: seq<Staged>): set<Label> {
    set x | x in staged && Deferred(x.op) :: x.op.tag
  }

  function Publish(w: Window, count: nat): Option<Window>
    requires count <= |w.staged|
  {
    var r := PublishAll(w.committed, w.staged[..count]);
    if r.None? then None else Some(Window(r.value, [], 0, w.touched + Labels(w.staged[..count])))
  }

  function AcknowledgeAll(staged: seq<Staged>): seq<Staged> {
    seq(|staged|, i requires 0 <= i < |staged| => staged[i].(acknowledged := true))
  }

  /** One operation through the window model. */
  function WindowStep(w: Window, op: Operation): Option<Window>
    requires OnFiles(w.committed, w.staged)
  {
    match op
    case WindowWrite(tag, offset, data) =>
      if !IsFile(w.committed, tag) || data == [] then None else Some(w.(staged := w.staged + [Staged(op, false)]))
    case WindowTruncate(tag, size) =>
      if !IsFile(w.committed, tag) || size == |Visible(w, tag)| then None
      else Some(w.(staged := w.staged + [Staged(op, false)]))
    case WindowFsync =>
      if Unacknowledged(w.staged) == 0 then Some(w)
      else if Unacknowledged(w.staged) > 64 || w.records >= 8 then None
      else Some(w.(staged := AcknowledgeAll(w.staged), records := w.records + 1))
    case WindowCommit => Publish(w, |w.staged|)
    case Remount => Publish(w, |w.staged| - Unacknowledged(w.staged))
    case _ =>
      if w.staged != [] then None else
        var r := ModelStep(w.committed, op);
        if r.None? then None else Some(w.(committed := r.value))
  }

  // ---------- properties

  /** Acknowledged work comes first. */
  ghost predicate AcknowledgedFirst(staged: seq<Staged>) {
    forall i, j :: 0 <= i < j < |staged| && staged[j].acknowledged ==> staged[i].acknowledged
  }

  ghost predicate Sound(w: Window) {
    OnFiles(w.committed, w.staged) && AcknowledgedFirst(w.staged) && w.records <= 8
  }

  lemma {:induction false} CountIsPrefix(staged: seq<Staged>)
    requires AcknowledgedFirst(staged)
    ensures forall i :: 0 <= i < |staged| ==> (staged[i].acknowledged <==> i < |staged| - Unacknowledged(staged))
  {
    if staged != [] {
      var n := |staged| - 1;
      CountIsPrefix(staged[..n]);
      assert forall i :: 0 <= i < n ==> staged[..n][i] == staged[i];
    }
  }

  /** Staged work never loses its file, so a publication of sound work succeeds;
      a file then holds what the staged operations made of it. */
  lemma {:induction false} PublishSucceeds(nodes: Nodes, staged: seq<Staged>)
    requires OnFiles(nodes, staged)
    ensures PublishAll(nodes, staged).Some?
    ensures PublishAll(nodes, staged).value.Keys == nodes.Keys
    ensures forall l :: l in nodes ==> PublishedAs(nodes, staged, PublishAll(nodes, staged).value, l)
  {
    if staged != [] {
      var n := |staged| - 1;
      assert forall x :: x in staged[..n] ==> x in staged;
      PublishSucceeds(nodes, staged[..n]);
      assert staged[n] in staged;
      var before, after := PublishAll(nodes, staged[..n]).value, PublishAll(nodes, staged).value;
      assert PublishedAs(nodes, staged[..n], before, staged[n].op.tag);
      forall l | l in nodes ensures PublishedAs(nodes, staged, after, l) {
        assert PublishedAs(nodes, staged[..n], before, l);
      }
    }
  }

  /** Names and directories stay; a file holds its staged bytes. */
  ghost predicate PublishedAs(nodes: Nodes, staged: seq<Staged>, after: Nodes, l: Label)
    requires l in nodes && forall x :: x in staged ==> Deferred(x.op)
  {
    && l in after && after[l].parent == nodes[l].parent && after[l].name == nodes[l].name
    && after[l].content == (if nodes[l].content.FlatFile? then FlatFile(StageAll(nodes[l].content.data, staged, l))
                            else FlatDirectory)
  }

  /** A commit leaves in every file exactly what was visible through the window. */
  lemma CommitIsVisible(w: Window, l: Label)
    requires Sound(w) && IsFile(w.committed, l)
    ensures var r := WindowStep(w, WindowCommit);
      r.Some? && IsFile(r.value.committed, l) && r.value.committed[l].content.data == Visible(w, l)
  {
    assert w.staged[..|w.staged|] == w.staged;
    PublishSucceeds(w.committed, w.staged);
    assert PublishedAs(w.committed, w.staged, PublishAll(w.committed, w.staged).value, l);
  }

  /** A remount publishes the acknowledged operations, all of them and no other. */
  lemma RemountIsAcknowledged(w: Window)
    requires Sound(w)
    ensures var n := |w.staged| - Unacknowledged(w.staged);
      && (forall i :: 0 <= i < |w.staged| ==> (w.staged[i].acknowledged <==> i < n))
      && WindowStep(w, Remount).Some?
      && WindowStep(w, Remount).value.committed == PublishAll(w.committed, w.staged[..n]).value
  {
    var n := |w.staged| - Unacknowledged(w.staged);
    CountIsPrefix(w.staged);
    assert forall x :: x in w.staged[..n] ==> x in w.staged;
    PublishSucceeds(w.committed, w.staged[..n]);
  }

  /** Publishing looks at operations, not at their acknowledgement. */
  lemma {:induction false} PublishByOperation(nodes: Nodes, a: seq<Staged>, b: seq<Staged>)
    requires |a| == |b| && forall i :: 0 <= i < |a| ==> a[i].op == b[i].op
    ensures PublishAll(nodes, a) == PublishAll(nodes, b)
  {
    if a != [] { PublishByOperation(nodes, a[..|a| - 1], b[..|b| - 1]); }
  }

  lemma LabelsByOperation(a: seq<Staged>, b: seq<Staged>)
    requires |a| == |b| && forall i :: 0 <= i < |a| ==> a[i].op == b[i].op
    ensures Labels(a) == Labels(b)
  {
    forall l | l in Labels(a) ensures l in Labels(b) {
      var x :| x in a && Deferred(x.op) && x.op.tag == l;
      var i :| 0 <= i < |a| && a[i] == x;
      assert b[i] in b;
    }
    forall l | l in Labels(b) ensures l in Labels(a) {
      var x :| x in b && Deferred(x.op) && x.op.tag == l;
      var i :| 0 <= i < |b| && b[i] == x;
      assert a[i] in a;
    }
  }

  /** A successful fsync followed by a remount gives what a commit gives. */
  lemma FsyncThenRemountIsCommit(w: Window)
    requires Sound(w) && WindowStep(w, WindowFsync).Some?
    ensures var f := WindowStep(w, WindowFsync).value;
      Sound(f) && WindowStep(f, Remount) == WindowStep(w, WindowCommit)
  {
    var f := WindowStep(w, WindowFsync).value;
    hide WindowStep, PublishAll, Labels, OnFiles;
    StepKeeps(w, WindowFsync);
    FsyncAcknowledges(w);
    Publications(w);
    Publications(f);
    CountIsPrefix(f.staged);
    assert Unacknowledged(f.staged) == 0 by {
      if f.staged != [] { assert f.staged[|f.staged| - 1].acknowledged; }
    }
    assert w.staged[..|w.staged|] == w.staged && f.staged[..|f.staged|] == f.staged;
    PublishByOperation(w.committed, f.staged, w.staged);
    LabelsByOperation(f.staged, w.staged);
  }

  /** What a successful fsync leaves: the same operations, all acknowledged. */
  lemma FsyncAcknowledges(w: Window)
    requires Sound(w) && WindowStep(w, WindowFsync).Some?
    ensures var f := WindowStep(w, WindowFsync).value;
      && f.committed == w.committed && f.touched == w.touched && |f.staged| == |w.staged|
      && forall i :: 0 <= i < |f.staged| ==> f.staged[i].op == w.staged[i].op && f.staged[i].acknowledged
  {
    CountIsPrefix(w.staged);
  }

  lemma Publications(w: Window)
    requires OnFiles(w.committed, w.staged)
    ensures WindowStep(w, WindowCommit) == Publish(w, |w.staged|)
    ensures WindowStep(w, Remount) == Publish(w, |w.staged| - Unacknowledged(w.staged))
  {
  }

  /** Every accepted operation keeps the window sound. */
  lemma StepKeeps(w: Window, op: Operation)
    requires Sound(w) && WindowStep(w, op).Some?
    ensures Sound(WindowStep(w, op).value)
  {
    if op.WindowFsync? {
      var t := WindowStep(w, op).value;
      forall x | x in t.staged ensures Deferred(x.op) && IsFile(t.committed, x.op.tag) {
        var i :| 0 <= i < |t.staged| && t.staged[i] == x;
        assert w.staged[i] in w.staged;
      }
    }
  }

  function RunWindow(w: Window, ops: seq<Operation>): Option<Window>
    requires Sound(w)
    decreases |ops|
  {
    if ops == [] then Some(w) else
      var r := WindowStep(w, ops[0]);
      if r.None? then None else StepKeeps(w, ops[0]); RunWindow(r.value, ops[1..])
  }

  function InitialWindow(): Window { Window(InitialNodes(), [], 0, {}) }

  /** In every state that a program reaches, a commit and a remount succeed: no
      publication meets a label that is gone. */
  lemma {:induction false} RunNeverMeetsDeadLabel(w: Window, ops: seq<Operation>)
    requires Sound(w) && RunWindow(w, ops).Some?
    ensures var t := RunWindow(w, ops).value;
      Sound(t) && WindowStep(t, WindowCommit).Some? && WindowStep(t, Remount).Some?
    decreases |ops|
  {
    if ops == [] {
      assert w.staged[..|w.staged|] == w.staged;
      PublishSucceeds(w.committed, w.staged);
      RemountIsAcknowledged(w);
    } else {
      StepKeeps(w, ops[0]);
      RunNeverMeetsDeadLabel(WindowStep(w, ops[0]).value, ops[1..]);
    }
  }

  lemma PublishOneMore(nodes: Nodes, staged: seq<Staged>, i: nat)
    requires i < |staged| && Deferred(staged[i].op)
    ensures Labels(staged[..i + 1]) == Labels(staged[..i]) + {staged[i].op.tag}
    ensures var r, op := PublishAll(nodes, staged[..i]), staged[i].op;
      r.Some? && IsFile(r.value, op.tag) ==>
        PublishAll(nodes, staged[..i + 1]) == Some(SetData(r.value, op.tag, Stage(r.value[op.tag].content.data, op)))
  {
    assert staged[..i + 1][..i] == staged[..i];
    assert staged[..i + 1] == staged[..i] + [staged[i]];
  }

  // ---------- the objects that the fuzzer drives

  /** Flat labels to nodes, changed in place by each direct operation. */
  class Model {
    var nodes: Nodes

    constructor ()
      ensures nodes == InitialNodes()
    {
      nodes := map[ROOT := FlatNode(FlatDirectory, None, [])];
    }

    method Insert(tag: Label, content: Flat, parent: Label, name: Name) returns (ok: bool)
      modifies this
      ensures ok == (tag !in old(nodes) && IsDirectory(old(nodes), parent) && !Occupied(old(nodes), parent, name))
      ensures nodes == if ok then old(nodes)[tag := FlatNode(content, Some(parent), name)] else old(nodes)
    {
      ok := tag !in nodes && IsDirectory(nodes, parent) && !Occupied(nodes, parent, name);
      if ok { nodes := nodes[tag := FlatNode(content, Some(parent), name)]; }
    }

    method Remove(tag: Label, expected: bool) returns (ok: bool)
      modifies this
      ensures ok == (tag != ROOT && expected && tag in old(nodes) && !HasChild(old(nodes), tag))
      ensures nodes == if ok then old(nodes) - {tag} else old(nodes)
    {
      ok := tag != ROOT && expected && tag in nodes && !HasChild(nodes, tag);
      if ok { nodes := nodes - {tag}; }
    }

    method Apply(op: Operation) returns (ok: bool)
      modifies this
      ensures ok == ModelStep(old(nodes), op).Some?
      ensures nodes == if ok then ModelStep(old(nodes), op).value else old(nodes)
    {
      if op.Sync? || op.Remount? {
        return true;
      } else if op.Create? {
        ok := Insert(op.tag, FlatFile(op.data), op.parent, op.name);
      } else if op.Mkdir? {
        ok := Insert(op.tag, FlatDirectory, op.parent, op.name);
      } else if op.Write? && op.budget.None? {
        if !IsFile(nodes, op.tag) { return false; }
        assert SetData(nodes, op.tag, nodes[op.tag].content.data) == nodes;
        if op.data != [] {
          var data, end := nodes[op.tag].content.data, op.offset + |op.data|;
          data := data + Zeros(if end > |data| then end - |data| else 0);
          data := data[..op.offset] + op.data + data[end..];
          assert data == Overwrite(nodes[op.tag].content.data, op.offset, op.data);
          nodes := SetData(nodes, op.tag, data);
        }
        ok := true;
      } else if op.Truncate? && op.budget.None? {
        if !IsFile(nodes, op.tag) { return false; }
        var data := nodes[op.tag].content.data;
        if op.size < |data| { data := data[..op.size]; }
        data := data + Zeros(op.size - |data|);
        assert data == Resize(nodes[op.tag].content.data, op.size);
        nodes := SetData(nodes, op.tag, data);
        ok := true;
      } else if op.Rename? {
        if !IsFile(nodes, op.tag) || !IsDirectory(nodes, op.parent) || Occupied(nodes, op.parent, op.name) {
          return false;
        }
        nodes := nodes[op.tag := nodes[op.tag].(parent := Some(op.parent), name := op.name)];
        ok := true;
      } else if op.Unlink? {
        ok := Remove(op.tag, IsFile(nodes, op.tag));
      } else if op.Rmdir? {
        ok := Remove(op.tag, IsDirectory(nodes, op.tag));
      } else {
        ok := false;
      }
    }
  }

  /** Committed model plus staged deferred work. */
  class WindowModel {
    const committed: Model
    var staged: seq<Staged>
    var records: nat
    var touched: set<Label>

    ghost function W(): Window
      reads this, committed
    {
      Window(committed.nodes, staged, records, touched)
    }

    constructor ()
      ensures fresh(committed) && W() == InitialWindow()
    {
      committed := new Model();
      staged, records, touched := [], 0, {};
    }

    /** Replay the staged operations of one file over its committed bytes. */
    method VisibleBytes(l: Label) returns (data: Bytes)
      requires OnFiles(committed.nodes, staged) && IsFile(committed.nodes, l)
      ensures data == Visible(W(), l)
    {
      data := committed.nodes[l].content.data;
      for i := 0 to |staged|
        invariant forall x :: x in staged[..i] ==> Deferred(x.op)
        invariant data == StageAll(committed.nodes[l].content.data, staged[..i], l)
      {
        assert staged[i] in staged;
        assert staged[..i + 1][..i] == staged[..i];
        if staged[i].op.tag == l { data := Stage(data, staged[i].op); }
      }
      assert staged[..|staged|] == staged;
    }

    /** Publish a prefix of the staged work and drop the rest. */
    method PublishPrefix(count: nat)
      requires count <= |staged| && OnFiles(committed.nodes, staged)
      modifies this, committed
      ensures Publish(old(W()), count) == Some(W())
    {
      ghost var nodes, before := committed.nodes, touched;
      for i := 0 to count
        invariant staged == old(staged)
        invariant PublishAll(nodes, staged[..i]) == Some(committed.nodes)
        invariant touched == before + Labels(staged[..i])
        invariant OnFiles(committed.nodes, staged)
      {
        var op := staged[i].op;
        assert staged[i] in staged && Deferred(op);
        PublishOneMore(nodes, staged, i);
        touched := touched + {op.tag};
        committed.nodes := SetData(committed.nodes, op.tag, Stage(committed.nodes[op.tag].content.data, op));
      }
      staged, records := [], 0;
    }

    method Apply(op: Operation) returns (ok: bool)
      requires Sound(W())
      modifies this, committed
      ensures ok == WindowStep(old(W()), op).Some?
      ensures W() == if ok then WindowStep(old(W()), op).value else old(W())
    {
      if op.WindowWrite? || op.WindowTruncate? {
        if !IsFile(committed.nodes, op.tag) { return false; }
        if op.WindowWrite? && op.data == [] { return false; }
        if op.WindowTruncate? {
          var data := VisibleBytes(op.tag);
          if op.size == |data| { return false; }
        }
        staged := staged + [Staged(op, false)];
        ok := true;
      } else if op.WindowFsync? {
        if Unacknowledged(staged) == 0 { return true; }
        if Unacknowledged(staged) > 64 || records >= 8 { return false; }
        staged, records := AcknowledgeAll(staged), records + 1;
        ok := true;
      } else if op.WindowCommit? {
        PublishPrefix(|staged|);
        ok := true;
      } else if op.Remount? {
        PublishPrefix(|staged| - Unacknowledged(staged));
        ok := true;
      } else if staged != [] {
        ok := false;
      } else {
        ok := committed.Apply(op);
      }
    }
  }
}
