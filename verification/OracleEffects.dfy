/** What the direct operations leave behind: where each label stands, and the
    bytes a reader gets from it. */
module OracleEffects {
  import opened Basics
  import opened Scenario
  import opened Namespace
  import opened Files
  import opened Oracle
  import opened OracleMembers
  import opened OracleTimes

  // ---------- the namespace by itself

  function Place(id: nat, parent: Label, name: Name): Entry { Entry(id, Some(parent), name) }

  /** The names after an operation, from the names before it. */
  function NamesAfter(n: Names, next: nat, op: Operation): Names {
    match op
    case Create(tag, parent, name, _) => n[tag := Place(next, parent, name)]
    case Mkdir(tag, parent, name) => n[tag := Place(next, parent, name)]
    case Symlink(tag, parent, name, _) => n[tag := Place(next, parent, name)]
    case CloneFile(tag, _, parent, name) => n[tag := Place(next, parent, name)]
    case Link(tag, source, parent, name) => if source in n then n[tag := Place(n[source].id, parent, name)] else n
    case Rename(tag, parent, name) => if tag in n then n[tag := Place(n[tag].id, parent, name)] else n
    case RenameReplace(tag, victim, parent, name, _) =>
      if tag in n then (n - {victim})[tag := Place(n[tag].id, parent, name)] else n
    case Unlink(tag) => n - {tag}
    case UnlinkSymlink(tag) => n - {tag}
    case Rmdir(tag) => n - {tag}
    case OrphanFile(tag) => n - {tag}
    case _ => n
  }

  lemma AddNames(s: Volume, op: Operation, now: nat)
    requires AddStep(s, op, now).Some?
    ensures AddStep(s, op, now).value.names == NamesAfter(s.names, s.nextObject, op)
  {
    hide Vacant;
  }

  lemma RemoveNames(c: Config, s: Volume, op: Operation, now: nat)
    requires RemoveStep(c, s, op, now).Some?
    ensures RemoveStep(c, s, op, now).value.names == NamesAfter(s.names, s.nextObject, op)
  {
    hide Vacant, Below, Childless;
  }

  lemma ContentNames(s: Volume, op: Operation, now: nat)
    requires ContentStep(s, op, now).Some?
    ensures ContentStep(s, op, now).value.names == s.names == NamesAfter(s.names, s.nextObject, op)
  {
    hide Files.Write, Files.Truncate, CloneDestination, CloneSource, Files.Preallocate, Retired, Holes, Cloneable;
  }

  /** The namespace moves by itself: no operation consults contents to place a name. */
  lemma NamesMove(c: Config, s: Volume, op: Operation, now: nat)
    requires !op.Batch? && DirectStep(c, s, op, now).Some?
    ensures DirectStep(c, s, op, now).value.names == NamesAfter(s.names, s.nextObject, op)
  {
    hide AddStep, RemoveStep, ContentStep, NamesAfter;
    if AddOperation(op) {
      AddNames(s, op, now);
    } else if RemoveOperation(op) {
      RemoveNames(c, s, op, now);
    } else {
      ContentNames(s, op, now);
    }
  }

  // ---------- what a new label reads

  /** The content behind a label. */
  function Behind(s: Volume, l: Label): Option<Content> { if Named(s, l) then Some(NodeOf(s, l).content) else None }

  lemma NewLabelReads(s: Volume, op: Operation, now: nat)
    requires AddStep(s, op, now).Some? && Spent(s)
    ensures var t := AddStep(s, op, now).value;
      match op
      case Create(tag, _, _, data) =>
        LiveFileOf(t, tag).Some? && LiveFileOf(t, tag).value.data == data && LiveFileOf(t, tag).value.shared == {}
      case Mkdir(tag, _, _) => Behind(t, tag) == Some(Directory)
      case Symlink(tag, _, _, target) => Behind(t, tag) == Some(Content.Symlink(target))
      case Link(tag, source, _, _) => Behind(t, tag) == Behind(s, source) == Behind(t, source)
      case _ => true
  {
    hide Vacant;
  }

  /** A clone reads as its source does, block for block, with every block of both shared. */
  lemma CloneHolds(s: Volume, tag: Label, source: Label, parent: Label, name: Name, now: nat)
    requires Clone(s, tag, source, parent, name, now).Some? && Spent(s)
    ensures var t := Clone(s, tag, source, parent, name, now).value;
      var f, g, h := LiveFileOf(s, source), LiveFileOf(t, tag), LiveFileOf(t, source);
      && f.Some? && g.Some? && h.Some?
      && g.value.data == h.value.data == f.value.data
      && g.value.blocks == h.value.blocks == f.value.blocks
      && g.value.shared == h.value.shared == f.value.blocks.Keys
      && t.objects[t.names[tag].id].protection == s.objects[s.names[source].id].protection
      && t.objects[t.names[tag].id].modified == s.objects[s.names[source].id].modified
      && !Policy(t.objects[t.names[tag].id]) && t.names[tag].id != t.names[source].id
  {
    hide Vacant;
  }

  // ---------- which bytes an operation writes

  /** The object an operation writes. */
  function Target(s: Volume, op: Operation): Option<nat> {
    match op
    case Write(tag, _, _, _) => if tag in s.names then Some(s.names[tag].id) else None
    case Truncate(tag, _, _) => if tag in s.names then Some(s.names[tag].id) else None
    case CloneRange(_, _, dest, _, _) => if dest in s.names then Some(s.names[dest].id) else None
    case _ => None
  }

  ghost predicate OthersRead(s: Volume, t: Volume, target: Option<nat>) {
    forall id :: id in s.objects && id in t.objects && target != Some(id) ==>
      Payload(s.objects[id]) == Payload(t.objects[id])
  }

  lemma AddReads(s: Volume, op: Operation, now: nat)
    requires AddStep(s, op, now).Some? && Spent(s)
    ensures OthersRead(s, AddStep(s, op, now).value, None)
  {
    hide Vacant;
  }

  lemma DropReads(s: Volume, tag: Label, orphan: bool, now: nat)
    requires Named(s, tag)
    ensures OthersRead(s, DropName(s, tag, orphan, now), None)
  {
  }

  lemma StampsRead(s: Volume, tag: Label, parent: Label, now: nat)
    requires Named(s, tag) && HasParent(s, tag) && Named(s, parent)
    ensures OthersRead(s, Stamps(s, tag, parent, now), None)
    ensures Stamps(s, tag, parent, now).objects.Keys == s.objects.Keys
  {
  }

  lemma MoveReads(s: Volume, op: Operation, now: nat)
    requires MoveStep(s, op, now).Some?
    ensures OthersRead(s, MoveStep(s, op, now).value, None)
  {
    hide Vacant, Below, Payload, DropName;
    StampsRead(Tick(s), op.tag, op.parent, now);
    if op.RenameReplace? { DropReads(Stamps(Tick(s), op.tag, op.parent, now), op.victim, op.orphan, now); }
  }

  lemma UnlinkReads(s: Volume, tag: Label, orphan: bool, now: nat)
    requires Live(s, tag) && HasParent(s, tag)
    ensures OthersRead(s, DropName(TouchParent(Tick(s), tag, now), tag, orphan, now), None)
  {
    DropReads(TouchParent(Tick(s), tag, now), tag, orphan, now);
    hide DropName;
    assert OthersRead(s, TouchParent(Tick(s), tag, now), None);
  }

  lemma RemoveReads(c: Config, s: Volume, op: Operation, now: nat)
    requires RemoveStep(c, s, op, now).Some?
    ensures OthersRead(s, RemoveStep(c, s, op, now).value, None)
  {
    hide Childless, MoveStep, DropName, Payload;
    if op.Rename? || op.RenameReplace? {
      MoveReads(s, op, now);
    } else if !op.CleanupOrphan? {
      UnlinkReads(s, op.tag, op.OrphanFile?, now);
    }
  }

  lemma ContentReads(s: Volume, op: Operation, now: nat)
    requires ContentStep(s, op, now).Some?
    ensures OthersRead(s, ContentStep(s, op, now).value, Target(s, op))
  {
    hide Files.Write, Files.Truncate, CloneDestination, Retired, Holes, Files.Marked, Cloneable;
  }

  /** Only the target of a write, a truncation or a range clone reads differently. */
  lemma OthersStay(c: Config, s: Volume, op: Operation, now: nat)
    requires !op.Batch? && DirectStep(c, s, op, now).Some? && Spent(s)
    ensures OthersRead(s, DirectStep(c, s, op, now).value, Target(s, op))
  {
    hide AddStep, RemoveStep, ContentStep, OthersRead;
    if AddOperation(op) {
      AddReads(s, op, now);
    } else if RemoveOperation(op) {
      RemoveReads(c, s, op, now);
    } else {
      ContentReads(s, op, now);
    }
  }

  // ---------- what the written file reads

  /** A write puts its bytes at the offset; a gap reads as zeros and the rest stays. */
  lemma WrittenReads(s: Volume, l: Label, offset: nat, data: Bytes, budget: Option<Budget>, now: nat)
    requires WriteFile(s, l, offset, data, budget, now).Some?
    ensures var f, g := LiveFileOf(s, l), LiveFileOf(WriteFile(s, l, offset, data, budget, now).value, l);
      && f.Some? && g.Some?
      && |g.value.data| == (if data != [] && |f.value.data| < offset + |data| then offset + |data| else |f.value.data|)
      && forall i :: 0 <= i < |g.value.data| ==>
           g.value.data[i] == if offset <= i < offset + |data| then data[i - offset]
                              else if i < |f.value.data| then f.value.data[i] else 0
  {
  }

  lemma TruncatedReads(s: Volume, l: Label, size: nat, budget: Option<Budget>, now: nat)
    requires TruncateFile(s, l, size, budget, now).Some?
    ensures var f, g := LiveFileOf(s, l), LiveFileOf(TruncateFile(s, l, size, budget, now).value, l);
      && f.Some? && g.Some? && |g.value.data| == size
      && forall i :: 0 <= i < size ==> g.value.data[i] == if i < |f.value.data| then f.value.data[i] else 0
  {
    hide Retired;
  }

  /** A range clone copies the source's bytes as they were, and leaves the source's alone. */
  lemma ClonedReads(s: Volume, source: Label, start: nat, dest: Label, target: nat, length: nat, now: nat)
    requires CloneRangeOf(s, source, start, dest, target, length, now).Some?
    ensures var t := CloneRangeOf(s, source, start, dest, target, length, now).value;
      var f, d, g, h := LiveFileOf(s, source), LiveFileOf(s, dest), LiveFileOf(t, dest), LiveFileOf(t, source);
      && f.Some? && d.Some? && g.Some? && h.Some? && h.value.data == f.value.data
      && start + length <= |f.value.data|
      && |g.value.data| == (if length > 0 && |d.value.data| < target + length then target + length else |d.value.data|)
      && forall i :: 0 <= i < |g.value.data| ==>
           g.value.data[i] == if target <= i < target + length then f.value.data[start + i - target]
                              else if i < |d.value.data| then d.value.data[i] else 0
  {
    hide CloneBlocks, Files.Marked;
  }

  /** Attribute operations set exactly what they name. */
  lemma AttributesRead(s: Volume, op: Operation, now: nat)
    requires AttributeStep(s, op, now).Some?
    ensures var t := AttributeStep(s, op, now).value;
      && Named(s, op.tag) && Named(t, op.tag) && Payload(NodeOf(t, op.tag)) == Payload(NodeOf(s, op.tag))
      && (op.SetDataPolicy? ==> Policy(NodeOf(t, op.tag)) == op.policy)
      && (op.SetProtection? ==>
            NodeOf(t, op.tag).protection == op.protection && Policy(NodeOf(t, op.tag)) == Policy(NodeOf(s, op.tag)))
      && (op.RestoreMetadata? ==>
            && NodeOf(t, op.tag).protection == op.protection && NodeOf(t, op.tag).created == op.created
            && NodeOf(t, op.tag).modified == op.modified && NodeOf(t, op.tag).changed == op.changed)
  {
  }

  // ---------- when a bounded operation is refused

  lemma {:induction false} SpanSize(first: nat, last: nat)
    requires first <= last
    ensures |Files.Span(first, last)| == last - first
    decreases last - first
  {
    if first == last {
      assert Files.Span(first, last) == {};
    } else {
      SpanSize(first, last - 1);
      assert Files.Span(first, last) == Files.Span(first, last - 1) + {last - 1};
    }
  }

  /** A bounded write is refused exactly when it touches more blocks than its budget. */
  lemma WriteIsAccepted(s: Volume, l: Label, offset: nat, data: Bytes, budget: Option<Budget>, now: nat)
    ensures WriteFile(s, l, offset, data, budget, now).Some? <==>
      LiveFile(s, l) && (data == [] || budget.None? || |Touched(offset, |data|)| <= budget.value.maxBlocks)
  {
    if data != [] { SpanSize(offset / 4096, Blocks(offset + |data|)); }
    hide Rewrite, Files.Write, Span;
  }

  /** A bounded reservation likewise, whether or not there is anything to reserve. */
  lemma ReserveIsAccepted(s: Volume, l: Label, offset: nat, length: nat, budget: Option<Budget>, now: nat)
    ensures Reserve(s, l, offset, length, budget, now).Some? <==>
      LiveFile(s, l) && (length == 0 || budget.None? || |Touched(offset, length)| <= budget.value.maxBlocks)
  {
    if length > 0 { SpanSize(offset / 4096, Blocks(offset + length)); }
    hide Amend, Files.Preallocate, Span;
  }

  /** A bounded truncation is refused exactly when the shrink gives up more blocks
      than its budget, counting the rewrite of a written partial tail. */
  lemma TruncateIsAccepted(s: Volume, l: Label, size: nat, budget: Option<Budget>, now: nat)
    ensures TruncateFile(s, l, size, budget, now).Some? <==>
      && LiveFileOf(s, l).Some? && l != ROOT
      && (budget.None? || |LiveFileOf(s, l).value.data| <= size
          || Retired(LiveFileOf(s, l).value, size) <= budget.value.maxBlocks)
  {
    hide Rewrite, Files.Truncate, Retired;
  }
}
