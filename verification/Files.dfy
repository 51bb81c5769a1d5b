/** Bytes and logical block map of one regular file. */
module Files {
  import opened Basics

  /** A mapped block is absent from `blocks` when it is a hole; its flag says
      whether it is reserved but unwritten. `shared` holds the mapped blocks
      that another file may also use. */
  datatype File = File(data: Bytes, blocks: map<nat, bool>, shared: set<nat>)

  predicate Written(blocks: map<nat, bool>, b: nat) { b in blocks && !blocks[b] }

  /** Holes and reservations read as zero. */
  ghost predicate ZeroOutside(data: Bytes, blocks: map<nat, bool>) {
    forall i :: 0 <= i < |data| && data[i] != 0 ==> Written(blocks, i / 4096)
  }

  /** Every written block starts before the end of the file. */
  ghost predicate WithinData(data: Bytes, blocks: map<nat, bool>) {
    forall b: nat :: Written(blocks, b) ==> b * 4096 < |data|
  }

  /** What every reachable file keeps. */
  ghost predicate Consistent(f: File) {
    ZeroOutside(f.data, f.blocks) && WithinData(f.data, f.blocks) && f.shared <= f.blocks.Keys
  }

  /** `resize`: cut, or extend with zeros. */
  function Resize(data: Bytes, size: nat): (r: Bytes)
    ensures |r| == size
    ensures forall i :: 0 <= i < size ==> r[i] == if i < |data| then data[i] else 0
  {
    if size <= |data| then data[..size] else data + Zeros(size - |data|)
  }

  /** `overwrite`: a gap before the offset reads as zeros, an empty write does nothing. */
  function Overwrite(data: Bytes, offset: nat, incoming: Bytes): (r: Bytes)
    ensures |r| == if incoming == [] || offset + |incoming| <= |data| then |data| else offset + |incoming|
    ensures forall i :: 0 <= i < |r| ==>
      r[i] == if offset <= i < offset + |incoming| then incoming[i - offset] else if i < |data| then data[i] else 0
  {
    if incoming == [] then data else
      var end := offset + |incoming|;
      var d := if end <= |data| then data else Resize(data, end);
      d[..offset] + incoming + d[end..]
  }

  /** Blocks first, first + 1, ... last - 1. */
  function Span(first: nat, last: nat): (r: set<nat>)
    ensures forall b :: b in r <==> first <= b < last
    decreases last
  {
    if last <= first then {} else Span(first, last - 1) + {last - 1}
  }

  function Created(data: Bytes): File {
    File(data, map b | b in Span(0, Blocks(|data|)) :: false, {})
  }

  /** Blocks that a write of `count` bytes at `offset` touches. */
  function Touched(offset: nat, count: nat): set<nat> {
    Span(offset / 4096, Blocks(offset + count))
  }

  function Write(f: File, offset: nat, incoming: Bytes): File {
    var touched := Touched(offset, |incoming|);
    File(Overwrite(f.data, offset, incoming), f.blocks + map b | b in touched :: false, f.shared - touched)
  }

  /** A shrink releases every block past the retained size and rewrites a
      written partial tail into private storage; a growth releases nothing. */
  function Truncate(f: File, size: nat): File {
    if size >= |f.data| then f.(data := Resize(f.data, size)) else
      var retained := Blocks(size);
      var mapped := map b | b in f.blocks && b < retained :: f.blocks[b];
      var shared := set b | b in f.shared && b < retained;
      var tail := if size % 4096 != 0 && Written(mapped, retained - 1) then {retained - 1} else {};
      File(Resize(f.data, size), mapped, shared - tail)
  }

  /** Mapped blocks from the given one on. */
  function Past(blocks: map<nat, bool>, keep: nat): set<nat> { set b | b in blocks && b >= keep }

  /** Blocks a bounded shrink retires, counting the rewrite of a written partial tail. */
  function Retired(f: File, size: nat): nat {
    var keep := Blocks(size);
    |Past(f.blocks, keep)| + if size % 4096 != 0 && Written(f.blocks, keep - 1) then 1 else 0
  }

  function Holes(f: File, offset: nat, length: nat): set<nat> {
    Touched(offset, length) - f.blocks.Keys
  }

  function Preallocate(f: File, offset: nat, length: nat): File {
    f.(blocks := f.blocks + map b | b in Holes(f, offset, length) :: true)
  }

  /** The destination blocks of a range clone that lie wholly inside it. */
  function WholeStart(target: nat, length: nat): nat { Blocks(target) }
  function WholeEnd(target: nat, length: nat): nat { (target + length) / 4096 }
  function Whole(target: nat, length: nat): set<nat> {
    Span(WholeStart(target, length), WholeEnd(target, length))
  }

  /** Source block that a whole destination block shares. */
  function Origin(start: nat, target: nat, b: nat): int { b + start / 4096 - target / 4096 }

  predicate Cloneable(source: File, start: nat, target: nat, length: nat) {
    start % 4096 == target % 4096 && start + length <= |source.data|
  }

  function CloneBlocks(source: File, dest: File, start: nat, target: nat, length: nat): map<nat, bool> {
    var span, whole := Touched(target, length), Whole(target, length);
    (map b | b in dest.blocks && b !in span :: dest.blocks[b])
    + (map b | b in span && b !in whole :: false)
    + (map b | b in span && b in whole && Origin(start, target, b) in source.blocks ::
         source.blocks[Origin(start, target, b)])
  }

  function CloneDestination(source: File, dest: File, start: nat, target: nat, length: nat): File
    requires Cloneable(source, start, target, length)
  {
    var span, whole := Touched(target, length), Whole(target, length);
    File(Overwrite(dest.data, target, source.data[start..start + length]),
         CloneBlocks(source, dest, start, target, length),
         (dest.shared - span) + set b | b in span && b in whole && Origin(start, target, b) in source.blocks)
  }

  /** Source blocks that gain the shared flag. */
  function Marked(source: File, start: nat, target: nat, length: nat): set<nat> {
    set b | b in Whole(target, length) && Origin(start, target, b) in source.blocks
            && Origin(start, target, b) !in source.shared :: Origin(start, target, b)
  }

  function CloneSource(source: File, start: nat, target: nat, length: nat): File {
    source.(shared := source.shared + Marked(source, start, target, length))
  }

  // ---------- every operation keeps the file consistent

  lemma CreatedIsConsistent(data: Bytes)
    ensures Consistent(Created(data))
  {
  }

  lemma WriteKeeps(f: File, offset: nat, incoming: Bytes)
    requires Consistent(f)
    ensures incoming != [] ==> Consistent(Write(f, offset, incoming))
  {
    if incoming != [] {
      var g := Write(f, offset, incoming);
      var touched := Touched(offset, |incoming|);
      forall i | 0 <= i < |g.data| && g.data[i] != 0 ensures Written(g.blocks, i / 4096) {
        if offset <= i < offset + |incoming| {
          assert i / 4096 in touched;
        } else {
          assert Written(f.blocks, i / 4096);
        }
      }
      forall b: nat | Written(g.blocks, b) ensures b * 4096 < |g.data| {
        if b !in touched { assert Written(f.blocks, b); }
      }
    }
  }

  lemma TruncateKeeps(f: File, size: nat)
    requires Consistent(f)
    ensures Consistent(Truncate(f, size))
  {
    var g := Truncate(f, size);
    forall i | 0 <= i < |g.data| && g.data[i] != 0 ensures Written(g.blocks, i / 4096) {
      assert Written(f.blocks, i / 4096);
    }
    forall b: nat | Written(g.blocks, b) ensures b * 4096 < |g.data| {
      assert Written(f.blocks, b);
    }
  }

  lemma PreallocateKeeps(f: File, offset: nat, length: nat)
    requires Consistent(f)
    ensures Consistent(Preallocate(f, offset, length))
    ensures forall b: nat :: Written(Preallocate(f, offset, length).blocks, b) <==> Written(f.blocks, b)
  {
    var g := Preallocate(f, offset, length);
    forall b: nat ensures Written(g.blocks, b) <==> Written(f.blocks, b) {
    }
  }

  lemma CloneSourceKeeps(f: File, start: nat, target: nat, length: nat)
    requires Consistent(f)
    ensures Consistent(CloneSource(f, start, target, length))
  {
  }

  /** Where a range clone puts a byte, its block is written unless it is zero. */
  lemma CloneByteIsCovered(source: File, dest: File, start: nat, target: nat, length: nat, i: nat)
    requires Consistent(source) && Cloneable(source, start, target, length) && length > 0
    requires target <= i < target + length && source.data[start + i - target] != 0
    ensures Written(CloneBlocks(source, dest, start, target, length), i / 4096)
  {
    var b := i / 4096;
    assert b in Touched(target, length);
    assert Written(source.blocks, (start + i - target) / 4096);
    assert (start + i - target) / 4096 == Origin(start, target, b);
  }

  lemma CloneRangeKeeps(source: File, dest: File, start: nat, target: nat, length: nat)
    requires Consistent(source) && Consistent(dest) && Cloneable(source, start, target, length) && length > 0
    ensures Consistent(CloneDestination(source, dest, start, target, length))
  {
    var g := CloneDestination(source, dest, start, target, length);
    var span := Touched(target, length);
    forall i | 0 <= i < |g.data| && g.data[i] != 0 ensures Written(g.blocks, i / 4096) {
      if target <= i < target + length {
        CloneByteIsCovered(source, dest, start, target, length, i);
      } else {
        assert Written(dest.blocks, i / 4096);
      }
    }
    forall b: nat | Written(g.blocks, b) ensures b * 4096 < |g.data| {
      if b !in span { assert Written(dest.blocks, b); }
    }
  }

  /** A range clone copies the bytes. Each whole block takes the mapping of its
      source block, so a hole stays a hole; every other block of the range is
      written and private. */
  lemma CloneRangeShares(source: File, dest: File, start: nat, target: nat, length: nat, b: nat)
    requires Cloneable(source, start, target, length) && length > 0 && b in Touched(target, length)
    ensures var g, o := CloneDestination(source, dest, start, target, length), Origin(start, target, b);
      && g.data[target..target + length] == source.data[start..start + length]
      && (b in Whole(target, length) ==>
            && (b in g.blocks <==> o in source.blocks) && (b in g.shared <==> o in source.blocks)
            && (o in source.blocks ==> g.blocks[b] == source.blocks[o]))
      && (b !in Whole(target, length) ==> Written(g.blocks, b) && b !in g.shared)
  {
  }

  /** Mapping of block b after the loop has passed it. */
  function LaidBlock(source: File, lo: nat, hi: nat, origin: nat, b: nat): Option<bool> {
    if b < lo || b >= hi then Some(false)
    else if origin + b - lo in source.blocks then Some(source.blocks[origin + b - lo])
    else None
  }

  /** The loop of a range clone over its destination blocks. */
  method LayBlocks(source: File, dest: File, first: nat, last: nat, lo: nat, hi: nat, origin: nat)
    returns (blocks: map<nat, bool>, shared: set<nat>)
    requires first <= last
    ensures forall b: nat :: first <= b < last ==>
      (if b in blocks then Some(blocks[b]) else None) == LaidBlock(source, lo, hi, origin, b)
    ensures forall b: nat :: b < first || b >= last ==>
      (b in blocks <==> b in dest.blocks) && (b in blocks ==> blocks[b] == dest.blocks[b])
    ensures forall b: nat :: b in shared <==>
      if first <= b < last then lo <= b < hi && LaidBlock(source, lo, hi, origin, b).Some? else b in dest.shared
  {
    blocks := map b | b in dest.blocks && (b < first || b >= last) :: dest.blocks[b];
    shared := set b | b in dest.shared && (b < first || b >= last);
    for block := first to last
      invariant forall b: nat :: first <= b < block ==>
        (if b in blocks then Some(blocks[b]) else None) == LaidBlock(source, lo, hi, origin, b)
      invariant forall b: nat :: block <= b < last ==> b !in blocks && b !in shared
      invariant forall b: nat :: b < first || b >= last ==>
        (b in blocks <==> b in dest.blocks) && (b in blocks ==> blocks[b] == dest.blocks[b])
      invariant forall b: nat :: b < block || b >= last ==> (b in shared <==>
        if first <= b < block then lo <= b < hi && LaidBlock(source, lo, hi, origin, b).Some? else b in dest.shared)
    {
      if block < lo || block >= hi {
        blocks := blocks[block := false];
      } else if origin + block - lo in source.blocks {
        blocks := blocks[block := source.blocks[origin + block - lo]];
        shared := shared + {block};
      }
    }
  }

  /** The layout of a range clone, as the code computes it. */
  method CloneLayout(source: File, dest: File, start: nat, target: nat, length: nat)
    returns (blocks: map<nat, bool>, shared: set<nat>, marked: set<nat>)
    requires Cloneable(source, start, target, length) && length > 0
    ensures blocks == CloneBlocks(source, dest, start, target, length)
    ensures shared == CloneDestination(source, dest, start, target, length).shared
    ensures marked == Marked(source, start, target, length)
  {
    var end := target + length;
    var first, last := target / 4096, Blocks(end);
    var up := target + (-(target as int)) % 4096;
    var fullStart := if up < end then up else end;
    var fullEnd := end - end % 4096;
    var lo, hi :=
      if fullStart < fullEnd then fullStart / 4096 else 0, if fullStart < fullEnd then fullEnd / 4096 else 0;
    var origin := (start + (fullStart - target)) / 4096;
    WholeAsComputed(start, target, length, lo, hi, origin);
    blocks, shared := LayBlocks(source, dest, first, last, lo, hi, origin);
    marked := set b | b in source.blocks && origin <= b < origin + (hi - lo) && b !in source.shared;
    LayoutIsClone(source, dest, start, target, length, lo, hi, origin, blocks, shared);
    MarkedAsComputed(source, start, target, length, lo, hi, origin);
  }

  lemma LayoutIsClone(source: File, dest: File, start: nat, target: nat, length: nat, lo: nat, hi: nat, origin: nat,
                      blocks: map<nat, bool>, shared: set<nat>)
    requires Cloneable(source, start, target, length) && length > 0
    requires forall b :: b in Whole(target, length) <==> lo <= b < hi
    requires forall b :: b in Whole(target, length) ==> Origin(start, target, b) == origin + b - lo
    requires forall b: nat :: b in Touched(target, length) ==>
      (if b in blocks then Some(blocks[b]) else None) == LaidBlock(source, lo, hi, origin, b)
    requires forall b: nat :: b !in Touched(target, length) ==>
      (b in blocks <==> b in dest.blocks) && (b in blocks ==> blocks[b] == dest.blocks[b])
    requires forall b: nat :: b in shared <==>
      if b in Touched(target, length) then lo <= b < hi && LaidBlock(source, lo, hi, origin, b).Some?
      else b in dest.shared
    ensures blocks == CloneBlocks(source, dest, start, target, length)
    ensures shared == CloneDestination(source, dest, start, target, length).shared
  {
    var cloned := CloneBlocks(source, dest, start, target, length);
    forall b: nat ensures At(blocks, b) == At(cloned, b) { CloneBlockAt(source, dest, start, target, length, b); }
    SameMap(blocks, cloned);
    var want := CloneDestination(source, dest, start, target, length).shared;
    forall b: nat ensures b in shared <==> b in want { }
  }

  function At(m: map<nat, bool>, b: nat): Option<bool> { if b in m then Some(m[b]) else None }

  lemma SameMap(m: map<nat, bool>, n: map<nat, bool>)
    requires forall b: nat :: At(m, b) == At(n, b)
    ensures m == n
  {
    forall b | b in m ensures b in n && m[b] == n[b] { assert At(m, b) == At(n, b); }
    forall b | b in n ensures b in m { assert At(m, b) == At(n, b); }
  }

  lemma CloneBlockAt(source: File, dest: File, start: nat, target: nat, length: nat, b: nat)
    ensures At(CloneBlocks(source, dest, start, target, length), b) ==
      (if b !in Touched(target, length) then At(dest.blocks, b)
       else if b !in Whole(target, length) then Some(false)
       else if Origin(start, target, b) in source.blocks then Some(source.blocks[Origin(start, target, b)]) else None)
  {
  }

  lemma MarkedAsComputed(source: File, start: nat, target: nat, length: nat, lo: nat, hi: nat, origin: nat)
    requires forall b :: b in Whole(target, length) <==> lo <= b < hi
    requires forall b :: b in Whole(target, length) ==> Origin(start, target, b) == origin + b - lo
    ensures (set b | b in source.blocks && origin <= b < origin + (hi - lo) && b !in source.shared) ==
      Marked(source, start, target, length)
  {
    forall b | b in source.blocks && origin <= b < origin + (hi - lo) && b !in source.shared
      ensures b in Marked(source, start, target, length)
    {
      assert b - origin + lo in Whole(target, length) && Origin(start, target, b - origin + lo) == b;
    }
  }

  /** The whole blocks and their origins, as the code computes them. */
  lemma WholeAsComputed(start: nat, target: nat, length: nat, lo: nat, hi: nat, origin: nat)
    requires length > 0 && start % 4096 == target % 4096
    requires var end := target + length;
      var up := target + (-(target as int)) % 4096;
      var fullStart := if up < end then up else end;
      var fullEnd := end - end % 4096;
      && lo == (if fullStart < fullEnd then fullStart / 4096 else 0)
      && hi == (if fullStart < fullEnd then fullEnd / 4096 else 0)
      && origin == (start + (fullStart - target)) / 4096
    ensures forall b :: b in Whole(target, length) <==> lo <= b < hi
    ensures forall b :: b in Whole(target, length) ==> Origin(start, target, b) == origin + b - lo
  {
  }

  /** A range clone copies at most its two boundary blocks into private storage. */
  lemma CloneRangeCopiesTwo(target: nat, length: nat)
    requires length > 0
    ensures |Touched(target, length) - Whole(target, length)| <= 2
  {
    var copied := Touched(target, length) - Whole(target, length);
    var edges := {target / 4096, (target + length) / 4096};
    assert copied <= edges;
    SubsetSize(copied, edges);
  }

  lemma {:induction false} SubsetSize(a: set<nat>, b: set<nat>)
    requires a <= b
    ensures |a| <= |b|
    decreases a
  {
    if a != {} {
      var x :| x in a;
      SubsetSize(a - {x}, b - {x});
    }
  }

  // ---------- what each operation does to one block

  /** Some byte of the range lies in the block. */
  predicate Meets(offset: nat, count: nat, b: nat) {
    count > 0 && b * 4096 < offset + count && offset < (b + 1) * 4096
  }

  lemma MeetsIsTouched(offset: nat, count: nat, b: nat)
    requires count > 0
    ensures Meets(offset, count, b) <==> b in Touched(offset, count)
  {
  }

  /** A write makes exactly the blocks it meets written and private. */
  lemma WriteIsExact(f: File, offset: nat, incoming: Bytes, b: nat)
    requires incoming != []
    ensures var g := Write(f, offset, incoming);
      if Meets(offset, |incoming|, b) then Written(g.blocks, b) && b !in g.shared
      else At(g.blocks, b) == At(f.blocks, b) && (b in g.shared <==> b in f.shared)
  {
    MeetsIsTouched(offset, |incoming|, b);
  }

  /** A shrink releases exactly the blocks past the new end, keeps the mapping of
      the others, and makes a written block that straddles the end private. */
  lemma TruncateIsExact(f: File, size: nat, b: nat)
    ensures var g := Truncate(f, size);
      if size >= |f.data| then g.blocks == f.blocks && g.shared == f.shared
      else if size <= b * 4096 then b !in g.blocks && b !in g.shared
      else
        && At(g.blocks, b) == At(f.blocks, b)
        && (b in g.shared <==> b in f.shared && !(size < (b + 1) * 4096 && Written(f.blocks, b)))
  {
    assert b < Blocks(size) <==> b * 4096 < size;
    if size < |f.data| && b * 4096 < size < (b + 1) * 4096 { assert b == Blocks(size) - 1 && size % 4096 != 0; }
    if size < |f.data| && size % 4096 != 0 && b == Blocks(size) - 1 { assert size < (b + 1) * 4096; }
  }

  /** A reservation maps exactly the holes it meets, unwritten. */
  lemma PreallocateIsExact(f: File, offset: nat, length: nat, b: nat)
    requires length > 0
    ensures var g := Preallocate(f, offset, length);
      && g.data == f.data && g.shared == f.shared
      && At(g.blocks, b) == if b in f.blocks || !Meets(offset, length, b) then At(f.blocks, b) else Some(true)
  {
    MeetsIsTouched(offset, length, b);
  }

  /** A bounded shrink is charged for every block it releases and for the
      rewritten tail. */
  lemma RetiredIsExact(f: File, size: nat)
    requires size < |f.data|
    ensures Retired(f, size) == |f.blocks.Keys - Truncate(f, size).blocks.Keys|
      + if size % 4096 != 0 && Written(f.blocks, size / 4096) then 1 else 0
  {
    assert f.blocks.Keys - Truncate(f, size).blocks.Keys == set b | b in f.blocks && b >= Blocks(size);
    assert size % 4096 != 0 ==> Blocks(size) - 1 == size / 4096;
  }
}
