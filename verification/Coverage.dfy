/** Normalized logical allocation: `coverage` and the two admission checks that
    read its output. */
module Coverage {
  import opened Basics

  /** A byte interval of a file. */
  datatype Range = Range(offset: nat, length: nat, unwritten: bool) {
    function End(): nat { offset + length }
    /** First block of the interval, and the block after its last one. */
    function First(): nat { offset / 4096 }
    function Stop(): nat { (offset + length) / 4096 }
    predicate Aligned() { offset % 4096 == 0 && length % 4096 == 0 && length > 0 }
    predicate Covers(b: nat) { First() <= b < Stop() }
  }

  const MAX_RANGES := 4096

  /** b may directly follow a in a maximal list. */
  predicate Separated(a: Range, b: Range) {
    a.End() < b.offset || (a.End() == b.offset && a.unwritten != b.unwritten)
  }

  /** Aligned intervals, ascending, disjoint, and never two adjacent ones that
      carry the same flag. */
  predicate Maximal(rs: seq<Range>) {
    && (forall r :: r in rs ==> r.Aligned())
    && (forall i :: 0 < i < |rs| ==> Separated(rs[i - 1], rs[i]))
  }

  /** Interval r accounts for block b. */
  predicate Holds(rs: seq<Range>, b: nat, flag: bool) {
    exists r :: r in rs && r.Covers(b) && r.unwritten == flag
  }

  /** The block map that a list of intervals stands for. */
  ghost predicate Denotes(rs: seq<Range>, blocks: map<nat, bool>) {
    forall b: nat, flag :: Holds(rs, b, flag) <==> b in blocks && blocks[b] == flag
  }

  /** One turn of the loop: extend the last interval or open a new one. */
  function Merge(rs: seq<Range>, block: nat, flag: bool): seq<Range> {
    var n := |rs| - 1;
    if rs != [] && rs[n].End() == block * 4096 && rs[n].unwritten == flag
    then rs[..n] + [rs[n].(length := rs[n].length + 4096)]
    else rs + [Range(block * 4096, 4096, flag)]
  }

  function MergeAll(keys: seq<nat>, blocks: map<nat, bool>): seq<Range>
    requires forall k :: k in keys ==> k in blocks
  {
    if keys == [] then [] else
      var n := |keys| - 1;
      Merge(MergeAll(keys[..n], blocks), keys[n], blocks[keys[n]])
  }

  function Of(blocks: map<nat, bool>): seq<Range> {
    AscendingSorted(blocks.Keys);
    MergeAll(Ascending(blocks.Keys), blocks)
  }

  lemma MergeHolds(rs: seq<Range>, block: nat, flag: bool, b: nat, f: bool)
    requires Maximal(rs)
    ensures Holds(Merge(rs, block, flag), b, f) <==> Holds(rs, b, f) || (b == block && f == flag)
  {
    var n := |rs| - 1;
    var r := Merge(rs, block, flag);
    if |r| == |rs| {
      assert rs == rs[..n] + [rs[n]];
      assert rs[n].Aligned();
      assert r[n].Covers(b) <==> rs[n].Covers(b) || b == block;
      assert forall x :: x in rs <==> x in rs[..n] || x == rs[n];
      assert forall x :: x in r <==> x in rs[..n] || x == r[n];
    } else {
      assert r[|rs|].Covers(b) <==> b == block;
      assert forall x :: x in r <==> x in rs || x == r[|rs|];
    }
  }

  lemma MergeIsMaximal(rs: seq<Range>, block: nat, flag: bool)
    requires Maximal(rs)
    requires rs != [] ==> rs[|rs| - 1].End() <= block * 4096
    ensures var r := Merge(rs, block, flag); Maximal(r) && r != [] && r[|r| - 1].End() == block * 4096 + 4096
  {
    var n := |rs| - 1;
    var r := Merge(rs, block, flag);
    if |r| == |rs| {
      assert rs[n] in rs;
      assert forall i :: 0 <= i < n ==> r[i] == rs[i];
      if n > 0 { assert Separated(rs[n - 1], rs[n]); }
    } else {
      assert forall i :: 0 <= i < |rs| ==> r[i] == rs[i];
    }
  }

  lemma {:induction false} MergeAllIsMaximal(keys: seq<nat>, blocks: map<nat, bool>)
    requires forall k :: k in keys ==> k in blocks
    requires forall i, j :: 0 <= i < j < |keys| ==> keys[i] < keys[j]
    ensures Maximal(MergeAll(keys, blocks))
    ensures keys == [] <==> MergeAll(keys, blocks) == []
    ensures keys != [] ==> MergeAll(keys, blocks)[|MergeAll(keys, blocks)| - 1].End() == keys[|keys| - 1] * 4096 + 4096
  {
    if keys != [] {
      var n := |keys| - 1;
      MergeAllIsMaximal(keys[..n], blocks);
      MergeIsMaximal(MergeAll(keys[..n], blocks), keys[n], blocks[keys[n]]);
    }
  }

  lemma {:induction false} MergeAllHolds(keys: seq<nat>, blocks: map<nat, bool>, b: nat, f: bool)
    requires forall k :: k in keys ==> k in blocks
    requires forall i, j :: 0 <= i < j < |keys| ==> keys[i] < keys[j]
    ensures Holds(MergeAll(keys, blocks), b, f) <==> b in keys && blocks[b] == f
  {
    if keys != [] {
      var n := |keys| - 1;
      MergeAllHolds(keys[..n], blocks, b, f);
      MergeAllIsMaximal(keys[..n], blocks);
      MergeHolds(MergeAll(keys[..n], blocks), keys[n], blocks[keys[n]], b, f);
      assert keys == keys[..n] + [keys[n]];
    }
  }

  /** The result is maximal and expands back to the block map. */
  lemma OfIsCanonical(blocks: map<nat, bool>)
    ensures Maximal(Of(blocks)) && Denotes(Of(blocks), blocks)
  {
    var keys := Ascending(blocks.Keys);
    AscendingSorted(blocks.Keys);
    MergeAllIsMaximal(keys, blocks);
    forall b: nat, f ensures Holds(Of(blocks), b, f) <==> b in blocks && blocks[b] == f {
      MergeAllHolds(keys, blocks, b, f);
    }
  }

  /** In a maximal list every later interval starts at or after the end of the first. */
  lemma {:induction false} FirstEndsFirst(rs: seq<Range>, j: nat)
    requires Maximal(rs) && 0 < j < |rs|
    ensures rs[0].End() <= rs[j].offset && rs[0].Stop() <= rs[j].First()
    ensures j > 1 ==> rs[1].End() <= rs[j].offset
    decreases j
  {
    assert Separated(rs[j - 1], rs[j]);
    assert rs[0] in rs && rs[j] in rs;
    if j > 1 {
      FirstEndsFirst(rs, j - 1);
      assert rs[j - 1] in rs && rs[1] in rs;
    }
  }

  /** No interval of the list covers the block right after the first one with the same flag. */
  lemma FirstIsMaximal(rs: seq<Range>)
    requires Maximal(rs) && rs != []
    ensures !Holds(rs, rs[0].Stop(), rs[0].unwritten)
  {
    if Holds(rs, rs[0].Stop(), rs[0].unwritten) {
      var r :| r in rs && r.Covers(rs[0].Stop()) && r.unwritten == rs[0].unwritten;
      var j :| 0 <= j < |rs| && rs[j] == r;
      assert rs[0] in rs;
      if |rs| > 1 {
        assert rs[1] in rs && Separated(rs[0], rs[1]);
      }
      if j > 0 {
        FirstEndsFirst(rs, j);
      }
    }
  }

  /** The first interval is determined by the map: it starts at the least block
      and runs as far as the flag stays the same. */
  lemma FirstIsDetermined(r: seq<Range>, s: seq<Range>, blocks: map<nat, bool>)
    requires Maximal(r) && Maximal(s) && Denotes(r, blocks) && Denotes(s, blocks)
    requires r != [] && s != []
    ensures r[0].offset >= s[0].offset
    ensures r[0].offset == s[0].offset ==> r[0].unwritten == s[0].unwritten && r[0].End() <= s[0].End()
  {
    var b := r[0].First();
    assert r[0] in r && s[0] in s;
    assert r[0].Covers(b) && Holds(r, b, r[0].unwritten);
    assert Holds(s, b, r[0].unwritten);
    var x :| x in s && x.Covers(b) && x.unwritten == r[0].unwritten;
    var i :| 0 <= i < |s| && s[i] == x;
    if i > 0 { FirstEndsFirst(s, i); }
    if r[0].offset == s[0].offset {
      FirstIsMaximal(s);
      if s[0].End() < r[0].End() {
        assert r[0].Covers(s[0].Stop());
        assert Holds(r, s[0].Stop(), r[0].unwritten);
        assert false;
      }
    }
  }

  /** Without its first interval a maximal list denotes the rest of the map. */
  lemma DropFirst(rs: seq<Range>, b: nat, f: bool)
    requires Maximal(rs) && rs != []
    ensures Maximal(rs[1..])
    ensures Holds(rs[1..], b, f) <==> Holds(rs, b, f) && !rs[0].Covers(b)
  {
    var rest := rs[1..];
    assert rs == [rs[0]] + rest;
    assert forall i :: 0 <= i < |rest| ==> rest[i] == rs[i + 1];
    forall i | 0 < i < |rest| ensures Separated(rest[i - 1], rest[i]) {
      assert Separated(rs[i], rs[i + 1]);
    }
    forall r | r in rest ensures r.Covers(b) ==> !rs[0].Covers(b) {
      var i :| 0 <= i < |rest| && rest[i] == r;
      FirstEndsFirst(rs, i + 1);
    }
  }

  lemma NonemptyHolds(rs: seq<Range>)
    requires Maximal(rs)
    ensures rs != [] ==> Holds(rs, rs[0].First(), rs[0].unwritten)
  {
    if rs != [] {
      assert rs[0] in rs && rs[0].Covers(rs[0].First());
    }
  }

  /** A block map has one maximal list, so coverage is a canonical form. */
  lemma {:induction false} MaximalIsUnique(r: seq<Range>, s: seq<Range>, blocks: map<nat, bool>)
    requires Maximal(r) && Maximal(s) && Denotes(r, blocks) && Denotes(s, blocks)
    ensures r == s
    decreases |r|
  {
    if r == [] || s == [] {
      NonemptyHolds(r);
      NonemptyHolds(s);
      assert r != [] ==> Holds(s, r[0].First(), r[0].unwritten);
      assert s != [] ==> Holds(r, s[0].First(), s[0].unwritten);
    } else {
      FirstIsDetermined(r, s, blocks);
      FirstIsDetermined(s, r, blocks);
      var rest := map b | b in blocks && !r[0].Covers(b) :: blocks[b];
      forall b: nat, f
        ensures Holds(r[1..], b, f) <==> b in rest && rest[b] == f
        ensures Holds(s[1..], b, f) <==> b in rest && rest[b] == f
      {
        DropFirst(r, b, f);
        DropFirst(s, b, f);
      }
      DropFirst(r, 0, false);
      DropFirst(s, 0, false);
      MaximalIsUnique(r[1..], s[1..], rest);
      assert r == [r[0]] + r[1..] && s == [s[0]] + s[1..];
    }
  }

  /** Two block maps have the same coverage exactly when they are the same map. */
  lemma EqualCoverage(a: map<nat, bool>, b: map<nat, bool>)
    ensures Of(a) == Of(b) <==> a == b
  {
    OfIsCanonical(a);
    OfIsCanonical(b);
    if Of(a) == Of(b) {
      forall k | k in a ensures k in b && a[k] == b[k] {
        assert Holds(Of(a), k, a[k]);
      }
      forall k | k in b ensures k in a {
        assert Holds(Of(b), k, b[k]);
      }
    }
  }

  lemma MergeOneMore(keys: seq<nat>, blocks: map<nat, bool>, i: nat)
    requires forall k :: k in keys ==> k in blocks
    requires i < |keys|
    ensures MergeAll(keys[..i + 1], blocks) == Merge(MergeAll(keys[..i], blocks), keys[i], blocks[keys[i]])
  {
    assert keys[..i + 1][..i] == keys[..i];
  }

  /** The loop of `coverage`: its result is the one maximal list of the map. */
  method Normalize(blocks: map<nat, bool>) returns (merged: seq<Range>)
    ensures merged == Of(blocks)
    ensures Maximal(merged) && Denotes(merged, blocks)
  {
    merged := [];
    var keys := Ascending(blocks.Keys);
    assert forall k :: k in keys ==> k in blocks by { AscendingSorted(blocks.Keys); }
    for i := 0 to |keys|
      invariant merged == MergeAll(keys[..i], blocks)
    {
      var block, flag, n := keys[i], blocks[keys[i]], |merged| - 1;
      MergeOneMore(keys, blocks, i);
      if merged != [] && merged[n].End() == block * 4096 && merged[n].unwritten == flag {
        merged := merged[..n] + [merged[n].(length := merged[n].length + 4096)];
      } else {
        merged := merged + [Range(block * 4096, 4096, flag)];
      }
    }
    assert keys[..|keys|] == keys;
    OfIsCanonical(blocks);
  }

  /** Scenario admission of an expected allocation. It accepts exactly the
      maximal lists that stay within the file and record limits. */
  method NormalizedAllocation(ranges: seq<Range>) returns (ok: bool)
    ensures ok <==> |ranges| <= MAX_RANGES && Maximal(ranges) && forall r :: r in ranges ==> r.End() <= MAX_FILE
  {
    if |ranges| > MAX_RANGES { return false; }
    var end: Option<nat>, flag := None, false;
    for i := 0 to |ranges|
      invariant end == if i == 0 then None else Some(ranges[i - 1].End())
      invariant i > 0 ==> flag == ranges[i - 1].unwritten
      invariant forall k :: 0 <= k < i ==> ranges[k].Aligned() && ranges[k].End() <= MAX_FILE
      invariant forall k :: 0 < k < i ==> Separated(ranges[k - 1], ranges[k])
    {
      var item := ranges[i];
      if item.offset > MAX_FILE || item.length < 1 || item.length > MAX_FILE { return false; }
      if item.offset % 4096 != 0 || item.length % 4096 != 0 || item.End() > MAX_FILE { return false; }
      if end.Some? && (item.offset < end.value || (item.offset == end.value && flag == item.unwritten)) {
        assert !Separated(ranges[i - 1], ranges[i]);
        return false;
      }
      end, flag := Some(item.End()), item.unwritten;
    }
    return true;
  }

  /** Ascending, disjoint, maximal and within the record limit, on any alignment. */
  predicate Observable(items: seq<Range>) {
    && |items| <= MAX_RANGES
    && (forall r :: r in items ==> r.length > 0)
    && (forall i :: 0 < i < |items| ==> Separated(items[i - 1], items[i]))
  }

  /** Decoding of an observed allocation: the same order rules on whatever
      alignment the runner reports. */
  method ObservedAllocation(items: seq<Range>) returns (ranges: Option<seq<Range>>)
    ensures ranges == if Observable(items) then Some(items) else None
  {
    var taken := [];
    var end: Option<nat>, flag := None, false;
    for i := 0 to |items|
      invariant taken == items[..i] && i <= MAX_RANGES
      invariant end == if i == 0 then None else Some(items[i - 1].End())
      invariant i > 0 ==> flag == items[i - 1].unwritten
      invariant forall k :: 0 <= k < i ==> items[k].length > 0
      invariant forall k :: 0 < k < i ==> Separated(items[k - 1], items[k])
    {
      var item := items[i];
      if item.length == 0 { return None; }
      if end.Some? && (item.offset < end.value || (item.offset == end.value && flag == item.unwritten)) {
        assert !Separated(items[i - 1], items[i]);
        return None;
      }
      end, flag := Some(item.End()), item.unwritten;
      taken := taken + [item];
      if |taken| > MAX_RANGES { return None; }
    }
    assert taken == items;
    return Some(taken);
  }

  // ---------- coverage is short

  lemma {:induction false} MergeAllIsShort(keys: seq<nat>, blocks: map<nat, bool>)
    requires forall k :: k in keys ==> k in blocks
    ensures |MergeAll(keys, blocks)| <= |keys|
  {
    if keys != [] { MergeAllIsShort(keys[..|keys| - 1], blocks); }
  }

  lemma {:induction false} AscendingGrows(keys: seq<nat>, i: nat)
    requires i < |keys| && forall i, j :: 0 <= i < j < |keys| ==> keys[i] < keys[j]
    ensures i <= keys[i]
  {
    if i > 0 { AscendingGrows(keys, i - 1); }
  }

  /** A file within the size limit has at most 4096 ranges. */
  lemma OfIsShort(blocks: map<nat, bool>)
    requires forall b :: b in blocks ==> b < 4096
    ensures |Of(blocks)| <= MAX_RANGES
  {
    AscendingSorted(blocks.Keys);
    var keys := Ascending(blocks.Keys);
    MergeAllIsShort(keys, blocks);
    if keys != [] {
      AscendingGrows(keys, |keys| - 1);
      assert keys[|keys| - 1] in keys;
    }
  }

  /** Both admission checks accept what coverage produces for a file within the
      size limit. */
  method CoverageIsAdmitted(blocks: map<nat, bool>) returns (expected: bool, observed: Option<seq<Range>>)
    requires forall b :: b in blocks ==> b * 4096 + 4096 <= MAX_FILE
    ensures expected && observed == Some(Of(blocks))
  {
    OfIsShort(blocks);
    OfIsCanonical(blocks);
    var rs := Of(blocks);
    forall r | r in rs ensures r.End() <= MAX_FILE {
      assert r.Aligned() && r.Covers(r.Stop() - 1);
      assert Holds(rs, r.Stop() - 1, r.unwritten);
    }
    expected := NormalizedAllocation(rs);
    observed := ObservedAllocation(rs);
  }
}
