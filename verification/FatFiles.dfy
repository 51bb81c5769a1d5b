/** Cluster chains of a FAT12 volume: claiming free clusters and filling them. */
module FatFiles {
  import opened Basics
  import opened FatTable

  function Value(l: Layout, img: Bytes, c: nat): nat
    requires Valid(l) && |img| == l.length && InRange(l, c)
  {
    FatValue(l, img, 0, c)
  }

  // ---------- clusters

  lemma ClusterFits(l: Layout, c: nat)
    requires Valid(l) && InRange(l, c)
    ensures l.rootStart <= l.dataStart <= ClusterStart(l, c) && ClusterStart(l, c) + l.clusterSize <= l.length
  {
    Times(c - 2, l.clusterCount, l.clusterSize);
  }

  lemma ClustersApart(l: Layout, c: nat, d: nat)
    requires 2 <= c < d
    ensures ClusterStart(l, c) + l.clusterSize <= ClusterStart(l, d)
  {
    Times(c - 2, d - 2, l.clusterSize);
  }

  function ClusterBytes(l: Layout, img: Bytes, c: nat): (r: Bytes)
    requires Valid(l) && |img| == l.length && InRange(l, c)
    ensures |r| == l.clusterSize
  {
    ClusterFits(l, c);
    img[ClusterStart(l, c)..ClusterStart(l, c) + l.clusterSize]
  }

  predicate InCluster(l: Layout, c: nat, p: nat) {
    c >= 2 && ClusterStart(l, c) <= p < ClusterStart(l, c) + l.clusterSize
  }

  predicate AllInRange(l: Layout, cs: seq<nat>) { forall i :: 0 <= i < |cs| ==> InRange(l, cs[i]) }

  predicate Distinct(cs: seq<nat>) { forall i, j :: 0 <= i < j < |cs| ==> cs[i] != cs[j] }

  /** The entries depend only on the bytes before the root directory. */
  lemma ValueFromPrefix(l: Layout, a: Bytes, b: Bytes, c: nat)
    requires Valid(l) && |a| == l.length == |b| && InRange(l, c) && a[..l.rootStart] == b[..l.rootStart]
    ensures Value(l, a, c) == Value(l, b, c)
  {
    CopyFits(l, 0);
    var o := CopyStart(l, 0) + Offset(c);
    assert a[o] == a[..l.rootStart][o] && a[o + 1] == a[..l.rootStart][o + 1];
    assert b[o] == b[..l.rootStart][o] && b[o + 1] == b[..l.rootStart][o + 1];
  }

  lemma TableFromPrefix(l: Layout, a: Bytes, b: Bytes, i: nat)
    requires Valid(l) && |a| == l.length == |b| && a[..l.rootStart] == b[..l.rootStart] && i < l.fatCount
    ensures Table(l, a, i) == Table(l, b, i)
  {
    hide Laid, Roomy, CopyStart;
    CopyFits(l, i);
    var low, high := CopyStart(l, i), CopyStart(l, i) + l.fatSize;
    SliceOfPrefix(a, l.rootStart, low, high);
    SliceOfPrefix(b, l.rootStart, low, high);
  }

  lemma MirroredFromPrefix(l: Layout, a: Bytes, b: Bytes)
    requires Valid(l) && |a| == l.length == |b| && a[..l.rootStart] == b[..l.rootStart] && Mirrored(l, a)
    ensures Mirrored(l, b)
  {
    hide Laid, Roomy, Table;
    forall i: nat | i < l.fatCount ensures Table(l, b, i) == Table(l, b, 0) {
      TableFromPrefix(l, a, b, i);
      TableFromPrefix(l, a, b, 0);
      assert Table(l, a, i) == Table(l, a, 0);
    }
  }

  lemma PatchClusterKeeps(l: Layout, img: Bytes, c: nat, bytes: Bytes, d: nat)
    requires Valid(l) && |img| == l.length && InRange(l, c) && InRange(l, d) && |bytes| <= l.clusterSize && c != d
    requires ClusterStart(l, c) + |bytes| <= |img|
    ensures ClusterBytes(l, Patch(img, ClusterStart(l, c), bytes), d) == ClusterBytes(l, img, d)
  {
    hide Patch, ClusterStart;
    ClusterFits(l, d);
    if c < d { ClustersApart(l, c, d); } else { ClustersApart(l, d, c); }
    PatchKeeps(img, ClusterStart(l, c), bytes, ClusterStart(l, d), ClusterStart(l, d) + l.clusterSize);
  }

  /** Setting an entry changes no cluster. */
  lemma SetFatKeepsCluster(l: Layout, img: Bytes, c: nat, v: nat, d: nat)
    requires Valid(l) && |img| == l.length && InRange(l, c) && InRange(l, d) && v <= 0xFFF
    ensures ClusterBytes(l, SetFat(l, img, c, v), d) == ClusterBytes(l, img, d)
  {
    hide ClusterStart, CopyStart, SetCopies;
    ClusterFits(l, d);
    var r, s := SetFat(l, img, c, v), ClusterStart(l, d);
    forall p: nat | s <= p < s + l.clusterSize ensures r[p] == img[p] { SetCopiesStays(l, img, l.fatCount, c, v, p); }
    assert r[s..s + l.clusterSize] == img[s..s + l.clusterSize];
  }

  // ---------- chains

  predicate Ends(v: nat) { v >= 0xFF8 }

  /** The value after cluster i of a chain: the next cluster, or an end mark. */
  predicate Leads(v: nat, cs: seq<nat>, i: nat) {
    if i + 1 < |cs| then v == cs[i + 1] else Ends(v)
  }

  ghost predicate IsChain(l: Layout, img: Bytes, cs: seq<nat>)
    requires Valid(l) && |img| == l.length
  {
    cs != [] && AllInRange(l, cs) && forall i :: 0 <= i < |cs| ==> Leads(Value(l, img, cs[i]), cs, i)
  }

  /** Walking from a cluster can only give one chain. */
  lemma {:induction false} ChainIsUnique(l: Layout, img: Bytes, cs: seq<nat>, ds: seq<nat>)
    requires Valid(l) && |img| == l.length && IsChain(l, img, cs) && IsChain(l, img, ds) && cs[0] == ds[0]
    ensures cs == ds
  {
    hide FatValue;
    assert Leads(Value(l, img, cs[0]), cs, 0) && Leads(Value(l, img, ds[0]), ds, 0);
    assert (|cs| > 1 ==> InRange(l, cs[1])) && (|ds| > 1 ==> InRange(l, ds[1]));
    if |cs| > 1 && |ds| > 1 {
      ChainTail(l, img, cs);
      ChainTail(l, img, ds);
      ChainIsUnique(l, img, cs[1..], ds[1..]);
      assert cs == [cs[0]] + cs[1..] && ds == [ds[0]] + ds[1..];
    }
  }

  lemma ChainTail(l: Layout, img: Bytes, cs: seq<nat>)
    requires Valid(l) && |img| == l.length && IsChain(l, img, cs) && |cs| > 1
    ensures IsChain(l, img, cs[1..])
  {
    hide FatValue;
    var t := cs[1..];
    forall i | 0 <= i < |t| ensures InRange(l, t[i]) && Leads(Value(l, img, t[i]), t, i) {
      assert t[i] == cs[i + 1] && Leads(Value(l, img, cs[i + 1]), cs, i + 1);
    }
  }

  /** A chain holds no free cluster. */
  lemma ChainIsClaimed(l: Layout, img: Bytes, cs: seq<nat>, c: nat)
    requires Valid(l) && |img| == l.length && IsChain(l, img, cs) && c in cs
    ensures InRange(l, c) && Value(l, img, c) != 0
  {
    hide FatValue;
    var i :| 0 <= i < |cs| && cs[i] == c;
    assert Leads(Value(l, img, cs[i]), cs, i);
    if i + 1 < |cs| { assert InRange(l, cs[i + 1]); }
  }

  function ChainBytes(l: Layout, img: Bytes, cs: seq<nat>): Bytes
    requires Valid(l) && |img| == l.length && AllInRange(l, cs)
  {
    if cs == [] then [] else
      var n := |cs| - 1;
      ChainBytes(l, img, cs[..n]) + ClusterBytes(l, img, cs[n])
  }

  lemma {:induction false} ChainLength(l: Layout, img: Bytes, cs: seq<nat>)
    requires Valid(l) && |img| == l.length && AllInRange(l, cs)
    ensures |ChainBytes(l, img, cs)| == |cs| * l.clusterSize
  {
    hide Laid, Roomy, ClusterBytes;
    if cs != [] {
      ChainLength(l, img, cs[..|cs| - 1]);
      OneMore(|cs| - 1, l.clusterSize);
    }
  }

  lemma OneMore(n: nat, size: nat)
    ensures (n + 1) * size == n * size + size
  {
  }

  /** Chains whose entries and clusters did not change are the same files. */
  lemma {:induction false} ChainStays(l: Layout, a: Bytes, b: Bytes, cs: seq<nat>)
    requires Valid(l) && |a| == l.length == |b| && AllInRange(l, cs)
    requires forall c :: c in cs ==> ClusterBytes(l, b, c) == ClusterBytes(l, a, c)
    ensures ChainBytes(l, b, cs) == ChainBytes(l, a, cs)
  {
    if cs != [] {
      var n := |cs| - 1;
      assert cs[n] in cs;
      ChainStays(l, a, b, cs[..n]);
    }
  }

  // ---------- claiming clusters

  /** The free clusters below n, ascending. */
  function Free(l: Layout, img: Bytes, n: nat): seq<nat>
    requires Valid(l) && |img| == l.length && 2 <= n <= l.clusterCount + 2
  {
    if n == 2 then [] else
      var rest := Free(l, img, n - 1);
      if Value(l, img, n - 1) == 0 then rest + [n - 1] else rest
  }

  lemma {:induction false} FreeIsExact(l: Layout, img: Bytes, n: nat)
    requires Valid(l) && |img| == l.length && 2 <= n <= l.clusterCount + 2
    ensures AllInRange(l, Free(l, img, n))
    ensures forall c :: c in Free(l, img, n) <==> 2 <= c < n && Value(l, img, c) == 0
    ensures forall i, j :: 0 <= i < j < |Free(l, img, n)| ==> Free(l, img, n)[i] < Free(l, img, n)[j]
  {
    hide FatValue;
    if n > 2 {
      FreeIsExact(l, img, n - 1);
      var rest := Free(l, img, n - 1);
      assert forall i :: 0 <= i < |rest| ==> rest[i] in rest;
    }
  }

  function Following(selected: seq<nat>, k: nat): nat { if k + 1 < |selected| then selected[k + 1] else END }

  predicate Selectable(l: Layout, selected: seq<nat>) { AllInRange(l, selected) && Distinct(selected) }

  /** The image after the first k selected clusters have been linked and cleared. */
  function Claimed(l: Layout, img: Bytes, selected: seq<nat>, k: nat): (r: Bytes)
    requires Valid(l) && |img| == l.length && AllInRange(l, selected) && k <= |selected|
    ensures |r| == |img|
  {
    if k == 0 then img else
      var before := Claimed(l, img, selected, k - 1);
      ClusterFits(l, selected[k - 1]);
      Patch(SetFat(l, before, selected[k - 1], Following(selected, k - 1)), ClusterStart(l, selected[k - 1]),
            Zeros(l.clusterSize))
  }

  /** Entries of clusters that are not selected stay. */
  lemma {:induction false} ClaimedValue(l: Layout, img: Bytes, selected: seq<nat>, k: nat, d: nat)
    requires Valid(l) && |img| == l.length && AllInRange(l, selected) && k <= |selected| && InRange(l, d)
    requires d !in selected[..k]
    ensures Value(l, Claimed(l, img, selected, k), d) == Value(l, img, d)
  {
    hide FatValue, Patch, ClusterStart, CopyStart, SetFat;
    if k > 0 {
      assert selected[..k - 1] == selected[..k][..k - 1] && selected[k - 1] in selected[..k];
      ClaimedValue(l, img, selected, k - 1, d);
      ClusterFits(l, selected[k - 1]);
      ClaimedStep(l, Claimed(l, img, selected, k - 1), selected[k - 1], Following(selected, k - 1), d);
    }
  }

  /** Each selected cluster leads to the next one. */
  lemma {:induction false} ClaimedLink(l: Layout, img: Bytes, selected: seq<nat>, k: nat, i: nat)
    requires Valid(l) && |img| == l.length && Selectable(l, selected) && i < k <= |selected|
    ensures Value(l, Claimed(l, img, selected, k), selected[i]) == Following(selected, i)
  {
    hide FatValue, Patch, ClusterStart, CopyStart, SetFat;
    if i < k - 1 { ClaimedLink(l, img, selected, k - 1, i); }
    ClusterFits(l, selected[k - 1]);
    ClaimedStep(l, Claimed(l, img, selected, k - 1), selected[k - 1], Following(selected, k - 1), selected[i]);
  }

  lemma ClaimedStep(l: Layout, img: Bytes, c: nat, v: nat, d: nat)
    requires Valid(l) && |img| == l.length && InRange(l, c) && v <= 0xFFF && InRange(l, d)
    requires ClusterStart(l, c) + l.clusterSize <= l.length
    ensures Value(l, Patch(SetFat(l, img, c, v), ClusterStart(l, c), Zeros(l.clusterSize)), d) ==
      if d == c then v else Value(l, img, d)
  {
    hide ClusterStart, CopyStart, Patch, FatValue, SetFat;
    var s := SetFat(l, img, c, v);
    ClusterFits(l, c);
    PatchKeeps(s, ClusterStart(l, c), Zeros(l.clusterSize), 0, l.rootStart);
    ValueFromPrefix(l, Patch(s, ClusterStart(l, c), Zeros(l.clusterSize)), s, d);
    SetFatIsExact(l, img, c, v, 0, d);
  }

  lemma {:induction false} ClaimedCluster(l: Layout, img: Bytes, selected: seq<nat>, k: nat, d: nat)
    requires Valid(l) && |img| == l.length && Selectable(l, selected) && k <= |selected| && InRange(l, d)
    ensures ClusterBytes(l, Claimed(l, img, selected, k), d) ==
      if d in selected[..k] then Zeros(l.clusterSize) else ClusterBytes(l, img, d)
  {
    hide Patch, ClusterStart, CopyStart, ClusterBytes, SetFat;
    if k > 0 {
      ClaimedCluster(l, img, selected, k - 1, d);
      var c := selected[k - 1];
      assert selected[..k] == selected[..k - 1] + [c];
      ClusterFits(l, c);
      ClusterStep(l, Claimed(l, img, selected, k - 1), c, Following(selected, k - 1), d);
    }
  }

  lemma ClusterStep(l: Layout, img: Bytes, c: nat, v: nat, d: nat)
    requires Valid(l) && |img| == l.length && InRange(l, c) && v <= 0xFFF && InRange(l, d)
    requires ClusterStart(l, c) + l.clusterSize <= l.length
    ensures ClusterBytes(l, Patch(SetFat(l, img, c, v), ClusterStart(l, c), Zeros(l.clusterSize)), d) ==
      if d == c then Zeros(l.clusterSize) else ClusterBytes(l, img, d)
  {
    hide ClusterStart, CopyStart, Patch, SetFat;
    var s := SetFat(l, img, c, v);
    if d == c {
      PatchWrites(s, ClusterStart(l, c), Zeros(l.clusterSize));
    } else {
      PatchClusterKeeps(l, s, c, Zeros(l.clusterSize), d);
      SetFatKeepsCluster(l, img, c, v, d);
    }
  }

  /** Bytes outside the tables and the selected clusters stay. */
  lemma {:induction false} ClaimedStays(l: Layout, img: Bytes, selected: seq<nat>, k: nat, p: nat)
    requires Valid(l) && |img| == l.length && AllInRange(l, selected) && k <= |selected|
    requires p < |img| && !InFat(l, p) && forall c :: c in selected ==> !InCluster(l, c, p)
    ensures Claimed(l, img, selected, k)[p] == img[p]
  {
    hide ClusterStart, CopyStart, SetCopies, Following, Laid, Roomy, AllInRange, Patch;
    if k > 0 {
      RangeAt(l, selected, k - 1);
      ClaimedStays(l, img, selected, k - 1, p);
      var before, c := Claimed(l, img, selected, k - 1), selected[k - 1];
      assert c in selected && !InCluster(l, c, p);
      ClusterFits(l, c);
      assert Following(selected, k - 1) <= 0xFFF by { FollowingFits(l, selected, k - 1); }
      SetCopiesStays(l, before, l.fatCount, c, Following(selected, k - 1), p);
      var set_ := SetFat(l, before, c, Following(selected, k - 1));
      hide SetFat, InFat;
      PatchOutside(set_, ClusterStart(l, c), Zeros(l.clusterSize), p);
    }
  }

  lemma RangeAt(l: Layout, cs: seq<nat>, k: nat)
    requires AllInRange(l, cs) && k < |cs|
    ensures InRange(l, cs[k])
  {
  }

  lemma FollowingFits(l: Layout, selected: seq<nat>, k: nat)
    requires Valid(l) && AllInRange(l, selected)
    ensures Following(selected, k) <= 0xFFF
  {
  }

  lemma {:induction false} ClaimedMirrors(l: Layout, img: Bytes, selected: seq<nat>, k: nat)
    requires Valid(l) && |img| == l.length && AllInRange(l, selected) && k <= |selected| && Mirrored(l, img)
    ensures Mirrored(l, Claimed(l, img, selected, k))
  {
    hide ClusterStart, CopyStart, Patch, SetFat, Mirrored, Laid, Roomy, Following;
    if k > 0 {
      ClaimedMirrors(l, img, selected, k - 1);
      FollowingFits(l, selected, k - 1);
      var before, c := Claimed(l, img, selected, k - 1), selected[k - 1];
      ClusterFits(l, c);
      SetFatMirrors(l, before, c, Following(selected, k - 1));
      var s := SetFat(l, before, c, Following(selected, k - 1));
      PatchKeeps(s, ClusterStart(l, c), Zeros(l.clusterSize), 0, l.rootStart);
      MirroredFromPrefix(l, s, Patch(s, ClusterStart(l, c), Zeros(l.clusterSize)));
    }
  }

  /** The claimed clusters form one chain from the first to the last. */
  lemma ClaimedIsChain(l: Layout, img: Bytes, selected: seq<nat>)
    requires Valid(l) && |img| == l.length && Selectable(l, selected) && selected != []
    ensures IsChain(l, Claimed(l, img, selected, |selected|), selected)
  {
    hide FatValue, Claimed, ClusterStart, CopyStart;
    var n := |selected|;
    forall i | 0 <= i < n ensures Value(l, Claimed(l, img, selected, n), selected[i]) == Following(selected, i) {
      ClaimedLink(l, img, selected, n, i);
    }
  }

  // ---------- filling clusters

  /** How much of the content the first k clusters take. */
  function Cut(content: Bytes, size: nat, k: nat): (n: nat)
    ensures n <= |content|
  {
    if k * size < |content| then k * size else |content|
  }

  lemma CutGrows(content: Bytes, size: nat, k: nat)
    ensures Cut(content, size, k) <= Cut(content, size, k + 1) <= Cut(content, size, k) + size
  {
    assert (k + 1) * size == k * size + size;
  }

  function Chunk(content: Bytes, size: nat, k: nat): (r: Bytes)
    ensures |r| <= size
  {
    CutGrows(content, size, k);
    content[Cut(content, size, k)..Cut(content, size, k + 1)]
  }

  /** Clusters needed for the content. */
  function Needed(content: Bytes, size: nat): nat
    requires size > 0
  {
    (|content| + size - 1) / size
  }

  lemma NeededCovers(content: Bytes, size: nat)
    requires size > 0
    ensures Cut(content, size, Needed(content, size)) == |content|
    ensures forall k: nat :: k < Needed(content, size) ==> Cut(content, size, k) == k * size
  {
    var n, total := Needed(content, size), |content| + size - 1;
    assert total == n * size + total % size;
    assert n * size >= |content|;
    forall k: nat | k < n ensures k * size < |content| {
      Times(k, n, size);
    }
  }

  /** The image after the first k clusters have received their part. */
  function Filled(l: Layout, img: Bytes, clusters: seq<nat>, content: Bytes, k: nat): (r: Bytes)
    requires Valid(l) && |img| == l.length && AllInRange(l, clusters) && k <= |clusters|
    ensures |r| == |img|
  {
    if k == 0 then img else
      ClusterFits(l, clusters[k - 1]);
      Patch(Filled(l, img, clusters, content, k - 1), ClusterStart(l, clusters[k - 1]),
            Chunk(content, l.clusterSize, k - 1))
  }

  lemma {:induction false} FilledPrefix(l: Layout, img: Bytes, clusters: seq<nat>, content: Bytes, k: nat)
    requires Valid(l) && |img| == l.length && AllInRange(l, clusters) && k <= |clusters|
    ensures Filled(l, img, clusters, content, k)[..l.dataStart] == img[..l.dataStart]
  {
    hide Patch, Chunk, ClusterStart, CopyStart;
    if k > 0 {
      FilledPrefix(l, img, clusters, content, k - 1);
      ClusterFits(l, clusters[k - 1]);
      PatchKeeps(Filled(l, img, clusters, content, k - 1), ClusterStart(l, clusters[k - 1]),
        Chunk(content, l.clusterSize, k - 1), 0, l.dataStart);
    }
  }

  lemma FilledTables(l: Layout, img: Bytes, clusters: seq<nat>, content: Bytes, k: nat)
    requires Valid(l) && |img| == l.length && AllInRange(l, clusters) && k <= |clusters|
    ensures Filled(l, img, clusters, content, k)[..l.rootStart] == img[..l.rootStart]
  {
    hide Filled, CopyStart, ClusterStart;
    var r := Filled(l, img, clusters, content, k);
    FilledPrefix(l, img, clusters, content, k);
    ClusterFits(l, 2);
    assert r[..l.rootStart] == r[..l.dataStart][..l.rootStart];
    assert img[..l.rootStart] == img[..l.dataStart][..l.rootStart];
  }

  lemma {:induction false} FilledOthers(l: Layout, img: Bytes, clusters: seq<nat>, content: Bytes, k: nat, d: nat)
    requires Valid(l) && |img| == l.length && AllInRange(l, clusters) && k <= |clusters| && InRange(l, d)
    requires d !in clusters[..k]
    ensures ClusterBytes(l, Filled(l, img, clusters, content, k), d) == ClusterBytes(l, img, d)
  {
    hide Patch, Chunk, ClusterStart, CopyStart, ClusterBytes;
    if k > 0 {
      assert clusters[..k - 1] == clusters[..k][..k - 1] && clusters[k - 1] in clusters[..k];
      FilledOthers(l, img, clusters, content, k - 1, d);
      ClusterFits(l, clusters[k - 1]);
      PatchClusterKeeps(l, Filled(l, img, clusters, content, k - 1), clusters[k - 1],
        Chunk(content, l.clusterSize, k - 1), d);
    }
  }

  lemma {:induction false} FilledStays(l: Layout, img: Bytes, clusters: seq<nat>, content: Bytes, k: nat, p: nat)
    requires Valid(l) && |img| == l.length && AllInRange(l, clusters) && k <= |clusters|
    requires p < |img| && forall c :: c in clusters ==> !InCluster(l, c, p)
    ensures Filled(l, img, clusters, content, k)[p] == img[p]
  {
    hide ClusterStart, CopyStart, Chunk, Patch, Laid, Roomy;
    if k > 0 {
      FilledStays(l, img, clusters, content, k - 1, p);
      var c := clusters[k - 1];
      ClusterFits(l, c);
      assert c in clusters && !InCluster(l, c, p);
      PatchOutside(Filled(l, img, clusters, content, k - 1), ClusterStart(l, c), Chunk(content, l.clusterSize, k - 1),
        p);
    }
  }

  lemma {:induction false} FilledChunk(l: Layout, img: Bytes, clusters: seq<nat>, content: Bytes, k: nat, i: nat)
    requires Valid(l) && |img| == l.length && Selectable(l, clusters) && i < k <= |clusters|
    ensures ClusterBytes(l, Filled(l, img, clusters, content, k), clusters[i])[..|Chunk(content, l.clusterSize, i)|]
         == Chunk(content, l.clusterSize, i)
  {
    hide Patch, Chunk, ClusterStart, CopyStart;
    ClusterFits(l, clusters[k - 1]);
    var before, chunk := Filled(l, img, clusters, content, k - 1), Chunk(content, l.clusterSize, k - 1);
    if i < k - 1 {
      FilledChunk(l, img, clusters, content, k - 1, i);
      PatchClusterKeeps(l, before, clusters[k - 1], chunk, clusters[i]);
    } else {
      var at := ClusterStart(l, clusters[k - 1]);
      PatchWrites(before, at, chunk);
      var r := Patch(before, at, chunk);
      assert r[at..at + l.clusterSize][..|chunk|] == r[at..at + |chunk|];
    }
  }

  lemma OneMoreChunk(a: Bytes, b: Bytes, content: Bytes, m: nat, n: nat)
    requires m <= n <= |content| && |a| == m && n - m <= |b| && a == content[..m] && b[..n - m] == content[m..n]
    ensures (a + b)[..n] == content[..n]
  {
  }

  /** Clusters that hold their parts hold the content when read along the chain. */
  lemma {:induction false} Reassembled(l: Layout, img: Bytes, cs: seq<nat>, content: Bytes, k: nat)
    requires Valid(l) && |img| == l.length && AllInRange(l, cs) && k <= |cs| == Needed(content, l.clusterSize)
    requires forall i :: 0 <= i < |cs| ==>
      ClusterBytes(l, img, cs[i])[..|Chunk(content, l.clusterSize, i)|] == Chunk(content, l.clusterSize, i)
    ensures Cut(content, l.clusterSize, k) <= |ChainBytes(l, img, cs[..k])|
    ensures ChainBytes(l, img, cs[..k])[..Cut(content, l.clusterSize, k)] == content[..Cut(content, l.clusterSize, k)]
  {
    hide ClusterBytes, ClusterStart, CopyStart;
    if k > 0 {
      Reassembled(l, img, cs, content, k - 1);
      NeededCovers(content, l.clusterSize);
      CutGrows(content, l.clusterSize, k - 1);
      var a, b := ChainBytes(l, img, cs[..k - 1]), ClusterBytes(l, img, cs[k - 1]);
      var m, n := Cut(content, l.clusterSize, k - 1), Cut(content, l.clusterSize, k);
      assert cs[..k][..k - 1] == cs[..k - 1];
      ChainLength(l, img, cs[..k - 1]);
      assert |a| == (k - 1) * l.clusterSize == m;
      assert ChainBytes(l, img, cs[..k]) == a + b;
      hide Cut, ChainBytes, Needed;
      OneMoreChunk(a, b, content, m, n);
    }
  }
}
