/** Adding one entry and its clusters to a FAT12 image. */
module FatAddition {
  import opened Basics
  import opened FatTable
  import opened FatFiles
  import opened FatDirectory

  /** A directory is the root area or one cluster. */
  datatype Place = Root | Sub(cluster: nat)

  predicate Exists(l: Layout, place: Place) { place.Sub? ==> InRange(l, place.cluster) }

  function Start(l: Layout, place: Place): nat
    requires Exists(l, place)
  {
    if place.Root? then l.rootStart else ClusterStart(l, place.cluster)
  }

  function Count(l: Layout, place: Place): nat {
    if place.Root? then l.rootEntries else l.clusterSize / 32
  }

  lemma PlaceFits(l: Layout, place: Place)
    requires Valid(l) && Exists(l, place)
    ensures l.rootStart <= Start(l, place) && Start(l, place) + 32 * Count(l, place) <= l.length
    ensures place.Root? ==> Start(l, place) + 32 * Count(l, place) <= l.dataStart
    ensures place.Sub? ==> l.dataStart <= Start(l, place) && 32 * Count(l, place) == l.clusterSize
  {
    if place.Sub? {
      ClusterFits(l, place.cluster);
    } else {
      ClusterFits(l, 2);
    }
  }

  predicate InPlace(l: Layout, place: Place, p: nat)
    requires Exists(l, place)
  {
    Start(l, place) <= p < Start(l, place) + 32 * Count(l, place)
  }

  /** Position p is in none of the clusters. */
  predicate Clear(l: Layout, cs: seq<nat>, p: nat) { forall c :: c in cs ==> !InCluster(l, c, p) }

  /** A directory lies outside the tables and every other cluster. */
  lemma PlaceIsApart(l: Layout, place: Place, cs: seq<nat>, p: nat)
    requires Valid(l) && Exists(l, place) && AllInRange(l, cs) && InPlace(l, place, p)
    requires place.Sub? ==> place.cluster !in cs
    ensures !InFat(l, p) && Clear(l, cs, p)
  {
    hide ClusterStart, CopyStart, Laid, Roomy;
    PlaceFits(l, place);
    forall c | c in cs ensures !InCluster(l, c, p) {
      var i :| 0 <= i < |cs| && cs[i] == c;
      ClusterFits(l, c);
      if place.Sub? {
        if c < place.cluster { ClustersApart(l, c, place.cluster); } else { ClustersApart(l, place.cluster, c); }
      }
    }
  }

  /** The image with the clusters claimed and the content in them. */
  function Stored(l: Layout, img: Bytes, clusters: seq<nat>, content: Bytes): (r: Bytes)
    requires Valid(l) && |img| == l.length && AllInRange(l, clusters)
    ensures |r| == |img|
  {
    Filled(l, Claimed(l, img, clusters, |clusters|), clusters, content, |clusters|)
  }

  lemma StoredStays(l: Layout, img: Bytes, clusters: seq<nat>, content: Bytes, p: nat)
    requires Valid(l) && |img| == l.length && AllInRange(l, clusters) && p < |img| && !InFat(l, p)
    requires Clear(l, clusters, p)
    ensures Stored(l, img, clusters, content)[p] == img[p]
  {
    hide Claimed, Filled;
    ClaimedStays(l, img, clusters, |clusters|, p);
    FilledStays(l, Claimed(l, img, clusters, |clusters|), clusters, content, |clusters|, p);
  }

  lemma StoredValue(l: Layout, img: Bytes, clusters: seq<nat>, content: Bytes, d: nat)
    requires Valid(l) && |img| == l.length && AllInRange(l, clusters) && InRange(l, d)
    ensures Value(l, Stored(l, img, clusters, content), d) == Value(l, Claimed(l, img, clusters, |clusters|), d)
  {
    hide Claimed, Filled, FatValue, CopyStart, ClusterStart;
    var s := Claimed(l, img, clusters, |clusters|);
    FilledTables(l, s, clusters, content, |clusters|);
    ValueFromPrefix(l, s, Stored(l, img, clusters, content), d);
  }

  lemma StoredOther(l: Layout, img: Bytes, clusters: seq<nat>, content: Bytes, d: nat)
    requires Valid(l) && |img| == l.length && AllInRange(l, clusters) && InRange(l, d) && d !in clusters
    ensures Value(l, Stored(l, img, clusters, content), d) == Value(l, img, d)
  {
    hide Claimed, Stored, FatValue, CopyStart, ClusterStart;
    StoredValue(l, img, clusters, content, d);
    assert clusters[..|clusters|] == clusters;
    ClaimedValue(l, img, clusters, |clusters|, d);
  }

  lemma StoredMirrors(l: Layout, img: Bytes, clusters: seq<nat>, content: Bytes)
    requires Valid(l) && |img| == l.length && AllInRange(l, clusters) && Mirrored(l, img)
    ensures Mirrored(l, Stored(l, img, clusters, content))
  {
    hide Claimed, Filled, Mirrored, CopyStart, ClusterStart;
    var s := Claimed(l, img, clusters, |clusters|);
    FilledTables(l, s, clusters, content, |clusters|);
    ClaimedMirrors(l, img, clusters, |clusters|);
    MirroredFromPrefix(l, s, Stored(l, img, clusters, content));
  }

  lemma StoredIsChain(l: Layout, img: Bytes, clusters: seq<nat>, content: Bytes)
    requires Valid(l) && |img| == l.length && Selectable(l, clusters) && clusters != []
    ensures IsChain(l, Stored(l, img, clusters, content), clusters)
  {
    hide Claimed, Stored, FatValue;
    ClaimedIsChain(l, img, clusters);
    var s, t := Claimed(l, img, clusters, |clusters|), Stored(l, img, clusters, content);
    forall i | 0 <= i < |clusters| ensures Leads(Value(l, t, clusters[i]), clusters, i) {
      StoredValue(l, img, clusters, content, clusters[i]);
      assert Leads(Value(l, s, clusters[i]), clusters, i);
    }
  }

  /** Reading along the chain gives the content back. */
  lemma StoredReadsBack(l: Layout, img: Bytes, clusters: seq<nat>, content: Bytes)
    requires Valid(l) && |img| == l.length && Selectable(l, clusters) && |clusters| == Needed(content, l.clusterSize)
    ensures |content| <= |ChainBytes(l, Stored(l, img, clusters, content), clusters)|
    ensures ChainBytes(l, Stored(l, img, clusters, content), clusters)[..|content|] == content
  {
    hide Claimed, Filled, ClusterBytes, Chunk;
    var s, t, n := Claimed(l, img, clusters, |clusters|), Stored(l, img, clusters, content), |clusters|;
    forall i | 0 <= i < n
      ensures ClusterBytes(l, t, clusters[i])[..|Chunk(content, l.clusterSize, i)|] == Chunk(content, l.clusterSize, i)
    {
      FilledChunk(l, s, clusters, content, n, i);
    }
    Reassembled(l, t, clusters, content, n);
    NeededCovers(content, l.clusterSize);
    assert clusters[..n] == clusters && content[..|content|] == content;
  }

  // ---------- the directory entry

  ghost predicate SamePlace(l: Layout, a: Bytes, b: Bytes, place: Place)
    requires Valid(l) && Exists(l, place) && |a| == l.length == |b|
  {
    forall p {:trigger b[p]} :: 0 <= p < |a| && InPlace(l, place, p) ==> b[p] == a[p]
  }

  lemma StoredKeepsPlace(l: Layout, img: Bytes, clusters: seq<nat>, content: Bytes, place: Place)
    requires Valid(l) && |img| == l.length && AllInRange(l, clusters) && Exists(l, place)
    requires place.Sub? ==> place.cluster !in clusters
    ensures SamePlace(l, img, Stored(l, img, clusters, content), place)
  {
    hide Stored;
    var r := Stored(l, img, clusters, content);
    forall p: nat | p < |img| && InPlace(l, place, p) ensures r[p] == img[p] {
      PlaceIsApart(l, place, clusters, p);
      StoredStays(l, img, clusters, content, p);
    }
  }

  lemma {:induction false} FindStays(l: Layout, a: Bytes, b: Bytes, place: Place, name: Bytes, i: nat)
    requires Valid(l) && Exists(l, place) && |a| == l.length == |b| && SamePlace(l, a, b, place) && i <= Count(l, place)
    requires Holds(a, Start(l, place), Count(l, place)) && Holds(b, Start(l, place), Count(l, place))
    ensures Find(b, Start(l, place), Count(l, place), name, i) == Find(a, Start(l, place), Count(l, place), name, i)
    decreases Count(l, place) - i
  {
    hide Start, Count, Laid, Roomy;
    if i < Count(l, place) {
      SlotStays(l, a, b, place, i);
      FindStays(l, a, b, place, name, i + 1);
    }
  }

  lemma SlotStays(l: Layout, a: Bytes, b: Bytes, place: Place, i: nat)
    requires Valid(l) && Exists(l, place) && |a| == l.length == |b| && SamePlace(l, a, b, place) && i < Count(l, place)
    requires Holds(a, Start(l, place), Count(l, place))
    ensures First(b, Start(l, place), i) == First(a, Start(l, place), i)
    ensures NameAt(b, Start(l, place), i) == NameAt(a, Start(l, place), i)
  {
    hide Start, Count, Laid, Roomy;
    var s := Start(l, place);
    assert forall p :: s + 32 * i <= p < s + 32 * i + 32 ==> InPlace(l, place, p);
    assert NameAt(b, s, i) == NameAt(a, s, i);
  }

  lemma WellFormedStays(l: Layout, a: Bytes, b: Bytes, place: Place)
    requires Valid(l) && Exists(l, place) && |a| == l.length == |b| && SamePlace(l, a, b, place)
    requires Holds(a, Start(l, place), Count(l, place)) && Holds(b, Start(l, place), Count(l, place))
    requires WellFormed(a, Start(l, place), Count(l, place))
    ensures WellFormed(b, Start(l, place), Count(l, place))
  {
    hide Start, Count, Laid, Roomy;
    forall i: nat | i < Count(l, place) ensures First(b, Start(l, place), i) == First(a, Start(l, place), i) {
      SlotStays(l, a, b, place, i);
    }
  }

  lemma RunStays(l: Layout, a: Bytes, b: Bytes, place: Place, needed: nat, i: nat)
    requires Valid(l) && Exists(l, place) && |a| == l.length == |b| && SamePlace(l, a, b, place)
    requires Holds(a, Start(l, place), Count(l, place)) && Holds(b, Start(l, place), Count(l, place))
    requires i + needed <= Count(l, place)
    ensures Run(b, Start(l, place), Count(l, place), needed, i) == Run(a, Start(l, place), Count(l, place), needed, i)
  {
    hide Start, Count, Laid, Roomy, SamePlace;
    forall j | i <= j < i + needed ensures Vacant(b, Start(l, place), j) == Vacant(a, Start(l, place), j) {
      SlotStays(l, a, b, place, j);
    }
  }

  lemma FirstRunStays(l: Layout, a: Bytes, b: Bytes, place: Place, needed: nat, i: nat)
    requires Valid(l) && Exists(l, place) && |a| == l.length == |b| && SamePlace(l, a, b, place)
    requires Holds(a, Start(l, place), Count(l, place)) && Holds(b, Start(l, place), Count(l, place))
    requires i + needed <= Count(l, place)
    ensures FirstRun(b, Start(l, place), Count(l, place), needed, i) ==
      FirstRun(a, Start(l, place), Count(l, place), needed, i)
  {
    hide Start, Count, Laid, Roomy, SamePlace, Run;
    forall k: nat | k <= i
      ensures Run(b, Start(l, place), Count(l, place), needed, k) == Run(a, Start(l, place), Count(l, place), needed, k)
    {
      RunStays(l, a, b, place, needed, k);
    }
  }

  // ---------- a new entry and its clusters

  /** Entries written inside a directory change no table. */
  lemma InsertKeepsTables(l: Layout, img: Bytes, place: Place, i: nat, entries: Bytes)
    requires Valid(l) && Exists(l, place) && |img| == l.length
    requires |entries| % 32 == 0 && i + |entries| / 32 <= Count(l, place)
    ensures Start(l, place) + 32 * i + |entries| <= |img|
    ensures Inserted(img, Start(l, place), i, entries)[..l.rootStart] == img[..l.rootStart]
  {
    hide Start, Count, Laid, Roomy, Patch;
    PlaceFits(l, place);
    PatchKeeps(img, Start(l, place) + 32 * i, entries, 0, l.rootStart);
  }

  /** Entries written inside a directory change no other cluster. */
  lemma InsertKeepsCluster(l: Layout, img: Bytes, place: Place, i: nat, entries: Bytes, d: nat)
    requires Valid(l) && Exists(l, place) && |img| == l.length && InRange(l, d) && place != Sub(d)
    requires |entries| % 32 == 0 && i + |entries| / 32 <= Count(l, place)
    requires Start(l, place) + 32 * i + |entries| <= |img|
    ensures ClusterBytes(l, Inserted(img, Start(l, place), i, entries), d) == ClusterBytes(l, img, d)
  {
    PlaceFits(l, place);
    ClusterFits(l, d);
    if place.Sub? {
      if d < place.cluster { ClustersApart(l, d, place.cluster); } else { ClustersApart(l, place.cluster, d); }
    }
    hide Count, Laid, Roomy, Patch, ClusterStart;
    PatchKeeps(img, Start(l, place) + 32 * i, entries, ClusterStart(l, d), ClusterStart(l, d) + l.clusterSize);
  }

  /** What is to be added: where, under which name, and with which slots and content. */
  datatype Addition = Addition(place: Place, name: Bytes, slots: Bytes, content: Bytes)

  /** The clusters and the slot that the steps before the entry have chosen. */
  ghost predicate Planned(l: Layout, a: Bytes, add: Addition, clusters: seq<nat>, i: nat) {
    && Valid(l) && |a| == l.length && Exists(l, add.place) && Names(add.slots, add.name)
    && Holds(a, Start(l, add.place), Count(l, add.place))
    && Find(a, Start(l, add.place), Count(l, add.place), add.name, 0) == None
    && (add.place.Sub? ==> Value(l, a, add.place.cluster) != 0)
    && Selectable(l, clusters) && clusters != [] && |clusters| == Needed(add.content, l.clusterSize)
    && (forall k :: 0 <= k < |clusters| ==> Value(l, a, clusters[k]) == 0)
    && FirstRun(a, Start(l, add.place), Count(l, add.place), |add.slots| / 32, i)
  }

  /** The image once the content is stored and the slots are written. */
  function Result(l: Layout, a: Bytes, add: Addition, clusters: seq<nat>, i: nat): (r: Bytes)
    requires Planned(l, a, add, clusters, i)
    ensures |r| == l.length
  {
    PlaceFits(l, add.place);
    Inserted(Stored(l, a, clusters, add.content), Start(l, add.place), i, add.slots)
  }

  lemma PlanFits(l: Layout, a: Bytes, add: Addition, clusters: seq<nat>, i: nat)
    requires Planned(l, a, add, clusters, i)
    ensures add.place.Sub? ==> add.place.cluster !in clusters
    ensures |add.slots| % 32 == 0 && i + |add.slots| / 32 <= Count(l, add.place)
    ensures Start(l, add.place) + 32 * i + |add.slots| <= l.length
  {
    hide FatValue, ClusterStart, CopyStart, Find;
    PlaceFits(l, add.place);
  }

  /** The file's clusters form a chain whose bytes begin with the content. */
  lemma AddedReadsBack(l: Layout, a: Bytes, add: Addition, clusters: seq<nat>, i: nat)
    requires Planned(l, a, add, clusters, i)
    ensures var b := Result(l, a, add, clusters, i);
      && IsChain(l, b, clusters)
      && |add.content| <= |ChainBytes(l, b, clusters)| && ChainBytes(l, b, clusters)[..|add.content|] == add.content
  {
    hide Stored, FatValue, ClusterBytes, ClusterStart, CopyStart, FirstRun, Find, Inserted, Start, Count, Needed, Names;
    PlanFits(l, a, add, clusters, i);
    var s, b := Stored(l, a, clusters, add.content), Result(l, a, add, clusters, i);
    InsertKeepsTables(l, s, add.place, i, add.slots);
    StoredIsChain(l, a, clusters, add.content);
    StoredReadsBack(l, a, clusters, add.content);
    forall k | 0 <= k < |clusters| ensures Leads(Value(l, b, clusters[k]), clusters, k) {
      ValueFromPrefix(l, s, b, clusters[k]);
      assert Leads(Value(l, s, clusters[k]), clusters, k);
    }
    forall c | c in clusters ensures InRange(l, c) && ClusterBytes(l, b, c) == ClusterBytes(l, s, c) {
      InsertKeepsCluster(l, s, add.place, i, add.slots, c);
    }
    ChainStays(l, s, b, clusters);
  }

  /** The name is found at the last slot written, unless a never-used slot comes
      before the run: then it is not found at all. */
  lemma AddedIsFoundExactly(l: Layout, a: Bytes, add: Addition, clusters: seq<nat>, i: nat)
    requires Planned(l, a, add, clusters, i)
    ensures var b := Result(l, a, add, clusters, i);
      var at := Start(l, add.place) + 32 * i + |add.slots| - 32;
      && Holds(b, Start(l, add.place), Count(l, add.place)) && at + 32 <= |b|
      && i <= Count(l, add.place)
      && Find(b, Start(l, add.place), Count(l, add.place), add.name, 0) ==
         (if Used(a, Start(l, add.place), Count(l, add.place), 0, i) then Some(at) else None)
      && b[at..at + 32] == add.slots[|add.slots| - 32..]
  {
    hide Stored, FatValue, ClusterStart, CopyStart, FirstRun, Find, Start, Count, Needed, Laid, Roomy, Used;
    PlanFits(l, a, add, clusters, i);
    var s := Stored(l, a, clusters, add.content);
    PlaceHolds(l, s, add.place);
    PlaceHolds(l, Result(l, a, add, clusters, i), add.place);
    StoredKeepsPlace(l, a, clusters, add.content, add.place);
    FindStays(l, a, s, add.place, add.name, 0);
    UsedStays(l, a, s, add.place, i);
    InsertedIsFoundExactly(s, Start(l, add.place), Count(l, add.place), add.name, add.slots, i);
    LastSlot(s, Start(l, add.place) + 32 * i, add.slots);
  }

  lemma UsedStays(l: Layout, a: Bytes, b: Bytes, place: Place, i: nat)
    requires Valid(l) && Exists(l, place) && |a| == l.length == |b| && SamePlace(l, a, b, place)
    requires Holds(a, Start(l, place), Count(l, place)) && Holds(b, Start(l, place), Count(l, place))
    requires i <= Count(l, place)
    ensures Used(b, Start(l, place), Count(l, place), 0, i) == Used(a, Start(l, place), Count(l, place), 0, i)
  {
    hide Start, Count, Laid, Roomy, SamePlace;
    forall j: nat | j < i ensures First(b, Start(l, place), j) == First(a, Start(l, place), j) {
      SlotStays(l, a, b, place, j);
    }
  }

  /** A short name is always found, and a long one in a directory whose never-used
      slots come last. */
  lemma AddedIsFound(l: Layout, a: Bytes, add: Addition, clusters: seq<nat>, i: nat)
    requires Planned(l, a, add, clusters, i)
    requires |add.slots| == 32 || WellFormed(a, Start(l, add.place), Count(l, add.place))
    ensures i <= Count(l, add.place) && Used(a, Start(l, add.place), Count(l, add.place), 0, i)
    ensures var b := Result(l, a, add, clusters, i);
      && Holds(b, Start(l, add.place), Count(l, add.place))
      && Find(b, Start(l, add.place), Count(l, add.place), add.name, 0) ==
         Some(Start(l, add.place) + 32 * i + |add.slots| - 32)
  {
    hide Stored, Result, FatValue, ClusterStart, CopyStart, FirstRun, Find, Start, Count, Needed, Laid, Roomy,
      WellFormed;
    PlanFits(l, a, add, clusters, i);
    AddedIsFoundExactly(l, a, add, clusters, i);
    forall k: nat | k < i ensures First(a, Start(l, add.place), k) != 0 {
      UsedBefore(a, Start(l, add.place), Count(l, add.place), |add.slots| / 32, i, k);
    }
  }

  lemma LastSlot(img: Bytes, at: nat, slots: Bytes)
    requires |slots| >= 32 && at + |slots| <= |img|
    ensures Patch(img, at, slots)[at + |slots| - 32..at + |slots|] == slots[|slots| - 32..]
  {
  }

  /** A well-formed directory stays well formed. */
  lemma AddedIsWellFormed(l: Layout, a: Bytes, add: Addition, clusters: seq<nat>, i: nat)
    requires Planned(l, a, add, clusters, i) && WellFormed(a, Start(l, add.place), Count(l, add.place))
    ensures var b := Result(l, a, add, clusters, i);
      Holds(b, Start(l, add.place), Count(l, add.place)) && WellFormed(b, Start(l, add.place), Count(l, add.place))
  {
    hide Stored, FatValue, ClusterStart, CopyStart, FirstRun, Find, Start, Count, Needed, Laid, Roomy, WellFormed,
      Holds, Inserted, Names;
    PlanFits(l, a, add, clusters, i);
    var s := Stored(l, a, clusters, add.content);
    PlaceHolds(l, s, add.place);
    StoredKeepsPlace(l, a, clusters, add.content, add.place);
    FirstRunStays(l, a, s, add.place, |add.slots| / 32, i);
    WellFormedStays(l, a, s, add.place);
    InsertedIsWellFormed(s, Start(l, add.place), Count(l, add.place), add.name, add.slots, i);
  }

  lemma PlaceHolds(l: Layout, img: Bytes, place: Place)
    requires Valid(l) && Exists(l, place) && |img| == l.length
    ensures Holds(img, Start(l, place), Count(l, place))
  {
    PlaceFits(l, place);
  }

  /** Every entry of a cluster the file does not use stays. */
  lemma AddedKeepsValue(l: Layout, a: Bytes, add: Addition, clusters: seq<nat>, i: nat, d: nat)
    requires Planned(l, a, add, clusters, i) && InRange(l, d) && d !in clusters
    ensures Value(l, Result(l, a, add, clusters, i), d) == Value(l, a, d)
  {
    hide Stored, FatValue, ClusterStart, CopyStart, FirstRun, Find, Inserted, Start, Count, Needed, Names;
    PlanFits(l, a, add, clusters, i);
    var s := Stored(l, a, clusters, add.content);
    InsertKeepsTables(l, s, add.place, i, add.slots);
    ValueFromPrefix(l, s, Result(l, a, add, clusters, i), d);
    StoredOther(l, a, clusters, add.content, d);
  }

  lemma AddedMirrors(l: Layout, a: Bytes, add: Addition, clusters: seq<nat>, i: nat)
    requires Planned(l, a, add, clusters, i) && Mirrored(l, a)
    ensures Mirrored(l, Result(l, a, add, clusters, i))
  {
    hide Stored, FatValue, ClusterStart, CopyStart, FirstRun, Find, Inserted, Start, Count, Needed, Mirrored, Names;
    PlanFits(l, a, add, clusters, i);
    var s := Stored(l, a, clusters, add.content);
    InsertKeepsTables(l, s, add.place, i, add.slots);
    StoredMirrors(l, a, clusters, add.content);
    MirroredFromPrefix(l, s, Result(l, a, add, clusters, i));
  }

  /** Only the tables, the new clusters and the new slots change. */
  lemma AddedStays(l: Layout, a: Bytes, add: Addition, clusters: seq<nat>, i: nat, p: nat)
    requires Planned(l, a, add, clusters, i) && p < |a| && !InFat(l, p) && Clear(l, clusters, p)
    requires p < Start(l, add.place) + 32 * i || Start(l, add.place) + 32 * i + |add.slots| <= p
    ensures Result(l, a, add, clusters, i)[p] == a[p]
  {
    hide Stored, FatValue, ClusterStart, CopyStart, FirstRun, Find, Start, Count, Needed, Clear, Names;
    PlanFits(l, a, add, clusters, i);
    StoredStays(l, a, clusters, add.content, p);
  }

  lemma StoredKeepsCluster(l: Layout, img: Bytes, clusters: seq<nat>, content: Bytes, d: nat)
    requires Valid(l) && |img| == l.length && Selectable(l, clusters) && InRange(l, d) && d !in clusters
    ensures ClusterBytes(l, Stored(l, img, clusters, content), d) == ClusterBytes(l, img, d)
  {
    hide Claimed, Filled, ClusterBytes;
    assert clusters[..|clusters|] == clusters;
    ClaimedCluster(l, img, clusters, |clusters|, d);
    FilledOthers(l, Claimed(l, img, clusters, |clusters|), clusters, content, |clusters|, d);
  }

  lemma AddedKeepsCluster(l: Layout, a: Bytes, add: Addition, clusters: seq<nat>, i: nat, d: nat)
    requires Planned(l, a, add, clusters, i) && InRange(l, d) && d !in clusters && add.place != Sub(d)
    ensures ClusterBytes(l, Result(l, a, add, clusters, i), d) == ClusterBytes(l, a, d)
  {
    hide Stored, FatValue, ClusterStart, CopyStart, FirstRun, Find, Inserted, Start, Count, Needed, ClusterBytes, Names;
    PlanFits(l, a, add, clusters, i);
    InsertKeepsCluster(l, Stored(l, a, clusters, add.content), add.place, i, add.slots, d);
    StoredKeepsCluster(l, a, clusters, add.content, d);
  }

  /** Every file that was there keeps its chain and its bytes, unless it is the
      directory the entry went into. */
  lemma OtherFilesStay(l: Layout, a: Bytes, add: Addition, clusters: seq<nat>, i: nat, cs: seq<nat>)
    requires Planned(l, a, add, clusters, i) && IsChain(l, a, cs)
    requires add.place.Sub? ==> add.place.cluster !in cs
    ensures var b := Result(l, a, add, clusters, i);
      IsChain(l, b, cs) && ChainBytes(l, b, cs) == ChainBytes(l, a, cs)
  {
    var b := Result(l, a, add, clusters, i);
    hide Result, FatValue, ClusterStart, CopyStart, FirstRun, Find, Start, Count, Needed, ClusterBytes, Stored, Laid,
      Roomy, Names;
    forall c | c in cs ensures c !in clusters && InRange(l, c) {
      ChainIsClaimed(l, a, cs, c);
    }
    forall k | 0 <= k < |cs| ensures Leads(Value(l, b, cs[k]), cs, k) {
      AddedKeepsValue(l, a, add, clusters, i, cs[k]);
      assert Leads(Value(l, a, cs[k]), cs, k);
    }
    forall c | c in cs ensures ClusterBytes(l, b, c) == ClusterBytes(l, a, c) {
      AddedKeepsCluster(l, a, add, clusters, i, c);
    }
    ChainStays(l, a, b, cs);
  }
}
