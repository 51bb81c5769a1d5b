/** What injecting a file into a FAT12 image does: the directory step, the file, and both together. */
module FatInjection {
  import opened Basics
  import opened FatTable
  import opened FatFiles
  import opened FatDirectory
  import opened FatAddition

  /** Bytes of a directory's first two entries. */
  function Dots(c: nat): (r: Bytes)
    requires c <= 0xFFFF
    ensures |r| == 64
  {
    Entry(ShortName(".").value, 0x10, c, 0) + Entry(ShortName("..").value, 0x10, 0, 0)
  }

  /** The addition that makes a file in a directory. */
  function FileAddition(place: Place, file: string, content: Bytes, c: nat): Addition
    requires FileNames(file).Some? && c <= 0xFFFF && |content| <= 0xFFFFFFFF
  {
    Addition(place, FileNames(file).value.0, Slots(FileNames(file).value, c, |content|), content)
  }

  /** The addition that makes a one-cluster directory in the root. */
  function DirectoryAddition(name: string, c: nat): Addition
    requires ShortName(name).Some? && c <= 0xFFFF
  {
    Addition(Root, ShortName(name).value, Entry(ShortName(name).value, 0x10, c, 0), Dots(c))
  }

  lemma PatchTwice(img: Bytes, at: nat, x: Bytes, y: Bytes)
    requires at + |x| + |y| <= |img|
    ensures Patch(Patch(img, at, x), at + |x|, y) == Patch(img, at, x + y)
  {
  }

  lemma PatchesCommute(img: Bytes, at: nat, x: Bytes, to: nat, y: Bytes)
    requires at + |x| <= to && to + |y| <= |img|
    ensures Patch(Patch(img, at, x), to, y) == Patch(Patch(img, to, y), at, x)
  {
  }

  lemma DirectoryNames(name: string, c: nat)
    requires ShortName(name).Some? && name != "." && name != ".." && c <= 0xFFFF
    ensures Names(DirectoryAddition(name, c).slots, ShortName(name).value)
  {
    hide ShortName, Entry;
    assert FileNames(name).value.0 == ShortName(name).value;
    FileNamesArePrintable(name);
  }

  /** Storing the dot entries puts them at the start of the cleared cluster. */
  lemma DotsStored(l: Layout, a: Bytes, c: nat)
    requires Valid(l) && |a| == l.length && InRange(l, c)
    ensures ClusterStart(l, c) + 64 <= l.length && Needed(Dots(c), l.clusterSize) == 1
    ensures Stored(l, a, [c], Dots(c)) == Patch(Claimed(l, a, [c], 1), ClusterStart(l, c), Dots(c))
  {
    hide Dots, Claimed, ClusterStart, CopyStart, Patch;
    ClusterFits(l, c);
    OneCluster(64, l.clusterSize);
    var d := Dots(c);
    assert Chunk(d, l.clusterSize, 0) == d;
    assert Filled(l, Claimed(l, a, [c], 1), [c], d, 0) == Claimed(l, a, [c], 1);
    assert [c][1 - 1] == c;
  }

  lemma OneCluster(n: nat, size: nat)
    requires 0 < n <= size
    ensures (n + size - 1) / size == 1
  {
    assert n + size - 1 < 2 * size;
  }

  function Width(names: (Bytes, Option<string>)): nat { if names.1.Some? then 2 else 1 }

  lemma NeededIsPositive(content: Bytes, size: nat)
    requires size > 0 && content != []
    ensures Needed(content, size) > 0
  {
    var t := |content| + size - 1;
    assert t >= size;
    assert t / size >= 1;
  }

  lemma RunFits(img: Bytes, start: nat, count: nat, needed: nat, i: nat)
    requires Holds(img, start, count) && FirstRun(img, start, count, needed, i)
    ensures i + needed <= count
  {
  }

  /** What AddFile's steps establish is a plan. */
  lemma FilePlan(l: Layout, a: Bytes, place: Place, file: string, content: Bytes, clusters: seq<nat>, i: nat)
    requires Valid(l) && |a| == l.length && Exists(l, place) && (place.Sub? ==> Value(l, a, place.cluster) != 0)
    requires FileNames(file).Some? && file != "." && file != ".." && |content| <= 0xFFFFFFFF
    requires Selectable(l, clusters) && clusters != [] && clusters[0] <= 0xFFFF
    requires |clusters| == Needed(content, l.clusterSize)
    requires forall k :: 0 <= k < |clusters| ==> Value(l, a, clusters[k]) == 0
    requires Holds(a, Start(l, place), Count(l, place))
    requires Holds(Stored(l, a, clusters, content), Start(l, place), Count(l, place))
    requires Find(a, Start(l, place), Count(l, place), FileNames(file).value.0, 0) == None
    requires
      FirstRun(Stored(l, a, clusters, content), Start(l, place), Count(l, place), Width(FileNames(file).value), i)
    ensures Planned(l, a, FileAddition(place, file, content, clusters[0]), clusters, i)
  {
    hide FatValue, CopyStart, ClusterStart, Patch, FileNames, Find, FirstRun, Start, Count, Stored, Names, Slots,
      Needed, Laid, Roomy, AllInRange, Distinct, Holds;
    RunFits(Stored(l, a, clusters, content), Start(l, place), Count(l, place), Width(FileNames(file).value), i);
    SlotsName(file, clusters[0], |content|);
    StoredKeepsPlace(l, a, clusters, content, place);
    FirstRunStays(l, a, Stored(l, a, clusters, content), place, Width(FileNames(file).value), i);
  }

  lemma {:induction false} FindFits(img: Bytes, start: nat, count: nat, name: Bytes, i: nat)
    requires Holds(img, start, count) && i <= count && Find(img, start, count, name, i).Some?
    ensures Find(img, start, count, name, i).value + 32 <= |img|
    decreases count - i
  {
    if Find(img, start, count, name, i) != Some(start + 32 * i) { FindFits(img, start, count, name, i + 1); }
  }

  /** The root names a one-cluster directory. */
  predicate NamesDirectory(l: Layout, img: Bytes, name: Bytes, c: nat)
    requires Valid(l) && |img| == l.length
  {
    PlaceHolds(l, img, Root);
    var e := Find(img, l.rootStart, l.rootEntries, name, 0);
    && e.Some? && e.value + 32 <= |img| && img[e.value + 11] / 16 % 2 == 1
    && img[e.value + 26] as int + 256 * img[e.value + 27] as int == c
  }

  lemma MadeEnds(l: Layout, a: Bytes, name: string, c: nat, i: nat)
    requires ShortName(name).Some? && c <= 0xFFFF && Planned(l, a, DirectoryAddition(name, c), [c], i)
    ensures InRange(l, c) && Ends(Value(l, Result(l, a, DirectoryAddition(name, c), [c], i), c))
  {
    hide Result, Planned, FatValue;
    AddedReadsBack(l, a, DirectoryAddition(name, c), [c], i);
    assert [c][0] == c;
  }

  lemma DirectoryPlan(l: Layout, a: Bytes, name: string, c: nat, i: nat)
    requires Valid(l) && |a| == l.length && InRange(l, c) && Value(l, a, c) == 0
    requires ShortName(name).Some? && name != "." && name != ".."
    requires Holds(a, l.rootStart, l.rootEntries) && Holds(Claimed(l, a, [c], 1), l.rootStart, l.rootEntries)
    requires Find(a, l.rootStart, l.rootEntries, ShortName(name).value, 0) == None
    requires FirstRun(Claimed(l, a, [c], 1), l.rootStart, l.rootEntries, 1, i)
    ensures Planned(l, a, DirectoryAddition(name, c), [c], i)
  {
    hide FatValue, CopyStart, ClusterStart, Patch, ShortName, Find, FirstRun, Claimed, Names, Entry, Dots, Stored,
      Needed, Laid, Roomy;
    LayoutFacts(l);
    RunFits(Claimed(l, a, [c], 1), l.rootStart, l.rootEntries, 1, i);
    DirectoryNames(name, c);
    DotsStored(l, a, c);
    ClaimedKeepsRoot(l, a, c);
    FirstRunStays(l, a, Claimed(l, a, [c], 1), Root, 1, i);
  }

  /** The order of the directory's writes does not matter. */
  lemma DirectoryResult(l: Layout, a: Bytes, name: string, c: nat, i: nat)
    requires ShortName(name).Some? && c <= 0xFFFF && Planned(l, a, DirectoryAddition(name, c), [c], i)
    ensures InRange(l, c) && l.rootStart + 32 * i + 32 <= l.dataStart <= ClusterStart(l, c)
    ensures ClusterStart(l, c) + 64 <= l.length
    ensures Result(l, a, DirectoryAddition(name, c), [c], i) ==
      Patch(Patch(Claimed(l, a, [c], 1), l.rootStart + 32 * i, Entry(ShortName(name).value, 0x10, c, 0)),
            ClusterStart(l, c), Dots(c))
  {
    hide FatValue, CopyStart, ClusterStart, Patch, ShortName, Find, FirstRun, Claimed, Names, Entry, Dots, Stored,
      Needed, Laid, Roomy;
    assert [c][0] == c;
    PlanFits(l, a, DirectoryAddition(name, c), [c], i);
    DotsStored(l, a, c);
    PlaceFits(l, Root);
    ClusterFits(l, c);
    PatchesCommute(Claimed(l, a, [c], 1), l.rootStart + 32 * i, Entry(ShortName(name).value, 0x10, c, 0),
      ClusterStart(l, c), Dots(c));
  }

  lemma ClaimedKeepsRoot(l: Layout, a: Bytes, c: nat)
    requires Valid(l) && |a| == l.length && InRange(l, c)
    ensures SamePlace(l, a, Claimed(l, a, [c], 1), Root)
  {
    hide Claimed, Clear;
    var r := Claimed(l, a, [c], 1);
    forall p: nat | p < |a| && InPlace(l, Root, p) ensures r[p] == a[p] {
      PlaceIsApart(l, Root, [c], p);
      ClearOne(l, c, p);
      ClaimedStays(l, a, [c], 1, p);
    }
  }

  lemma ClearOne(l: Layout, c: nat, p: nat)
    requires Clear(l, [c], p)
    ensures forall d :: d in [c] ==> !InCluster(l, d, p)
  {
  }

  /** A new directory is well formed, so any name can be entered in it. */
  lemma MadeIsWellFormed(l: Layout, a: Bytes, name: string, c: nat, i: nat)
    requires ShortName(name).Some? && c <= 0xFFFF && Planned(l, a, DirectoryAddition(name, c), [c], i)
    ensures var b := Result(l, a, DirectoryAddition(name, c), [c], i);
      && Holds(b, Start(l, Sub(c)), Count(l, Sub(c))) && WellFormed(b, Start(l, Sub(c)), Count(l, Sub(c)))
  {
    hide Result, Dots, ShortName, Laid, Roomy, CopyStart, FirstRun, Find, Names, FatValue, Entry;
    var b := Result(l, a, DirectoryAddition(name, c), [c], i);
    MadeBytes(l, a, name, c, i);
    PlaceFits(l, Sub(c));
    DotsStart(c);
    assert |b| == l.length && l.clusterSize >= 512 by { LayoutFacts(l); }
    hide Planned;
    DottedIsWellFormed(b, Start(l, Sub(c)), Count(l, Sub(c)), Dots(c));
  }

  lemma LayoutFacts(l: Layout)
    requires Valid(l)
    ensures l.clusterSize >= 512 && l.clusterCount < 4085
  {
  }

  lemma DottedIsWellFormed(img: Bytes, start: nat, count: nat, dots: Bytes)
    requires Holds(img, start, count) && count >= 2 && |dots| == 64 && dots[0] != 0 && dots[32] != 0
    requires img[start..start + 32 * count] == dots + Zeros(32 * count - 64)
    ensures WellFormed(img, start, count)
  {
    forall j: nat | j < count
      ensures First(img, start, j) == if j == 0 then dots[0] else if j == 1 then dots[32] else 0
    {
      assert First(img, start, j) == img[start..start + 32 * count][32 * j];
    }
  }

  lemma DotsStart(c: nat)
    requires c <= 0xFFFF
    ensures Dots(c)[0] == 46 && Dots(c)[32] == 46
  {
    hide Entry;
    assert Entry(ShortName(".").value, 0x10, c, 0)[..11][0] == 46;
    assert Entry(ShortName("..").value, 0x10, 0, 0)[..11][0] == 46;
  }

  lemma MadeBytes(l: Layout, a: Bytes, name: string, c: nat, i: nat)
    requires ShortName(name).Some? && c <= 0xFFFF && Planned(l, a, DirectoryAddition(name, c), [c], i)
    ensures InRange(l, c)
    ensures ClusterBytes(l, Result(l, a, DirectoryAddition(name, c), [c], i), c) == Dots(c) + Zeros(l.clusterSize - 64)
  {
    hide FatValue, CopyStart, ClusterStart, Patch, ShortName, Find, FirstRun, Claimed, Names, Entry, Dots, Stored,
      Needed;
    assert [c][0] == c;
    var add := DirectoryAddition(name, c);
    PlanFits(l, a, add, [c], i);
    var s, claimed := Stored(l, a, [c], Dots(c)), Claimed(l, a, [c], 1);
    InsertKeepsCluster(l, s, Root, i, add.slots, c);
    DotsStored(l, a, c);
    assert c in [c][..1];
    ClaimedCluster(l, a, [c], 1, c);
    ClusterFits(l, c);
    PatchedStart(claimed, ClusterStart(l, c), l.clusterSize, Dots(c));
  }

  lemma PatchedStart(img: Bytes, at: nat, size: nat, bytes: Bytes)
    requires |bytes| <= size && at + size <= |img| && img[at..at + size] == Zeros(size)
    ensures Patch(img, at, bytes)[at..at + size] == bytes + Zeros(size - |bytes|)
  {
    hide Patch;
    PatchSlice(img, at, bytes, size);
    assert Zeros(size)[|bytes|..] == Zeros(size - |bytes|);
  }

  // ---------- when a file can be injected

  /** A file can be added to a directory: it has a name, the name is not there,
      and there are clusters for the content and a run of slots for the name. */
  ghost predicate Addable(l: Layout, img: Bytes, place: Place, file: string, content: Bytes)
    requires Valid(l) && |img| == l.length && Exists(l, place)
  {
    PlaceHolds(l, img, place);
    && FileNames(file).Some?
    && Find(img, Start(l, place), Count(l, place), FileNames(file).value.0, 0) == None
    && Needed(content, l.clusterSize) <= |Free(l, img, l.clusterCount + 2)|
    && exists i: nat :: HasRun(img, Start(l, place), Count(l, place), Width(FileNames(file).value), i)
  }

  /** The root names an existing one-cluster directory. */
  ghost predicate Existing(l: Layout, img: Bytes, name: string, c: nat)
    requires Valid(l) && |img| == l.length
  {
    && ShortName(name).Some? && NamesDirectory(l, img, ShortName(name).value, c)
    && InRange(l, c) && Ends(Value(l, img, c))
  }

  /** A directory can be made: the root does not hold the name and has a free slot,
      and a cluster is free. */
  ghost predicate Makeable(l: Layout, img: Bytes, name: string)
    requires Valid(l) && |img| == l.length
  {
    PlaceHolds(l, img, Root);
    && ShortName(name).Some? && Find(img, l.rootStart, l.rootEntries, ShortName(name).value, 0) == None
    && Free(l, img, l.clusterCount + 2) != []
    && exists i: nat :: HasRun(img, l.rootStart, l.rootEntries, 1, i)
  }

  /** The directory is made in the lowest free cluster and the first free slot. */
  ghost predicate Made(l: Layout, a: Bytes, name: string, c: nat, i: nat, b: Bytes)
    requires Valid(l) && |a| == l.length
  {
    && ShortName(name).Some? && c <= 0xFFFF && Planned(l, a, DirectoryAddition(name, c), [c], i)
    && b == Result(l, a, DirectoryAddition(name, c), [c], i)
    && Free(l, a, l.clusterCount + 2) != [] && Free(l, a, l.clusterCount + 2)[0] == c
  }

  /** A file can be injected: the content and the names are acceptable, and there
      is room for the file and for a directory still to be made. */
  ghost predicate Injectable(l: Layout, img: Bytes, directory: Option<string>, file: string, content: Bytes)
    requires Valid(l) && |img| == l.length
  {
    && 0 < |content| <= 0xFFFFFFFF && file != "." && file != ".."
    && if directory.None? then Addable(l, img, Root, file, content)
       else
         && directory.value != "." && directory.value != ".."
         && ((&& Makeable(l, img, directory.value) && FileNames(file).Some?
              && Needed(content, l.clusterSize) < |Free(l, img, l.clusterCount + 2)|)
             || exists c :: Existing(l, img, directory.value, c) && Addable(l, img, Sub(c), file, content))
  }

  lemma ExistingIsOne(l: Layout, img: Bytes, name: string, c: nat, d: nat)
    requires Valid(l) && |img| == l.length && Existing(l, img, name, c)
    ensures !Makeable(l, img, name) && (Existing(l, img, name, d) ==> c == d)
  {
    hide FatValue, Find, ShortName, Laid, Roomy;
  }

  /** Taking one cluster leaves one free cluster less. */
  lemma {:induction false} FreeLess(l: Layout, a: Bytes, b: Bytes, c: nat, n: nat)
    requires Valid(l) && |a| == l.length == |b| && 2 <= n <= l.clusterCount + 2 && InRange(l, c)
    requires Value(l, a, c) == 0 && Value(l, b, c) != 0
    requires forall d: nat :: InRange(l, d) && d != c ==> Value(l, b, d) == Value(l, a, d)
    ensures |Free(l, a, n)| == |Free(l, b, n)| + if c < n then 1 else 0
  {
    hide FatValue, Laid, Roomy;
    if n > 2 { FreeLess(l, a, b, c, n - 1); }
  }

  lemma MadeLeavesFree(l: Layout, a: Bytes, name: string, c: nat, i: nat, b: Bytes)
    requires Valid(l) && |a| == l.length && Made(l, a, name, c, i, b)
    ensures |Free(l, a, l.clusterCount + 2)| == |Free(l, b, l.clusterCount + 2)| + 1
  {
    hide FatValue, Laid, Roomy, Result, DirectoryAddition, FirstRun, Find, Names, Free;
    var add := DirectoryAddition(name, c);
    assert [c][0] == c;
    MadeEnds(l, a, name, c, i);
    forall d: nat | InRange(l, d) && d != c ensures Value(l, b, d) == Value(l, a, d) {
      AddedKeepsValue(l, a, add, [c], i, d);
    }
    FreeLess(l, a, b, c, l.clusterCount + 2);
  }

  /** A new directory holds no file's name, and has room for any. */
  lemma DottedHasRoom(img: Bytes, start: nat, count: nat, dots: Bytes, name: Bytes, needed: nat)
    requires Holds(img, start, count) && count >= 4 && |dots| == 64 && dots[0] == 46 && dots[32] == 46
    requires img[start..start + 32 * count] == dots + Zeros(32 * count - 64)
    requires |name| == 11 && name[0] != 46 && needed <= 2
    ensures Find(img, start, count, name, 0) == None && HasRun(img, start, count, needed, 2)
  {
    forall j: nat | j < count ensures First(img, start, j) == if j < 2 then 46 else 0 {
      assert First(img, start, j) == img[start..start + 32 * count][32 * j];
    }
    assert NameAt(img, start, 0)[0] == First(img, start, 0) && NameAt(img, start, 1)[0] == First(img, start, 1);
    assert Find(img, start, count, name, 2) == None;
  }

  /** A file fits in a directory just made when the clusters suffice for both. */
  lemma MadeIsAddable(l: Layout, a: Bytes, name: string, c: nat, i: nat, b: Bytes, file: string, content: Bytes)
    requires Valid(l) && |a| == l.length && Made(l, a, name, c, i, b) && InRange(l, c)
    requires file != "." && file != ".."
    ensures Addable(l, b, Sub(c), file, content) <==>
      FileNames(file).Some? && Needed(content, l.clusterSize) < |Free(l, a, l.clusterCount + 2)|
  {
    hide FatValue, Laid, Roomy, Result, DirectoryAddition, FirstRun, Names, Free, FileNames, Find, HasRun, Needed, Dots;
    MadeLeavesFree(l, a, name, c, i, b);
    if FileNames(file).Some? {
      FileNamesArePrintable(file);
      MadeBytes(l, a, name, c, i);
      DotsStart(c);
      PlaceFits(l, Sub(c));
      LayoutFacts(l);
      DottedHasRoom(b, Start(l, Sub(c)), Count(l, Sub(c)), Dots(c), FileNames(file).value.0,
        Width(FileNames(file).value));
    }
  }

  // ---------- what an injection establishes

  function ClusterField(img: Bytes, e: nat): nat
    requires e + 32 <= |img|
  {
    img[e + 26] as int + 256 * img[e + 27] as int
  }

  function SizeField(img: Bytes, e: nat): nat
    requires e + 32 <= |img|
  {
    img[e + 28] as int + 256 * img[e + 29] as int + 65536 * img[e + 30] as int + 16777216 * img[e + 31] as int
  }

  /** The bytes a chain gives for the size of the content are the content. */
  ghost predicate ChainReads(l: Layout, img: Bytes, cs: seq<nat>, content: Bytes)
    requires Valid(l) && |img| == l.length && IsChain(l, img, cs)
  {
    |content| <= |ChainBytes(l, img, cs)| && ChainBytes(l, img, cs)[..|content|] == content
  }

  /** Looking a name up in a directory and following its entry gives the content. */
  ghost predicate Reads(l: Layout, img: Bytes, place: Place, name: Bytes, content: Bytes)
    requires Valid(l) && |img| == l.length && Exists(l, place)
  {
    PlaceHolds(l, img, place);
    var e := Find(img, Start(l, place), Count(l, place), name, 0);
    && e.Some? && e.value + 32 <= |img| && SizeField(img, e.value) == |content|
    && exists cs :: IsChain(l, img, cs) && cs[0] == ClusterField(img, e.value) && ChainReads(l, img, cs, content)
  }

  /** No never-used slot comes before the first run of free slots. */
  ghost predicate Orderly(l: Layout, img: Bytes, place: Place, needed: nat)
    requires Valid(l) && |img| == l.length && Exists(l, place)
  {
    PlaceHolds(l, img, place);
    forall i: nat :: FirstRun(img, Start(l, place), Count(l, place), needed, i) ==>
      Used(img, Start(l, place), Count(l, place), 0, i)
  }

  /** Every chain that does not use the cluster of the directory stays, with its bytes. */
  ghost predicate Kept(l: Layout, a: Bytes, b: Bytes, place: Place)
    requires Valid(l) && |a| == l.length == |b|
  {
    forall cs :: IsChain(l, a, cs) && (place.Sub? ==> place.cluster !in cs) ==>
      IsChain(l, b, cs) && ChainBytes(l, b, cs) == ChainBytes(l, a, cs)
  }

  /** Every name found in a directory is still found there, in the same entry. */
  ghost predicate Lookups(l: Layout, a: Bytes, b: Bytes, place: Place)
    requires Valid(l) && |a| == l.length == |b| && Exists(l, place)
  {
    PlaceHolds(l, a, place);
    PlaceHolds(l, b, place);
    forall name: Bytes :: |name| == 11 && Printable(name) ==> LookupStays(l, a, b, place, name)
  }

  predicate LookupStays(l: Layout, a: Bytes, b: Bytes, place: Place, name: Bytes)
    requires Valid(l) && |a| == l.length == |b| && Exists(l, place)
    requires Holds(a, Start(l, place), Count(l, place)) && Holds(b, Start(l, place), Count(l, place))
  {
    var e := Find(a, Start(l, place), Count(l, place), name, 0);
    e.Some? ==>
      && Find(b, Start(l, place), Count(l, place), name, 0) == e
      && e.value + 32 <= |a| && b[e.value..e.value + 32] == a[e.value..e.value + 32]
  }

  /** A directory that is not touched answers every lookup as before. */
  lemma SameLookups(l: Layout, a: Bytes, b: Bytes, place: Place)
    requires Valid(l) && |a| == l.length == |b| && Exists(l, place) && SamePlace(l, a, b, place)
    ensures Lookups(l, a, b, place)
  {
    hide Laid, Roomy, SamePlace, Start, Count, Find;
    PlaceHolds(l, a, place);
    PlaceHolds(l, b, place);
    forall name: Bytes | |name| == 11 ensures LookupStays(l, a, b, place, name) {
      FindStays(l, a, b, place, name, 0);
      var e := Find(a, Start(l, place), Count(l, place), name, 0);
      if e.Some? {
        FindIsSlot(a, Start(l, place), Count(l, place), name, 0);
        var k: nat :| k < Count(l, place) && e.value == Start(l, place) + 32 * k;
        BytesStay(l, a, b, place, k);
      }
    }
  }

  lemma BytesStay(l: Layout, a: Bytes, b: Bytes, place: Place, k: nat)
    requires Valid(l) && Exists(l, place) && |a| == l.length == |b| && SamePlace(l, a, b, place) && k < Count(l, place)
    requires Holds(a, Start(l, place), Count(l, place))
    ensures var e := Start(l, place) + 32 * k; b[e..e + 32] == a[e..e + 32]
  {
    hide Start, Count, Laid, Roomy;
    var s := Start(l, place);
    assert forall p :: s + 32 * k <= p < s + 32 * k + 32 ==> InPlace(l, place, p);
  }

  lemma {:induction false} FindIsSlot(img: Bytes, start: nat, count: nat, name: Bytes, i: nat)
    requires Holds(img, start, count) && i <= count && Find(img, start, count, name, i).Some?
    ensures exists k: nat ::
      i <= k < count && !Vacant(img, start, k) && Find(img, start, count, name, i) == Some(start + 32 * k)
    decreases count - i
  {
    if First(img, start, i) == ERASED || NameAt(img, start, i) != name {
      FindIsSlot(img, start, count, name, i + 1);
    } else {
      assert !Vacant(img, start, i);
    }
  }

  /** What a file's or directory's slots can be confused with. */
  predicate Distinctive(add: Addition) { |add.slots| == 32 || (|add.slots| == 64 && add.slots[2] == 0) }

  lemma FileIsDistinctive(place: Place, file: string, content: Bytes, c: nat)
    requires FileNames(file).Some? && c <= 0xFFFF && |content| <= 0xFFFFFFFF
    ensures Distinctive(FileAddition(place, file, content, c))
    ensures var slots := FileAddition(place, file, content, c).slots;
      slots[|slots| - 32..] == Entry(FileNames(file).value.0, 0x20, c, |content|)
  {
    hide FileNames, LongEntry, Entry;
    var names := FileNames(file).value;
    if names.1.Some? {
      LongStarts(names.1.value, names.0);
    } else {
      assert Slots(names, c, |content|) == Entry(names.0, 0x20, c, |content|);
    }
  }

  /** The directory a name goes into still answers for the names it had. */
  lemma AddedLookups(l: Layout, a: Bytes, add: Addition, clusters: seq<nat>, i: nat)
    requires Planned(l, a, add, clusters, i) && Distinctive(add)
    ensures Lookups(l, a, Result(l, a, add, clusters, i), add.place)
  {
    hide Stored, FatValue, ClusterStart, CopyStart, FirstRun, Find, Start, Count, Needed, Laid, Roomy, Names, SamePlace,
      LookupStays, Inserted, Lookups;
    PlanFits(l, a, add, clusters, i);
    var s, b := Stored(l, a, clusters, add.content), Result(l, a, add, clusters, i);
    PlaceHolds(l, a, add.place);
    PlaceHolds(l, s, add.place);
    PlaceHolds(l, b, add.place);
    StoredKeepsPlace(l, a, clusters, add.content, add.place);
    SameLookups(l, a, s, add.place);
    FindStays(l, a, s, add.place, add.name, 0);
    FirstRunStays(l, a, s, add.place, |add.slots| / 32, i);
    forall name: Bytes | |name| == 11 && Printable(name) ensures LookupStays(l, a, b, add.place, name) {
      LookupsAt(l, a, s, add.place, name);
      InsertedLookup(l, a, s, add, i, name);
    }
    LookupsFrom(l, a, b, add.place);
  }

  lemma LookupsAt(l: Layout, a: Bytes, b: Bytes, place: Place, name: Bytes)
    requires Valid(l) && |a| == l.length == |b| && Exists(l, place) && Lookups(l, a, b, place)
    requires Holds(a, Start(l, place), Count(l, place)) && Holds(b, Start(l, place), Count(l, place))
    requires |name| == 11 && Printable(name)
    ensures LookupStays(l, a, b, place, name)
  {
    hide LookupStays, Start, Count, Laid, Roomy;
  }

  lemma LookupsFrom(l: Layout, a: Bytes, b: Bytes, place: Place)
    requires Valid(l) && |a| == l.length == |b| && Exists(l, place)
    requires Holds(a, Start(l, place), Count(l, place)) && Holds(b, Start(l, place), Count(l, place))
    requires forall name: Bytes :: |name| == 11 && Printable(name) ==> LookupStays(l, a, b, place, name)
    ensures Lookups(l, a, b, place)
  {
    hide LookupStays, Start, Count, Laid, Roomy;
  }

  lemma InsertedLookup(l: Layout, a: Bytes, s: Bytes, add: Addition, i: nat, name: Bytes)
    requires Valid(l) && |a| == l.length == |s| && Exists(l, add.place) && Names(add.slots, add.name)
    requires Distinctive(add)
    requires Holds(a, Start(l, add.place), Count(l, add.place)) && Holds(s, Start(l, add.place), Count(l, add.place))
    requires FirstRun(s, Start(l, add.place), Count(l, add.place), |add.slots| / 32, i)
    requires Find(s, Start(l, add.place), Count(l, add.place), add.name, 0) == None
    requires |name| == 11 && Printable(name) && LookupStays(l, a, s, add.place, name)
    ensures LookupStays(l, a, Inserted(s, Start(l, add.place), i, add.slots), add.place, name)
  {
    hide Start, Count, Laid, Roomy, Find, Patch, Run;
    var start, count, b := Start(l, add.place), Count(l, add.place), Inserted(s, Start(l, add.place), i, add.slots);
    var e := Find(s, start, count, name, 0);
    if e.Some? {
      assert |add.slots| == 64 ==> add.slots[..11][2] == 0;
      InsertedKeepsFound(s, start, count, add.name, add.slots, i, name, 0);
      FindIsSlot(s, start, count, name, 0);
      var k: nat :| k < count && !Vacant(s, start, k) && e.value == start + 32 * k;
      if i <= k < i + |add.slots| / 32 { RunIsVacant(s, start, count, |add.slots| / 32, i, k); }
      PatchKeeps(s, start + 32 * i, add.slots, e.value, e.value + 32);
    }
  }

  /** A file added to a directory of the root changes nothing in the root. */
  lemma AddedKeepsRoot(l: Layout, a: Bytes, add: Addition, clusters: seq<nat>, i: nat)
    requires Planned(l, a, add, clusters, i) && add.place.Sub?
    ensures SamePlace(l, a, Result(l, a, add, clusters, i), Root)
  {
    var b := Result(l, a, add, clusters, i);
    hide Result, FatValue, ClusterStart, CopyStart, FirstRun, Find, Needed, Clear, Names, Laid, Roomy;
    PlaceFits(l, add.place);
    PlaceFits(l, Root);
    forall p: nat | p < |a| && InPlace(l, Root, p) ensures b[p] == a[p] {
      PlaceIsApart(l, Root, clusters, p);
      AddedStays(l, a, add, clusters, i, p);
    }
  }

  /** An added file is read back through its directory exactly when no never-used
      slot comes before its own. */
  lemma AddedReadsExactly(l: Layout, a: Bytes, place: Place, file: string, content: Bytes, clusters: seq<nat>, i: nat)
    requires FileNames(file).Some? && clusters != [] && clusters[0] <= 0xFFFF && |content| <= 0xFFFFFFFF
    requires Planned(l, a, FileAddition(place, file, content, clusters[0]), clusters, i)
    ensures var b := Result(l, a, FileAddition(place, file, content, clusters[0]), clusters, i);
      Reads(l, b, place, FileNames(file).value.0, content) <==> Orderly(l, a, place, Width(FileNames(file).value))
  {
    hide Result, FatValue, ClusterStart, CopyStart, FirstRun, Find, Needed, Names, Laid, Roomy, FileNames, Start, Count,
      Used, ChainBytes, Entry, Slots, LongEntry;
    var add := FileAddition(place, file, content, clusters[0]);
    var b := Result(l, a, add, clusters, i);
    PlaceHolds(l, a, place);
    PlaceHolds(l, b, place);
    AddedIsFoundExactly(l, a, add, clusters, i);
    AddedReadsBack(l, a, add, clusters, i);
    FileIsDistinctive(place, file, content, clusters[0]);
    OrderlyExactly(l, a, place, Width(FileNames(file).value), i);
    if Used(a, Start(l, place), Count(l, place), 0, i) {
      var at := Start(l, place) + 32 * i + |add.slots| - 32;
      EntryIsRead(b, at, FileNames(file).value.0, 0x20, clusters[0], |content|);
      assert ChainReads(l, b, clusters, content);
    }
  }

  lemma OrderlyExactly(l: Layout, img: Bytes, place: Place, needed: nat, i: nat)
    requires Valid(l) && |img| == l.length && Exists(l, place) && Holds(img, Start(l, place), Count(l, place))
    requires FirstRun(img, Start(l, place), Count(l, place), needed, i)
    ensures i <= Count(l, place)
    ensures Orderly(l, img, place, needed) <==> Used(img, Start(l, place), Count(l, place), 0, i)
  {
    hide Start, Count, Laid, Roomy, Used, Run;
    forall k: nat | FirstRun(img, Start(l, place), Count(l, place), needed, k) ensures k == i {
    }
  }

  lemma EntryIsRead(img: Bytes, e: nat, name: Bytes, attributes: Byte, c: nat, size: nat)
    requires |name| == 11 && c <= 0xFFFF && size <= 0xFFFFFFFF && e + 32 <= |img|
    requires img[e..e + 32] == Entry(name, attributes, c, size)
    ensures img[e + 11] == attributes && ClusterField(img, e) == c && SizeField(img, e) == size
  {
    hide Entry;
    EntryFields(name, attributes, c, size);
    var r := Entry(name, attributes, c, size);
    assert r[11] == img[e + 11];
    assert r[26] == img[e + 26] && r[27] == img[e + 27];
    assert r[28] == img[e + 28] && r[29] == img[e + 29] && r[30] == img[e + 30] && r[31] == img[e + 31];
  }

  // ---------- the whole injection

  /** What an injection leaves behind, on the image before it and the image after it:
      the root names the directory, the file is read back through the directory
      exactly when that was orderly, every name is found as before, and every chain
      that was there keeps its entries and its bytes, unless it is the directory's. */
  ghost predicate Injected(
    l: Layout, a: Bytes, b: Bytes, directory: Option<string>, file: string, content: Bytes, place: Place, made: bool)
    requires Valid(l) && |a| == l.length == |b| && Exists(l, place)
  {
    && FileNames(file).Some? && (place.Root? <==> directory.None?) && (made ==> directory.Some?)
    && (directory.Some? ==>
          && ShortName(directory.value).Some?
          && NamesDirectory(l, b, ShortName(directory.value).value, place.cluster)
          && (made || NamesDirectory(l, a, ShortName(directory.value).value, place.cluster)))
    && (Reads(l, b, place, FileNames(file).value.0, content) <==>
          made || Orderly(l, a, place, Width(FileNames(file).value)))
    && Lookups(l, a, b, Root) && (made || Lookups(l, a, b, place))
    && Kept(l, a, b, if made then Root else place)
    && (Mirrored(l, a) ==> Mirrored(l, b))
  }

  lemma ShortIsPrintable(name: string)
    requires ShortName(name).Some? && name != "." && name != ".."
    ensures Printable(ShortName(name).value)
  {
    hide ShortName, Printable;
    FileNamesArePrintable(name);
  }

  lemma DirectoryStays(l: Layout, a: Bytes, b: Bytes, name: Bytes, c: nat)
    requires Valid(l) && |a| == l.length == |b| && Lookups(l, a, b, Root) && |name| == 11 && Printable(name)
    requires NamesDirectory(l, a, name, c)
    ensures NamesDirectory(l, b, name, c)
  {
    hide Find, Printable, Laid, Roomy;
    PlaceHolds(l, a, Root);
    PlaceHolds(l, b, Root);
    LookupsAt(l, a, b, Root, name);
    var e := Find(a, l.rootStart, l.rootEntries, name, 0).value;
    assert b[e..e + 32][11] == a[e..e + 32][11] && b[e..e + 32][26] == a[e..e + 32][26];
    assert b[e..e + 32][27] == a[e..e + 32][27];
  }

  lemma LookupsCompose(l: Layout, a: Bytes, b: Bytes, c: Bytes, place: Place)
    requires Valid(l) && |a| == l.length == |b| == |c| && Exists(l, place)
    requires Lookups(l, a, b, place) && Lookups(l, b, c, place)
    ensures Lookups(l, a, c, place)
  {
    hide Find, Printable, Laid, Roomy, Start, Count, Lookups;
    PlaceHolds(l, a, place);
    PlaceHolds(l, b, place);
    PlaceHolds(l, c, place);
    forall name: Bytes | |name| == 11 && Printable(name) ensures LookupStays(l, a, c, place, name) {
      LookupsAt(l, a, b, place, name);
      LookupsAt(l, b, c, place, name);
    }
    LookupsFrom(l, a, c, place);
  }

  lemma AddedKeeps(l: Layout, a: Bytes, add: Addition, clusters: seq<nat>, i: nat)
    requires Planned(l, a, add, clusters, i)
    ensures Kept(l, a, Result(l, a, add, clusters, i), add.place)
  {
    assert Valid(l) && |a| == l.length;
    hide Planned, Result, ChainBytes, FatValue, Leads, Laid, Roomy;
    forall cs | IsChain(l, a, cs) && (add.place.Sub? ==> add.place.cluster !in cs)
      ensures IsChain(l, Result(l, a, add, clusters, i), cs)
      ensures ChainBytes(l, Result(l, a, add, clusters, i), cs) == ChainBytes(l, a, cs)
    {
      OtherFilesStay(l, a, add, clusters, i, cs);
    }
  }

  /** Adding a file to the root, or to a directory the root names, injects it. */
  lemma AddedIsInjected(
    l: Layout, a: Bytes, directory: Option<string>, place: Place, file: string, content: Bytes, clusters: seq<nat>,
    i: nat)
    requires FileNames(file).Some? && clusters != [] && clusters[0] <= 0xFFFF && |content| <= 0xFFFFFFFF
    requires Planned(l, a, FileAddition(place, file, content, clusters[0]), clusters, i)
    requires place.Root? <==> directory.None?
    requires directory.Some? ==> directory.value != "." && directory.value != ".." && ShortName(directory.value).Some?
    requires directory.Some? ==> NamesDirectory(l, a, ShortName(directory.value).value, place.cluster)
    ensures var b := Result(l, a, FileAddition(place, file, content, clusters[0]), clusters, i);
      Injected(l, a, b, directory, file, content, place, false)
  {
    var add := FileAddition(place, file, content, clusters[0]);
    var b := Result(l, a, add, clusters, i);
    assert Valid(l) && |a| == l.length && Exists(l, place);
    hide Planned, Result, Reads, Orderly, Lookups, Kept, Mirrored, NamesDirectory, ShortName, FileNames, Slots,
      Printable, Distinctive;
    AddedReadsExactly(l, a, place, file, content, clusters, i);
    FileIsDistinctive(place, file, content, clusters[0]);
    AddedLookups(l, a, add, clusters, i);
    AddedKeeps(l, a, add, clusters, i);
    if Mirrored(l, a) { AddedMirrors(l, a, add, clusters, i); }
    if directory.Some? {
      AddedKeepsRoot(l, a, add, clusters, i);
      SameLookups(l, a, b, Root);
      ShortIsPrintable(directory.value);
      DirectoryStays(l, a, b, ShortName(directory.value).value, place.cluster);
    }
  }

  /** The root names a directory that was just made. */
  lemma MadeIsNamed(l: Layout, a: Bytes, name: string, c: nat, i: nat)
    requires ShortName(name).Some? && c <= 0xFFFF && Planned(l, a, DirectoryAddition(name, c), [c], i)
    ensures NamesDirectory(l, Result(l, a, DirectoryAddition(name, c), [c], i), ShortName(name).value, c)
  {
    var add := DirectoryAddition(name, c);
    var b := Result(l, a, add, [c], i);
    assert Valid(l);
    hide Planned, Result, FatValue, ClusterStart, CopyStart, Find, Laid, Roomy, ShortName, Entry, Used, Dots,
      WellFormed, NamesDirectory;
    AddedIsFound(l, a, add, [c], i);
    AddedIsFoundExactly(l, a, add, [c], i);
    assert add.slots[0..] == add.slots;
    NamedByEntry(l, b, ShortName(name).value, c, l.rootStart + 32 * i);
  }

  lemma NamedByEntry(l: Layout, img: Bytes, name: Bytes, c: nat, e: nat)
    requires Valid(l) && |img| == l.length && Holds(img, l.rootStart, l.rootEntries) && |name| == 11 && c <= 0xFFFF
    requires Find(img, l.rootStart, l.rootEntries, name, 0) == Some(e)
    requires e + 32 <= |img| && img[e..e + 32] == Entry(name, 0x10, c, 0)
    ensures NamesDirectory(l, img, name, c)
  {
    hide Find, Entry, Laid, Roomy;
    EntryIsRead(img, e, name, 0x10, c, 0);
  }

  lemma MadeKeeps(l: Layout, a: Bytes, name: string, c: nat, i: nat, mid: Bytes, b: Bytes)
    requires Valid(l) && |a| == l.length == |b| && Made(l, a, name, c, i, mid) && Kept(l, mid, b, Sub(c))
    ensures Kept(l, a, b, Root)
  {
    var add := DirectoryAddition(name, c);
    hide Result, FatValue, FirstRun, Find, Needed, Names, Laid, Roomy, DirectoryAddition, IsChain, ChainBytes, Free;
    AddedKeeps(l, a, add, [c], i);
    assert [c][0] == c;
    forall cs | IsChain(l, a, cs) ensures IsChain(l, b, cs) && ChainBytes(l, b, cs) == ChainBytes(l, a, cs) {
      if c in cs { ChainIsClaimed(l, a, cs, c); }
    }
  }

  /** Making a directory and adding a file to it injects the file. */
  lemma MadeIsInjected(
    l: Layout, a: Bytes, name: string, c: nat, j: nat, mid: Bytes, file: string, content: Bytes, clusters: seq<nat>,
    i: nat)
    requires Valid(l) && |a| == l.length && Made(l, a, name, c, j, mid) && name != "." && name != ".."
    requires FileNames(file).Some? && clusters != [] && clusters[0] <= 0xFFFF && |content| <= 0xFFFFFFFF
    requires Planned(l, mid, FileAddition(Sub(c), file, content, clusters[0]), clusters, i)
    ensures var b := Result(l, mid, FileAddition(Sub(c), file, content, clusters[0]), clusters, i);
      InRange(l, c) && Injected(l, a, b, Some(name), file, content, Sub(c), true)
  {
    var add := FileAddition(Sub(c), file, content, clusters[0]);
    var b := Result(l, mid, add, clusters, i);
    assert InRange(l, c);
    hide Planned, Result, Reads, Orderly, Lookups, Kept, Mirrored, NamesDirectory, ShortName, FileNames, Slots, Free,
      WellFormed, Laid, Roomy;
    MadeIsNamed(l, a, name, c, j);
    AddedIsInjected(l, mid, Some(name), Sub(c), file, content, clusters, i);
    MadeIsWellFormed(l, a, name, c, j);
    WellFormedIsOrderly(l, mid, Sub(c), Width(FileNames(file).value));
    AddedLookups(l, a, DirectoryAddition(name, c), [c], j);
    LookupsCompose(l, a, mid, b, Root);
    MadeKeeps(l, a, name, c, j, mid, b);
    if Mirrored(l, a) { AddedMirrors(l, a, DirectoryAddition(name, c), [c], j); }
  }

  /** A short name finds every directory orderly, and any name a well-formed one. */
  lemma WellFormedIsOrderly(l: Layout, img: Bytes, place: Place, needed: nat)
    requires Valid(l) && |img| == l.length && Exists(l, place) && Holds(img, Start(l, place), Count(l, place))
    requires needed == 1 || WellFormed(img, Start(l, place), Count(l, place))
    ensures Orderly(l, img, place, needed)
  {
    hide Start, Count, Laid, Roomy, WellFormed, Run, First;
    forall i: nat, k: nat | FirstRun(img, Start(l, place), Count(l, place), needed, i) && k < i
      ensures First(img, Start(l, place), k) != 0
    {
      UsedBefore(img, Start(l, place), Count(l, place), needed, i, k);
    }
  }

  // ---------- from the steps to the conditions

  /** Runs of free slots are the same before and after the content is stored. */
  lemma RunsStay(l: Layout, a: Bytes, b: Bytes, place: Place, needed: nat, i: nat)
    requires Valid(l) && Exists(l, place) && |a| == l.length == |b| && SamePlace(l, a, b, place)
    requires Holds(a, Start(l, place), Count(l, place)) && Holds(b, Start(l, place), Count(l, place))
    ensures HasRun(b, Start(l, place), Count(l, place), needed, i) ==
      HasRun(a, Start(l, place), Count(l, place), needed, i)
  {
    hide Start, Count, Laid, Roomy, SamePlace, Run;
    if i + needed <= Count(l, place) { RunStays(l, a, b, place, needed, i); }
  }

  lemma NoRunStays(l: Layout, a: Bytes, b: Bytes, place: Place, needed: nat)
    requires Valid(l) && Exists(l, place) && |a| == l.length == |b| && SamePlace(l, a, b, place)
    requires Holds(a, Start(l, place), Count(l, place)) && Holds(b, Start(l, place), Count(l, place))
    requires forall i: nat :: !HasRun(b, Start(l, place), Count(l, place), needed, i)
    ensures forall i: nat :: !HasRun(a, Start(l, place), Count(l, place), needed, i)
  {
    hide Start, Count, Laid, Roomy, SamePlace, HasRun;
    forall i: nat ensures !HasRun(a, Start(l, place), Count(l, place), needed, i) {
      RunsStay(l, a, b, place, needed, i);
    }
  }

  /** The directory that was opened, and when the injection can go on from there. */
  lemma OpenedPlace(
    l: Layout, a: Bytes, name: string, c: nat, made: Option<nat>, mid: Bytes, file: string, content: Bytes)
    requires Valid(l) && |a| == l.length && name != "." && name != ".."
    requires if made.None? then mid == a && Existing(l, a, name, c) else Made(l, a, name, c, made.value, mid)
    requires 0 < |content| <= 0xFFFFFFFF && file != "." && file != ".."
    ensures |mid| == l.length && InRange(l, c) && Value(l, mid, c) != 0
    ensures Addable(l, mid, Sub(c), file, content) <==> Injectable(l, a, Some(name), file, content)
  {
    hide FatValue, Laid, Roomy, ShortName, FileNames, Addable, Free, NamesDirectory;
    if made.None? {
      OpenedExisting(l, a, name, c, file, content);
    } else {
      MadeEnds(l, a, name, c, made.value);
      MadeIsAddable(l, a, name, c, made.value, mid, file, content);
      MadeWasMakeable(l, a, name, c, made.value, mid);
    }
  }

  lemma OpenedExisting(l: Layout, a: Bytes, name: string, c: nat, file: string, content: Bytes)
    requires Valid(l) && |a| == l.length && name != "." && name != ".." && Existing(l, a, name, c)
    requires 0 < |content| <= 0xFFFFFFFF && file != "." && file != ".."
    ensures Addable(l, a, Sub(c), file, content) <==> Injectable(l, a, Some(name), file, content)
  {
    hide Laid, Roomy, FatValue, Addable, Makeable, Existing;
    ExistingIsOne(l, a, name, c, c);
    forall d | Existing(l, a, name, d) ensures d == c { ExistingIsOne(l, a, name, c, d); }
  }

  lemma MadeWasMakeable(l: Layout, a: Bytes, name: string, c: nat, i: nat, b: Bytes)
    requires Valid(l) && |a| == l.length && Made(l, a, name, c, i, b)
    ensures Makeable(l, a, name) && forall d :: !Existing(l, a, name, d)
  {
    hide FatValue, Laid, Roomy, Result, ShortName, Free, Find, HasRun, Names, Entry, Dots, FirstRun;
    FirstRunIsRun(a, l.rootStart, l.rootEntries, 1, i);
  }

  /** Whatever directory was opened, adding the file to it injects the file. */
  lemma OpenedIsInjected(
    l: Layout, a: Bytes, directory: Option<string>, place: Place, made: Option<nat>, mid: Bytes, file: string,
    content: Bytes, clusters: seq<nat>, i: nat)
    requires Valid(l) && |a| == l.length && Exists(l, place)
    requires if directory.None? then place == Root && mid == a && made.None?
             else place.Sub? && directory.value != "." && directory.value != ".." && if made.None?
               then mid == a && Existing(l, a, directory.value, place.cluster)
               else Made(l, a, directory.value, place.cluster, made.value, mid)
    requires FileNames(file).Some? && clusters != [] && clusters[0] <= 0xFFFF && |content| <= 0xFFFFFFFF
    requires Planned(l, mid, FileAddition(place, file, content, clusters[0]), clusters, i)
    ensures var b := Result(l, mid, FileAddition(place, file, content, clusters[0]), clusters, i);
      Injected(l, a, b, directory, file, content, place, made.Some?)
  {
    hide FatValue, Laid, Roomy, ShortName, FileNames, Made, Planned, Result, NamesDirectory, Injected;
    if made.None? {
      AddedIsInjected(l, a, directory, place, file, content, clusters, i);
    } else {
      MadeIsInjected(l, a, directory.value, place.cluster, made.value, mid, file, content, clusters, i);
    }
  }
}
