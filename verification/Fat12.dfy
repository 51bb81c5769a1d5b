/** Injecting one file into a FAT12 image. */
module Fat12 {
  import opened Basics
  import opened FatTable
  import opened FatFiles
  import opened FatDirectory
  import opened FatAddition
  import opened FatInjection

  class Image {
    const l: Layout
    const data: array<Byte>

    ghost predicate Open() { Laid(l) && data.Length == l.length }

    /** The tables have an entry for every cluster as well. */
    ghost predicate Ok() { Open() && Roomy(l) }

    constructor (layout: Layout, bytes: Bytes)
      requires Laid(layout) && |bytes| == layout.length
      ensures Open() && l == layout && data[..] == bytes && fresh(data)
    {
      l := layout;
      data := new Byte[|bytes|](i requires 0 <= i < |bytes| => bytes[i]);
    }

    method Poke(at: nat, bytes: Bytes)
      requires at + |bytes| <= data.Length
      modifies data
      ensures data[..] == Patch(old(data[..]), at, bytes)
    {
      forall i | 0 <= i < |bytes| { data[at + i] := bytes[i]; }
    }

    method GetFat(c: nat) returns (r: Option<nat>)
      requires Open()
      ensures r == if InRange(l, c) then Some(FatValue(l, data[..], 0, c)) else None
      ensures r.Some? ==>
        var o := l.fatStart + c + c / 2;
        && o + 1 < data.Length
        && r.value == if c % 2 == 0 then data[o] as int + 256 * (data[o + 1] as int % 16)
                      else data[o] as int / 16 + 16 * data[o + 1] as int
    {
      if !InRange(l, c) { return None; }
      EntryFits(l, 0, c);
      hide Laid;
      EntryBits(data[..], l.fatStart, c);
      var o := l.fatStart + c + c / 2;
      var value := data[o] as int + 256 * data[o + 1] as int;
      r := Some(if c % 2 == 1 then value / 16 else value % 4096);
    }

    method PutFat(c: nat, v: int) returns (ok: bool)
      requires Open()
      modifies data
      ensures ok == (0 <= v <= 0xFFF && InRange(l, c))
      ensures data[..] == if ok then SetFat(l, old(data[..]), c, v) else old(data[..])
    {
      if v < 0 || v > 0xFFF || !InRange(l, c) { return false; }
      hide CopyStart;
      var i := 0;
      while i < l.fatCount
        invariant i <= l.fatCount && data[..] == SetCopies(l, old(data[..]), i, c, v)
      {
        EntryFits(l, i, c);
        PutEntry(CopyStart(l, i), c, v);
        i := i + 1;
      }
      ok := true;
    }

    method PutEntry(base: nat, c: nat, v: nat)
      requires base + Offset(c) + 1 < data.Length && v <= 0xFFF
      modifies data
      ensures data[..] == SetEntryAt(old(data[..]), base, c, v)
    {
      var o := base + Offset(c);
      var value := data[o] as int + 256 * data[o + 1] as int;
      EncodedIsExact(value, c % 2 == 1, v);
      var next := if c % 2 == 1 then value % 16 + v * 16 else value / 4096 * 4096 + v;
      data[o], data[o + 1] := next % 256, next / 256;
    }

    /** Claims the lowest free clusters, links them and clears them. */
    method Allocate(count: nat) returns (r: Option<seq<nat>>)
      requires Ok()
      modifies data
      ensures r.Some? <==> count > 0 && count <= |Free(l, old(data[..]), l.clusterCount + 2)|
      ensures r.Some? ==> r.value == Free(l, old(data[..]), l.clusterCount + 2)[..count] && Selectable(l, r.value)
      ensures r.Some? ==> forall k :: 0 <= k < count ==> Value(l, old(data[..]), r.value[k]) == 0
      ensures r.Some? ==> data[..] == Claimed(l, old(data[..]), r.value, count)
      ensures r.None? ==> data[..] == old(data[..])
    {
      hide FatValue, CopyStart, ClusterStart;
      var free := FreeClusters();
      FreeIsExact(l, data[..], l.clusterCount + 2);
      if count == 0 || |free| < count { return None; }
      var selected := free[..count];
      assert forall k :: 0 <= k < count ==> selected[k] in free;
      LinkClusters(selected);
      r := Some(selected);
    }

    method FreeClusters() returns (free: seq<nat>)
      requires Ok()
      ensures free == Free(l, data[..], l.clusterCount + 2)
    {
      hide FatValue, CopyStart, ClusterStart;
      free := [];
      var c := 2;
      while c < l.clusterCount + 2
        invariant 2 <= c <= l.clusterCount + 2 && free == Free(l, data[..], c)
      {
        var v := GetFat(c);
        if v == Some(0) { free := free + [c]; }
        c := c + 1;
      }
    }

    method LinkClusters(selected: seq<nat>)
      requires Ok() && AllInRange(l, selected)
      modifies data
      ensures data[..] == Claimed(l, old(data[..]), selected, |selected|)
    {
      hide FatValue, CopyStart, ClusterStart, Patch, SetFat;
      var k := 0;
      while k < |selected|
        invariant k <= |selected| && data[..] == Claimed(l, old(data[..]), selected, k)
      {
        ClusterFits(l, selected[k]);
        var ok := PutFat(selected[k], Following(selected, k));
        Poke(ClusterStart(l, selected[k]), Zeros(l.clusterSize));
        k := k + 1;
      }
    }

    method StoreContent(clusters: seq<nat>, content: Bytes)
      requires Ok() && AllInRange(l, clusters)
      modifies data
      ensures data[..] == Filled(l, old(data[..]), clusters, content, |clusters|)
    {
      hide FatValue, CopyStart, ClusterStart, Patch, Chunk;
      var k := 0;
      while k < |clusters|
        invariant k <= |clusters| && data[..] == Filled(l, old(data[..]), clusters, content, k)
      {
        ClusterFits(l, clusters[k]);
        Poke(ClusterStart(l, clusters[k]), Chunk(content, l.clusterSize, k));
        k := k + 1;
      }
    }

    /** Stores a file's content and enters its name in a directory. */
    method AddFile(place: Place, file: string, content: Bytes) returns (r: Option<seq<nat>>, ghost i: nat)
      requires Ok() && Exists(l, place) && (place.Sub? ==> Value(l, data[..], place.cluster) != 0)
      requires 0 < |content| <= 0xFFFFFFFF && file != "." && file != ".."
      modifies data
      ensures r.Some? <==> Addable(l, old(data[..]), place, file, content)
      ensures r.Some? ==> FileNames(file).Some? && r.value != [] && r.value[0] <= 0xFFFF
      ensures r.Some? ==> r.value <= Free(l, old(data[..]), l.clusterCount + 2)
      ensures r.Some? ==> Planned(l, old(data[..]), FileAddition(place, file, content, r.value[0]), r.value, i)
      ensures r.Some? ==>
        data[..] == Result(l, old(data[..]), FileAddition(place, file, content, r.value[0]), r.value, i)
    {
      hide FatValue, CopyStart, ClusterStart, Patch, FileNames, Find, FirstRun, Start, Count, Slots, Claimed, Filled,
        Names, HasRun, Free, SamePlace;
      i := 0;
      ghost var a := data[..];
      var names := FileNames(file);
      if names.None? { return None, i; }
      PlaceHolds(l, a, place);
      var start, count := Start(l, place), Count(l, place);
      var found := FindEntry(data, start, count, names.value.0);
      if found.Some? { return None, i; }
      NeededIsPositive(content, l.clusterSize);
      var chosen := Allocate(Needed(content, l.clusterSize));
      if chosen.None? { return None, i; }
      var clusters := chosen.value;
      StoreContent(clusters, content);
      ghost var stored := data[..];
      assert stored == Stored(l, a, clusters, content);
      PlaceHolds(l, stored, place);
      StoredKeepsPlace(l, a, clusters, content, place);
      var slot := FreeEntries(data, start, count, Width(names.value));
      assert data[..] == stored;
      if slot.None? {
        NoRunStays(l, a, stored, place, Width(names.value));
        return None, i;
      }
      i :| FirstRun(stored, start, count, Width(names.value), i) && slot.value == start + 32 * i;
      FirstRunIsRun(stored, start, count, Width(names.value), i);
      RunsStay(l, a, stored, place, Width(names.value), i);
      FilePlan(l, a, place, file, content, clusters, i);
      PlanFits(l, a, FileAddition(place, file, content, clusters[0]), clusters, i);
      WriteSlots(slot.value, names.value, clusters[0], |content|);
      r := Some(clusters);
    }

    /** The long-name slot, when there is one, and then the entry. */
    method WriteSlots(at: nat, names: (Bytes, Option<string>), cluster: nat, size: nat)
      requires |names.0| == 11 && cluster <= 0xFFFF && size <= 0xFFFFFFFF
      requires names.1.Some? ==> 0 < |names.1.value| <= 13 && Ascii(names.1.value)
      requires at + |Slots(names, cluster, size)| <= data.Length
      modifies data
      ensures data[..] == Patch(old(data[..]), at, Slots(names, cluster, size))
    {
      hide Patch, Entry, LongEntry;
      var entry := Entry(names.0, 0x20, cluster, size);
      if names.1.Some? {
        var long := LongEntry(names.1.value, names.0);
        PatchTwice(data[..], at, long, entry);
        Poke(at, long);
        Poke(at + 32, entry);
      } else {
        assert Slots(names, cluster, size) == entry;
        Poke(at, entry);
      }
    }

    /** Makes a directory in the root with one cleared cluster holding the dot entries. */
    method MakeDirectory(name: string) returns (r: Option<nat>, ghost i: nat)
      requires Ok() && ShortName(name).Some? && name != "." && name != ".."
      requires Holds(data[..], l.rootStart, l.rootEntries)
      requires Find(data[..], l.rootStart, l.rootEntries, ShortName(name).value, 0) == None
      modifies data
      ensures r.Some? <==> Makeable(l, old(data[..]), name)
      ensures r.Some? ==> Made(l, old(data[..]), name, r.value, i, data[..])
    {
      hide FatValue, CopyStart, ClusterStart, Patch, ShortName, Find, FirstRun, Claimed, Names, Entry, Dots, Free,
        HasRun, SamePlace;
      i := 0;
      var short := ShortName(name).value;
      ghost var a := data[..];
      var chosen := Allocate(1);
      if chosen.None? { return None, i; }
      var c := chosen.value[0];
      assert chosen.value == [c];
      ghost var claimed := data[..];
      PlaceHolds(l, claimed, Root);
      ClaimedKeepsRoot(l, a, c);
      var slot := FreeEntry(data, l.rootStart, l.rootEntries);
      assert data[..] == claimed;
      if slot.None? {
        NoRunStays(l, a, claimed, Root, 1);
        return None, i;
      }
      i :| FirstRun(claimed, l.rootStart, l.rootEntries, 1, i) && slot.value == l.rootStart + 32 * i;
      FirstRunIsRun(claimed, l.rootStart, l.rootEntries, 1, i);
      RunsStay(l, a, claimed, Root, 1, i);
      DirectoryPlan(l, a, name, c, i);
      DirectoryResult(l, a, name, c, i);
      Poke(slot.value, Entry(short, 0x10, c, 0));
      WriteDots(ClusterStart(l, c), c);
      r := Some(c);
    }

    method WriteDots(at: nat, c: nat)
      requires c <= 0xFFFF && at + 64 <= data.Length
      modifies data
      ensures data[..] == Patch(old(data[..]), at, Dots(c))
    {
      hide Patch, Entry;
      var own, parent := Entry(ShortName(".").value, 0x10, c, 0), Entry(ShortName("..").value, 0x10, 0, 0);
      PatchTwice(data[..], at, own, parent);
      Poke(at, own);
      Poke(at + 32, parent);
    }

    /** The directory a path names: an existing one-cluster directory, or a new one. */
    method OpenDirectory(name: string) returns (r: Option<nat>, ghost made: Option<nat>)
      requires Ok() && name != "." && name != ".."
      modifies data
      ensures r.Some? <==> Makeable(l, old(data[..]), name) || exists c :: Existing(l, old(data[..]), name, c)
      ensures r.Some? && made.None? ==> data[..] == old(data[..]) && Existing(l, data[..], name, r.value)
      ensures r.Some? && made.Some? ==> Made(l, old(data[..]), name, r.value, made.value, data[..])
    {
      hide FatValue, CopyStart, ClusterStart, ShortName, Find, Free, HasRun, Planned, Result, DirectoryAddition;
      made := None;
      var short := ShortName(name);
      if short.None? { return None, None; }
      PlaceHolds(l, data[..], Root);
      var found := FindEntry(data, l.rootStart, l.rootEntries, short.value);
      if found.None? {
        ghost var i: nat;
        r, i := MakeDirectory(name);
        made := Some(i);
      } else {
        FindFits(data[..], l.rootStart, l.rootEntries, short.value, 0);
        var e := found.value;
        if data[e + 11] / 16 % 2 == 0 { return None, None; }
        var cluster := data[e + 26] as int + 256 * data[e + 27] as int;
        var value := GetFat(cluster);
        if value.None? || !Ends(value.value) { return None, None; }
        assert Existing(l, data[..], name, cluster);
        r := Some(cluster);
      }
    }

    /** Injects a file, in the root or in a directory of the root, which is made when
        the root does not name it. On success mid is the image before the file itself
        was added. */
    method Inject(directory: Option<string>, file: string, content: Bytes)
      returns (r: Option<(Place, seq<nat>)>, ghost mid: Bytes, ghost made: Option<nat>, ghost i: nat)
      requires Ok()
      modifies data
      ensures r.Some? <==> Injectable(l, old(data[..]), directory, file, content)
      ensures r.Some? ==>
        && FileNames(file).Some? && r.value.1 != [] && r.value.1[0] <= 0xFFFF && 0 < |content| <= 0xFFFFFFFF
        && Planned(l, mid, FileAddition(r.value.0, file, content, r.value.1[0]), r.value.1, i)
        && data[..] == Result(l, mid, FileAddition(r.value.0, file, content, r.value.1[0]), r.value.1, i)
      ensures r.Some? && made.None? ==> mid == old(data[..])
      ensures r.Some? && made.Some? ==>
        directory.Some? && r.value.0.Sub? && Made(l, old(data[..]), directory.value, r.value.0.cluster, made.value, mid)
      ensures r.Some? ==>
        Exists(l, r.value.0) && Injected(l, old(data[..]), data[..], directory, file, content, r.value.0, made.Some?)
    {
      hide Planned, Result, FileNames, ShortName, FatValue, Laid, Roomy, Addable, Makeable, Existing, Made, Injected;
      ghost var a := data[..];
      mid, made, i := a, None, 0;
      if content == [] || |content| > 0xFFFFFFFF || file == "." || file == ".." { return None, mid, made, i; }
      var place := Root;
      if directory.Some? {
        if directory.value == "." || directory.value == ".." { return None, mid, made, i; }
        var c: Option<nat>;
        c, made := OpenDirectory(directory.value);
        if c.None? { return None, mid, made, i; }
        place := Sub(c.value);
        OpenedPlace(l, a, directory.value, c.value, made, data[..], file, content);
      }
      mid := data[..];
      var clusters: Option<seq<nat>>;
      clusters, i := AddFile(place, file, content);
      if clusters.None? { return None, mid, made, i; }
      r := Some((place, clusters.value));
      OpenedIsInjected(l, a, directory, place, made, mid, file, content, clusters.value, i);
    }
  }

  // ---------- geometry

  /** The numbers of a boot sector. */
  datatype Geometry = Geometry(
    sectorSize: nat, perCluster: nat, reserved: nat, fats: nat, entries: nat, total: nat, perFat: nat)

  function GeometryOf(data: Bytes): (g: Option<Geometry>) {
    if |data| < 512 || data[510] != 0x55 || data[511] != 0xAA then None else
      var total := if Pair(data, 19) != 0 then Pair(data, 19) else Pair(data, 32) + 65536 * Pair(data, 34);
      Some(Geometry(Pair(data, 11), data[13], Pair(data, 14), data[16], Pair(data, 17), total, Pair(data, 22)))
  }

  /** The boot sector says what its fields say, at the offsets of the format; a zero
      count of sectors defers to the long count. */
  lemma GeometryReads(data: Bytes, g: Geometry, long: bool)
    requires |data| >= 512 && data[510..512] == [0x55, 0xAA]
    requires g.sectorSize <= 0xFFFF && g.reserved <= 0xFFFF && g.entries <= 0xFFFF && g.perFat <= 0xFFFF
    requires data[11..13] == Little2(g.sectorSize) && data[13] == g.perCluster && data[14..16] == Little2(g.reserved)
    requires data[16] == g.fats && data[17..19] == Little2(g.entries) && data[22..24] == Little2(g.perFat)
    requires if long then g.total <= 0xFFFFFFFF && data[19..21] == [0, 0] && data[32..36] == Little4(g.total)
             else 0 < g.total <= 0xFFFF && data[19..21] == Little2(g.total)
    ensures GeometryOf(data) == Some(g)
  {
    hide Little2, Little4;
    PairReads(data, 11);
    PairReads(data, 14);
    PairReads(data, 17);
    PairReads(data, 19);
    PairReads(data, 22);
    PairReads(data, 32);
    PairReads(data, 34);
    assert data[510..512][0] == data[510] && data[510..512][1] == data[511];
    if long {
      var b := data[32..36];
      assert b[0] == data[32] && b[1] == data[33] && b[2] == data[34] && b[3] == data[35];
    }
  }

  lemma PairReads(data: Bytes, o: nat)
    requires o + 2 <= |data|
    ensures Pair(data, o) == data[o..o + 2][0] as int + 256 * data[o..o + 2][1] as int
  {
  }

  function RootSector(g: Geometry): nat { g.reserved + g.fats * g.perFat }

  function DataSector(g: Geometry): nat { RootSector(g) + (g.entries * 32 + 511) / 512 }

  /** The layout of an image. Its tables need not be large enough for its clusters. */
  function LayoutOf(g: Geometry, length: nat): (r: Option<Layout>) {
    if g.sectorSize != 512 || g.perCluster == 0 || g.reserved == 0 || g.fats == 0 || g.entries == 0 || g.total == 0
       || g.perFat == 0 || g.total * 512 != length || g.total < DataSector(g) then None
    else
      var clusters := (g.total - DataSector(g)) / g.perCluster;
      if clusters == 0 || clusters >= 4085 then None
      else Some(Layout(g.reserved * 512, g.perFat * 512, g.fats, RootSector(g) * 512, g.entries, DataSector(g) * 512,
                       g.perCluster * 512, clusters, length))
  }

  function Opened(data: Bytes): Option<Layout> {
    var g := GeometryOf(data);
    if g.None? then None else LayoutOf(g.value, |data|)
  }

  /** Every layout that is read is laid out in order, and its table writes stay
      inside the tables exactly when they have an entry for every cluster. */
  lemma OpenedIsLaid(data: Bytes)
    requires Opened(data).Some?
    ensures var l := Opened(data).value;
      l.length == |data| && Laid(l) && (Contained(l) <==> Offset(l.clusterCount + 1) + 2 <= l.fatSize)
  {
    hide Laid, Contained;
    LayoutFits(GeometryOf(data).value, |data|);
    ContainedExactly(Opened(data).value);
  }

  lemma LayoutFits(g: Geometry, length: nat)
    requires LayoutOf(g, length).Some?
    ensures Laid(LayoutOf(g, length).value)
  {
    var l := LayoutOf(g, length).value;
    Quotient(g.total - DataSector(g), g.perCluster, l.clusterCount);
    Scaled(l.clusterCount, g.perCluster);
    Scaled(g.fats, g.perFat);
    assert l.clusterSize % 32 == 0;
  }

  lemma Quotient(n: nat, d: nat, q: nat)
    requires d > 0 && q == n / d
    ensures q * d <= n
  {
  }

  lemma Scaled(n: nat, k: nat)
    ensures n * (k * 512) == n * k * 512
  {
  }

  /** The 16 MiB bootstrap fills its tables exactly: 2048 entries in 3072 bytes. */
  lemma BootstrapIsValid()
    ensures var l := LayoutOf(Geometry(512, 16, 1, 2, 224, 32768, 6), 16777216);
      l.Some? && Valid(l.value) && Offset(l.value.clusterCount + 1) + 2 == l.value.fatSize
  {
  }

  /** 397 clusters on a table of one sector. */
  const SMALL := Layout(512, 512, 1, 1024, 16, 1536, 512, 397, 204800)

  lemma SmallLayout()
    ensures LayoutOf(Geometry(512, 1, 1, 1, 16, 400, 1), 204800) == Some(SMALL) && Laid(SMALL) && !Roomy(SMALL)
    ensures CopyStart(SMALL, 0) + Offset(398) + 1 == 1110
  {
  }

  /** There the entry of the last cluster is written into the root directory. */
  lemma SmallTableSpills()
    ensures LayoutOf(Geometry(512, 1, 1, 1, 16, 400, 1), 204800) == Some(SMALL) && Laid(SMALL) && !Contained(SMALL)
    ensures SMALL.rootStart <= 1110 < SMALL.dataStart && SetFat(SMALL, Zeros(SMALL.length), 398, 0xFFF)[1110] != 0
  {
    hide SetFat, Contained, LayoutOf, Laid, Roomy, CopyStart;
    SmallLayout();
    Spills(SMALL);
    ContainedExactly(SMALL);
  }

  // ---------- a directory with a hole

  /** 300 clusters. */
  const HOLED := Layout(512, 512, 1, 1024, 16, 1536, 512, 300, 155136)

  /** An empty volume, but for the second slot of its root. */
  function HoledByte(p: nat): Byte {
    if p == 12 then 2 else if p == 13 || p == 14 || p == 16 || p == 20 || p == 22 then 1
    else if p == 17 then 16 else if p == 19 then 47 else if p == 510 then 0x55 else if p == 511 then 0xAA
    else if p == 1056 then 65 else 0
  }

  function Holed(): (img: Bytes)
    ensures |img| == 155136 && forall p :: 0 <= p < |img| ==> img[p] == HoledByte(p)
  {
    seq(155136, p requires 0 <= p => HoledByte(p))
  }

  lemma HoledOpens()
    ensures Opened(Holed()) == Some(HOLED) && Valid(HOLED)
  {
    hide Holed;
    assert GeometryOf(Holed()) == Some(Geometry(512, 1, 1, 1, 16, 303, 1));
  }

  lemma HoledRoot(name: Bytes)
    requires |name| == 11
    ensures Holds(Holed(), 1024, 16) && Find(Holed(), 1024, 16, name, 0) == None
    ensures FirstRun(Holed(), 1024, 16, 2, 2) && !Used(Holed(), 1024, 16, 0, 2)
  {
    var img := Holed();
    hide Holed;
    assert First(img, 1024, 0) == 0 && First(img, 1024, 1) == 65;
    assert First(img, 1024, 2) == 0 && First(img, 1024, 3) == 0;
    assert !Vacant(img, 1024, 1);
  }

  lemma HoledIsFree()
    ensures Valid(HOLED) && Value(HOLED, Holed(), 2) == 0 && Free(HOLED, Holed(), 302) != []
  {
    hide Holed, Free;
    HoledOpens();
    FreeIsExact(HOLED, Holed(), 302);
    assert Value(HOLED, Holed(), 2) == 0;
  }

  /** A long name is planned for the third slot and the first cluster. */
  lemma HoledPlan(file: string, content: Bytes)
    requires FileNames(file).Some? && FileNames(file).value.1.Some? && 0 < |content| <= 512
    ensures Planned(HOLED, Holed(), FileAddition(Root, file, content, 2), [2], 2)
  {
    hide Holed, Find, FirstRun, Opened, FileNames, Names, Free, Slots, FatValue;
    HoledOpens();
    HoledRoot(FileNames(file).value.0);
    HoledIsFree();
    assert file != "." && file != ".." by { DotsAreShort(); }
    assert Needed(content, 512) == 1 by { OneCluster(|content|, 512); }
    SlotsName(file, 2, |content|);
  }

  lemma HoledIsInjectable(file: string, content: Bytes)
    requires FileNames(file).Some? && FileNames(file).value.1.Some? && 0 < |content| <= 512
    ensures Valid(HOLED) && Injectable(HOLED, Holed(), None, file, content)
  {
    hide Holed, Find, FirstRun, Opened, FileNames, Free, FatValue, HasRun;
    HoledOpens();
    HoledRoot(FileNames(file).value.0);
    HoledIsFree();
    assert file != "." && file != ".." by { DotsAreShort(); }
    FirstRunIsRun(Holed(), 1024, 16, 2, 2);
    assert Needed(content, 512) == 1 by { OneCluster(|content|, 512); }
    assert HasRun(Holed(), Start(HOLED, Root), Count(HOLED, Root), Width(FileNames(file).value), 2);
    assert Addable(HOLED, Holed(), Root, file, content);
  }

  /** Every long name is accepted there, and cannot be looked up afterwards: its two
      slots go behind a never-used one, where a lookup stops. */
  lemma LongNameIsLost(file: string, content: Bytes)
    requires FileNames(file).Some? && FileNames(file).value.1.Some? && 0 < |content| <= 512
    ensures Opened(Holed()) == Some(HOLED) && Valid(HOLED) && Injectable(HOLED, Holed(), None, file, content)
    ensures Planned(HOLED, Holed(), FileAddition(Root, file, content, 2), [2], 2)
    ensures var b := Result(HOLED, Holed(), FileAddition(Root, file, content, 2), [2], 2);
      !Reads(HOLED, b, Root, FileNames(file).value.0, content)
  {
    hide Holed, FirstRun, Used, Opened, FileNames, Reads, Injectable, Planned, Result, Laid, Roomy;
    HoledOpens();
    HoledRoot(FileNames(file).value.0);
    HoledPlan(file, content);
    HoledIsInjectable(file, content);
    AddedReadsExactly(HOLED, Holed(), Root, file, content, [2], 2);
    OrderlyExactly(HOLED, Holed(), Root, 2, 2);
  }

  lemma DotsAreShort()
    ensures FileNames(".").Some? && FileNames(".").value.1.None? && FileNames("..").Some?
    ensures FileNames("..").value.1.None?
  {
  }
}
