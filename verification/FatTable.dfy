/** The mirrored allocation tables of a FAT12 volume: 12-bit entries, two to three bytes. */
module FatTable {
  import opened Basics

  /** Where the parts of a volume lie, in bytes. */
  datatype Layout = Layout(fatStart: nat, fatSize: nat, fatCount: nat, rootStart: nat, rootEntries: nat,
                           dataStart: nat, clusterSize: nat, clusterCount: nat, length: nat)

  const END := 0xFFF

  /** The parts follow each other. */
  predicate Laid(l: Layout) {
    && l.fatCount > 0 && l.rootStart == CopyStart(l, l.fatCount)
    && l.rootStart + l.rootEntries * 32 <= l.dataStart
    && l.clusterSize >= 512 && l.clusterSize % 32 == 0 && 0 < l.clusterCount < 4085
    && ClusterStart(l, l.clusterCount + 2) <= l.length
  }

  /** A table has room for an entry of every cluster. */
  predicate Roomy(l: Layout) { Offset(l.clusterCount + 1) + 2 <= l.fatSize }

  predicate Valid(l: Layout) { Laid(l) && Roomy(l) }

  predicate InRange(l: Layout, c: nat) { 2 <= c < l.clusterCount + 2 }

  function Offset(c: nat): nat { c + c / 2 }

  function CopyStart(l: Layout, i: nat): nat { l.fatStart + i * l.fatSize }

  function ClusterStart(l: Layout, c: nat): nat
    requires c >= 2
  {
    l.dataStart + (c - 2) * l.clusterSize
  }

  lemma CopyFits(l: Layout, i: nat)
    requires Laid(l) && i < l.fatCount
    ensures l.fatStart <= CopyStart(l, i) && CopyStart(l, i) + l.fatSize <= l.rootStart <= l.length
  {
    Times(i, l.fatCount, l.fatSize);
  }

  /** Even an entry past the end of its table lies inside the image. */
  lemma EntryFits(l: Layout, i: nat, c: nat)
    requires Laid(l) && i < l.fatCount && InRange(l, c)
    ensures CopyStart(l, i) + Offset(c) + 1 < l.length
  {
    hide CopyStart;
    CopyFits(l, i);
    Grows(l.clusterCount, 512, l.clusterSize);
  }

  lemma Grows(n: nat, a: nat, b: nat)
    requires a <= b
    ensures n * a <= n * b
  {
  }

  lemma CopiesApart(l: Layout, i: nat, j: nat)
    requires i < j
    ensures CopyStart(l, i) + l.fatSize <= CopyStart(l, j)
  {
    Times(i, j, l.fatSize);
  }

  lemma Times(i: nat, j: nat, size: nat)
    requires i < j
    ensures i * size + size <= j * size
  {
    assert j * size == i * size + (j - i) * size;
    assert (j - i) * size == size + (j - i - 1) * size;
  }

  // ---------- one entry

  function Pair(img: Bytes, o: nat): (r: nat)
    requires o + 1 < |img|
    ensures r < 65536
  {
    img[o] as int + 256 * img[o + 1] as int
  }

  function Decoded(pair: nat, odd: bool): nat { if odd then pair / 16 else pair % 4096 }

  function Encoded(pair: nat, odd: bool, v: nat): nat {
    if odd then pair % 16 + v * 16 else pair / 4096 * 4096 + v
  }

  function EntryAt(img: Bytes, base: nat, c: nat): nat
    requires base + Offset(c) + 1 < |img|
  {
    Decoded(Pair(img, base + Offset(c)), c % 2 == 1)
  }

  function SetEntryAt(img: Bytes, base: nat, c: nat, v: nat): (r: Bytes)
    requires base + Offset(c) + 1 < |img| && v <= 0xFFF
    ensures |r| == |img|
  {
    var o := base + Offset(c);
    var pair := Encoded(Pair(img, o), c % 2 == 1, v);
    img[o := pair % 256][o + 1 := pair / 256]
  }

  lemma EncodedIsExact(pair: nat, odd: bool, v: nat)
    requires pair < 65536 && v <= 0xFFF
    ensures var r := Encoded(pair, odd, v);
      r < 65536 && Decoded(r, odd) == v && (if odd then r % 16 == pair % 16 else r / 4096 == pair / 4096)
  {
  }

  /** Halves of a pair that the two neighbours own. */
  lemma Halves(low: Byte, high: Byte)
    ensures (low as int + 256 * high as int) / 4096 == high as int / 16
    ensures (low as int + 256 * high as int) % 16 == low as int % 16
    ensures (low as int + 256 * high as int) / 16 == low as int / 16 + 16 * high as int
    ensures (low as int + 256 * high as int) % 4096 == low as int + 256 * (high as int % 16)
  {
  }

  /** Which bits of its two bytes an entry is: the low twelve, or the high twelve. */
  lemma EntryBits(img: Bytes, base: nat, c: nat)
    requires base + Offset(c) + 1 < |img|
    ensures var low, high := img[base + c + c / 2] as int, img[base + c + c / 2 + 1] as int;
      EntryAt(img, base, c) == if c % 2 == 0 then low + 256 * (high % 16) else low / 16 + 16 * high
  {
    Halves(img[base + Offset(c)], img[base + Offset(c) + 1]);
  }

  /** An even entry and the next one share three bytes, read as one little-endian number. */
  lemma PairPacks(img: Bytes, base: nat, c: nat)
    requires c % 2 == 0 && base + c / 2 * 3 + 2 < |img|
    ensures base + Offset(c) + 1 < |img| && base + Offset(c + 1) + 1 < |img|
    ensures var at := base + c / 2 * 3;
      img[at] as int + 256 * img[at + 1] as int + 65536 * img[at + 2] as int ==
        EntryAt(img, base, c) + 4096 * EntryAt(img, base, c + 1)
  {
    assert Offset(c) == c / 2 * 3 && Offset(c + 1) == c / 2 * 3 + 1;
    EntryBits(img, base, c);
    EntryBits(img, base, c + 1);
    hide Decoded;
    var b := img[base + c / 2 * 3 + 1] as int;
    assert b == b % 16 + b / 16 * 16;
  }

  /** So after an entry is set the three bytes hold the value beside its neighbour's. */
  lemma SetEntryPacks(img: Bytes, base: nat, c: nat, v: nat)
    requires base + c / 2 * 3 + 2 < |img| && v <= 0xFFF
    ensures base + Offset(c) + 1 < |img|
    ensures var r, at, other := SetEntryAt(img, base, c, v), base + c / 2 * 3, if c % 2 == 0 then c + 1 else c - 1;
      && base + Offset(other) + 1 < |img|
      && r[at] as int + 256 * r[at + 1] as int + 65536 * r[at + 2] as int ==
         (if c % 2 == 0 then v + 4096 * EntryAt(img, base, other) else EntryAt(img, base, other) + 4096 * v)
      && forall p :: 0 <= p < |img| && (p < at || at + 2 < p) ==> r[p] == img[p]
  {
    var even := c / 2 * 2;
    PairPacks(img, base, even);
    PairPacks(SetEntryAt(img, base, c, v), base, even);
    SetEntryIsExact(img, base, c, v, even);
    SetEntryIsExact(img, base, c, v, even + 1);
    hide EntryAt, Encoded;
  }

  /** Writing one entry of one table changes that entry to the value, no other
      entry, and no byte but the entry's two. */
  lemma SetEntryIsExact(img: Bytes, base: nat, c: nat, v: nat, d: nat)
    requires base + Offset(c) + 1 < |img| && base + Offset(d) + 1 < |img| && v <= 0xFFF
    ensures EntryAt(SetEntryAt(img, base, c, v), base, d) == if d == c then v else EntryAt(img, base, d)
  {
    hide Decoded, Encoded;
    var o, p := base + Offset(c), base + Offset(d);
    if d == c {
      SetEntryReadsBack(img, base, c, v);
    } else if p == o + 1 {
      SetEntryBefore(img, base, c, v);
    } else if o == p + 1 {
      SetEntryAfter(img, base, c, v);
    } else {
      OffsetsApart(c, d);
    }
  }

  lemma OffsetsApart(c: nat, d: nat)
    requires c != d
    ensures Offset(c) != Offset(d)
    ensures Offset(d) == Offset(c) + 1 ==> c % 2 == 0 && d == c + 1
  {
  }

  lemma SetEntryReadsBack(img: Bytes, base: nat, c: nat, v: nat)
    requires base + Offset(c) + 1 < |img| && v <= 0xFFF
    ensures EntryAt(SetEntryAt(img, base, c, v), base, c) == v
  {
    var o := base + Offset(c);
    EncodedIsExact(Pair(img, o), c % 2 == 1, v);
    hide Encoded, Decoded;
    assert Pair(SetEntryAt(img, base, c, v), o) == Encoded(Pair(img, o), c % 2 == 1, v);
  }

  /** The odd entry that shares its first byte with the even entry being set. */
  lemma SetEntryBefore(img: Bytes, base: nat, c: nat, v: nat)
    requires c % 2 == 0 && base + Offset(c) + 2 < |img| && v <= 0xFFF
    ensures EntryAt(SetEntryAt(img, base, c, v), base, c + 1) == EntryAt(img, base, c + 1)
  {
    var r, o := SetEntryAt(img, base, c, v), base + Offset(c);
    EncodedIsExact(Pair(img, o), false, v);
    Halves(img[o], img[o + 1]);
    Halves(img[o + 1], img[o + 2]);
    Halves(r[o], r[o + 1]);
    Halves(r[o + 1], r[o + 2]);
    hide Encoded;
    assert Offset(c + 1) == Offset(c) + 1;
  }

  /** The even entry that shares its last byte with the odd entry being set. */
  lemma SetEntryAfter(img: Bytes, base: nat, c: nat, v: nat)
    requires c % 2 == 1 && base + Offset(c) + 1 < |img| && v <= 0xFFF
    ensures EntryAt(SetEntryAt(img, base, c, v), base, c - 1) == EntryAt(img, base, c - 1)
  {
    var r, o := SetEntryAt(img, base, c, v), base + Offset(c);
    EncodedIsExact(Pair(img, o), true, v);
    Halves(img[o], img[o + 1]);
    Halves(img[o - 1], img[o]);
    Halves(r[o], r[o + 1]);
    Halves(r[o - 1], r[o]);
    hide Encoded;
    assert Offset(c - 1) == Offset(c) - 1;
  }

  // ---------- all tables

  function FatValue(l: Layout, img: Bytes, copy: nat, c: nat): nat
    requires Laid(l) && |img| == l.length && copy < l.fatCount && InRange(l, c)
  {
    EntryFits(l, copy, c);
    EntryAt(img, CopyStart(l, copy), c)
  }

  /** The packing of every table of an image. */
  lemma TablePacks(l: Layout, img: Bytes, copy: nat, c: nat)
    requires Laid(l) && |img| == l.length && copy < l.fatCount && c % 2 == 0 && InRange(l, c) && InRange(l, c + 1)
    ensures var at := l.fatStart + copy * l.fatSize + c / 2 * 3;
      && at + 2 < |img|
      && img[at] as int + 256 * img[at + 1] as int + 65536 * img[at + 2] as int ==
         FatValue(l, img, copy, c) + 4096 * FatValue(l, img, copy, c + 1)
  {
    hide Laid, EntryAt;
    EntryFits(l, copy, c + 1);
    assert Offset(c + 1) == c / 2 * 3 + 1;
    PairPacks(img, CopyStart(l, copy), c);
  }

  /** Clusters follow one another from the start of the data area. */
  lemma ClustersFollow(l: Layout, c: nat)
    requires c >= 2
    ensures ClusterStart(l, 2) == l.dataStart && ClusterStart(l, c + 1) == ClusterStart(l, c) + l.clusterSize
  {
    assert (c - 1) * l.clusterSize == (c - 2) * l.clusterSize + l.clusterSize;
  }

  /** The first n tables with entry c set. */
  function SetCopies(l: Layout, img: Bytes, n: nat, c: nat, v: nat): (r: Bytes)
    requires Laid(l) && |img| == l.length && n <= l.fatCount && InRange(l, c) && v <= 0xFFF
    ensures |r| == |img|
  {
    if n == 0 then img else
      EntryFits(l, n - 1, c);
      SetEntryAt(SetCopies(l, img, n - 1, c, v), CopyStart(l, n - 1), c, v)
  }

  function SetFat(l: Layout, img: Bytes, c: nat, v: nat): (r: Bytes)
    requires Laid(l) && |img| == l.length && InRange(l, c) && v <= 0xFFF
    ensures |r| == |img|
  {
    SetCopies(l, img, l.fatCount, c, v)
  }

  /** The bytes of a table. */
  function Table(l: Layout, img: Bytes, i: nat): (t: Bytes)
    requires Valid(l) && |img| == l.length && i < l.fatCount
    ensures |t| == l.fatSize
  {
    CopyFits(l, i);
    img[CopyStart(l, i)..CopyStart(l, i) + l.fatSize]
  }

  ghost predicate Mirrored(l: Layout, img: Bytes)
    requires Valid(l) && |img| == l.length
  {
    forall i: nat {:trigger Table(l, img, i)} :: i < l.fatCount ==> Table(l, img, i) == Table(l, img, 0)
  }

  predicate InFat(l: Layout, p: nat) { l.fatStart <= p < l.rootStart }

  /** A table is changed by its own pass and by no other. */
  lemma {:induction false} TableAfter(l: Layout, img: Bytes, n: nat, c: nat, v: nat, i: nat)
    requires Valid(l) && |img| == l.length && n <= l.fatCount && i < l.fatCount && InRange(l, c) && v <= 0xFFF
    ensures Table(l, SetCopies(l, img, n, c, v), i) ==
      if i < n then SetEntryAt(Table(l, img, i), 0, c, v) else Table(l, img, i)
  {
    hide SetEntryAt, Table, CopyStart, ClusterStart;
    if n > 0 {
      TableAfter(l, img, n - 1, c, v, i);
      CopyFits(l, n - 1);
      CopyFits(l, i);
      TableStep(l, SetCopies(l, img, n - 1, c, v), n - 1, c, v, i);
    }
  }

  lemma TableStep(l: Layout, img: Bytes, k: nat, c: nat, v: nat, i: nat)
    requires Valid(l) && |img| == l.length && k < l.fatCount && i < l.fatCount && InRange(l, c) && v <= 0xFFF
    requires CopyStart(l, k) + l.fatSize <= |img|
    ensures Table(l, SetEntryAt(img, CopyStart(l, k), c, v), i) ==
      if i == k then SetEntryAt(Table(l, img, i), 0, c, v) else Table(l, img, i)
  {
    var r := SetEntryAt(img, CopyStart(l, k), c, v);
    CopyFits(l, i);
    if i == k {
      assert Pair(Table(l, img, i), Offset(c)) == Pair(img, CopyStart(l, k) + Offset(c));
      assert Table(l, r, i) == SetEntryAt(Table(l, img, i), 0, c, v);
    } else {
      if i < k { CopiesApart(l, i, k); } else { CopiesApart(l, k, i); }
      assert Table(l, r, i) == Table(l, img, i);
    }
  }

  /** Setting an entry reads back as the value in every table, leaves every other
      entry as it was, and keeps mirrored tables mirrored. */
  lemma SetFatIsExact(l: Layout, img: Bytes, c: nat, v: nat, i: nat, d: nat)
    requires Valid(l) && |img| == l.length && i < l.fatCount && InRange(l, c) && InRange(l, d) && v <= 0xFFF
    ensures FatValue(l, SetFat(l, img, c, v), i, d) == if d == c then v else FatValue(l, img, i, d)
  {
    TableAfter(l, img, l.fatCount, c, v, i);
    CopyFits(l, i);
    TableEntry(l, img, i, d);
    TableEntry(l, SetFat(l, img, c, v), i, d);
    SetEntryIsExact(Table(l, img, i), 0, c, v, d);
  }

  lemma TableEntry(l: Layout, img: Bytes, i: nat, d: nat)
    requires Valid(l) && |img| == l.length && i < l.fatCount && InRange(l, d)
    ensures Offset(d) + 1 < |Table(l, img, i)| && FatValue(l, img, i, d) == EntryAt(Table(l, img, i), 0, d)
  {
    CopyFits(l, i);
    assert Pair(Table(l, img, i), Offset(d)) == Pair(img, CopyStart(l, i) + Offset(d));
  }

  /** Setting an entry puts it, beside its neighbour's, into three bytes of every table. */
  lemma SetFatPacks(l: Layout, img: Bytes, copy: nat, c: nat, v: nat)
    requires Valid(l) && |img| == l.length && copy < l.fatCount && v <= 0xFFF
    requires InRange(l, c) && InRange(l, c / 2 * 2) && InRange(l, c / 2 * 2 + 1)
    ensures var r, at := SetFat(l, img, c, v), l.fatStart + copy * l.fatSize + c / 2 * 3;
      && at + 2 < |r|
      && r[at] as int + 256 * r[at + 1] as int + 65536 * r[at + 2] as int ==
         (if c % 2 == 0 then v + 4096 * FatValue(l, img, copy, c + 1) else FatValue(l, img, copy, c - 1) + 4096 * v)
  {
    hide Laid, Roomy, FatValue, SetFat;
    var even := c / 2 * 2;
    TablePacks(l, SetFat(l, img, c, v), copy, even);
    SetFatIsExact(l, img, c, v, copy, even);
    SetFatIsExact(l, img, c, v, copy, even + 1);
  }

  lemma SetFatMirrors(l: Layout, img: Bytes, c: nat, v: nat)
    requires Valid(l) && |img| == l.length && InRange(l, c) && v <= 0xFFF && Mirrored(l, img)
    ensures Mirrored(l, SetFat(l, img, c, v))
  {
    var r := SetFat(l, img, c, v);
    forall i: nat | i < l.fatCount ensures Table(l, r, i) == Table(l, r, 0) {
      TableAfter(l, img, l.fatCount, c, v, i);
      TableAfter(l, img, l.fatCount, c, v, 0);
      assert Table(l, img, i) == Table(l, img, 0);
    }
  }

  /** No byte outside the tables changes. */
  lemma {:induction false} SetCopiesStays(l: Layout, img: Bytes, n: nat, c: nat, v: nat, p: nat)
    requires Valid(l) && |img| == l.length && n <= l.fatCount && InRange(l, c) && v <= 0xFFF
    requires p < |img| && !InFat(l, p)
    ensures SetCopies(l, img, n, c, v)[p] == img[p]
  {
    if n > 0 {
      SetCopiesStays(l, img, n - 1, c, v, p);
      CopyFits(l, n - 1);
    }
  }

  // ---------- tables without room

  /** Setting an entry never changes a byte outside the tables. */
  ghost predicate Contained(l: Layout)
    requires Laid(l)
  {
    forall img: Bytes, c: nat, v: nat, p: nat {:trigger SetFat(l, img, c, v)[p]} ::
      |img| == l.length && InRange(l, c) && v <= 0xFFF && p < |img| && !InFat(l, p) ==>
        SetFat(l, img, c, v)[p] == img[p]
  }

  /** The last table's last entry, when the table has no room for it. */
  lemma Spills(l: Layout)
    requires Laid(l) && !Roomy(l)
    ensures var img, c := Zeros(l.length), l.clusterCount + 1;
      var p := CopyStart(l, l.fatCount - 1) + Offset(c) + 1;
      InRange(l, c) && p < l.length && l.rootStart <= p && SetFat(l, img, c, 0xFFF)[p] != img[p]
  {
    var img, c, n := Zeros(l.length), l.clusterCount + 1, l.fatCount - 1;
    EntryFits(l, n, c);
    Adjacent(n, l.fatSize);
    var before, o := SetCopies(l, img, n, c, 0xFFF), CopyStart(l, n) + Offset(c);
    hide CopyStart, SetCopies;
    AllOnesEntry(Pair(before, o), c % 2 == 1);
  }

  lemma Adjacent(n: nat, size: nat)
    ensures (n + 1) * size == n * size + size
  {
  }

  lemma AllOnesEntry(pair: nat, odd: bool)
    requires pair < 65536
    ensures Encoded(pair, odd, 0xFFF) / 256 > 0
  {
  }

  /** Table writes stay inside the tables exactly when a table has room for an
      entry of every cluster. */
  lemma ContainedExactly(l: Layout)
    requires Laid(l)
    ensures Contained(l) <==> Roomy(l)
  {
    if Roomy(l) {
      forall img: Bytes, c: nat, v: nat, p: nat
        | |img| == l.length && InRange(l, c) && v <= 0xFFF && p < |img| && !InFat(l, p)
        ensures SetFat(l, img, c, v)[p] == img[p]
      {
        SetCopiesStays(l, img, l.fatCount, c, v, p);
      }
    } else {
      Spills(l);
    }
  }
}
