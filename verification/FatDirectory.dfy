/** Directory entries of a FAT12 volume: lookup, free slots, short and long names. */
module FatDirectory {
  import opened Basics

  const ERASED: Byte := 0xE5

  predicate Holds(img: Bytes, start: nat, count: nat) { start + 32 * count <= |img| }

  function First(img: Bytes, start: nat, i: nat): Byte
    requires start + 32 * i < |img|
  {
    img[start + 32 * i]
  }

  function NameAt(img: Bytes, start: nat, i: nat): Bytes
    requires start + 32 * i + 32 <= |img|
  {
    img[start + 32 * i..start + 32 * i + 11]
  }

  /** The offset of the entry with the name, scanning from slot i to the first
      never-used slot. */
  function Find(img: Bytes, start: nat, count: nat, name: Bytes, i: nat): (r: Option<nat>)
    requires Holds(img, start, count) && i <= count
    decreases count - i
  {
    if i == count || First(img, start, i) == 0 then None
    else if First(img, start, i) != ERASED && NameAt(img, start, i) == name then Some(start + 32 * i)
    else Find(img, start, count, name, i + 1)
  }

  method FindEntry(data: array<Byte>, start: nat, count: nat, name: Bytes) returns (r: Option<nat>)
    requires Holds(data[..], start, count)
    ensures r == Find(data[..], start, count, name, 0)
  {
    var i := 0;
    while i < count
      invariant i <= count && Find(data[..], start, count, name, 0) == Find(data[..], start, count, name, i)
    {
      if data[start + 32 * i] == 0 { return None; }
      if data[start + 32 * i] != ERASED && data[start + 32 * i..start + 32 * i + 11] == name {
        return Some(start + 32 * i);
      }
      i := i + 1;
    }
    r := None;
  }

  // ---------- free slots

  predicate Vacant(img: Bytes, start: nat, i: nat)
    requires start + 32 * i < |img|
  {
    First(img, start, i) == 0 || First(img, start, i) == ERASED
  }

  /** Slots i up to i + needed are free. */
  predicate Run(img: Bytes, start: nat, count: nat, needed: nat, i: nat)
    requires Holds(img, start, count) && i + needed <= count
  {
    forall j :: i <= j < i + needed ==> Vacant(img, start, j)
  }

  /** The same, when the slots exist. */
  ghost predicate HasRun(img: Bytes, start: nat, count: nat, needed: nat, i: nat)
    requires Holds(img, start, count)
  {
    i + needed <= count && Run(img, start, count, needed, i)
  }

  /** The first run of so many free slots begins at slot i. */
  ghost predicate FirstRun(img: Bytes, start: nat, count: nat, needed: nat, i: nat)
    requires Holds(img, start, count)
  {
    && i + needed <= count && Run(img, start, count, needed, i)
    && forall k: nat :: k < i ==> !Run(img, start, count, needed, k)
  }

  lemma FirstRunIsRun(img: Bytes, start: nat, count: nat, needed: nat, i: nat)
    requires Holds(img, start, count) && FirstRun(img, start, count, needed, i)
    ensures HasRun(img, start, count, needed, i)
  {
  }

  lemma NoRun(img: Bytes, start: nat, count: nat, needed: nat)
    requires Holds(img, start, count)
    requires forall i: nat :: i + needed <= count ==> !Run(img, start, count, needed, i)
    ensures forall i: nat :: !HasRun(img, start, count, needed, i)
  {
  }

  lemma NoVacancy(img: Bytes, start: nat, count: nat)
    requires Holds(img, start, count) && forall i: nat :: i < count ==> !Vacant(img, start, i)
    ensures forall i: nat :: !HasRun(img, start, count, 1, i)
  {
    forall i: nat ensures !HasRun(img, start, count, 1, i) {
      if i + 1 <= count && Run(img, start, count, 1, i) { RunIsVacant(img, start, count, 1, i, i); }
    }
  }

  method FreeEntry(data: array<Byte>, start: nat, count: nat) returns (r: Option<nat>)
    requires Holds(data[..], start, count)
    ensures r.Some? ==> exists i: nat :: FirstRun(data[..], start, count, 1, i) && r.value == start + 32 * i
    ensures r.None? ==> forall i: nat :: !HasRun(data[..], start, count, 1, i)
  {
    ghost var img := data[..];
    var i := 0;
    while i < count
      invariant i <= count && forall k: nat :: k < i ==> !Vacant(img, start, k)
    {
      if data[start + 32 * i] == 0 || data[start + 32 * i] == ERASED {
        assert forall k: nat :: k < i && k + 1 <= count && Run(img, start, count, 1, k) ==> Vacant(img, start, k);
        assert FirstRun(img, start, count, 1, i);
        return Some(start + 32 * i);
      }
      assert !Vacant(img, start, i);
      i := i + 1;
    }
    NoVacancy(img, start, count);
    r := None;
  }

  method FreeEntries(data: array<Byte>, start: nat, count: nat, needed: nat) returns (r: Option<nat>)
    requires Holds(data[..], start, count) && needed > 0
    ensures r.Some? ==> exists i: nat :: FirstRun(data[..], start, count, needed, i) && r.value == start + 32 * i
    ensures r.None? ==> forall i: nat :: !HasRun(data[..], start, count, needed, i)
  {
    ghost var img := data[..];
    var run, runStart, i := 0, 0, 0;
    while i < count
      invariant run <= i <= count && run < needed
      invariant run > 0 ==> runStart == start + 32 * (i - run)
      invariant forall j :: i - run <= j < i ==> Vacant(img, start, j)
      invariant run < i ==> !Vacant(img, start, i - run - 1)
      invariant forall k: nat :: k + needed <= count && k < i - run ==> !Run(img, start, count, needed, k)
    {
      if data[start + 32 * i] == 0 || data[start + 32 * i] == ERASED {
        if run == 0 { runStart := start + 32 * i; }
        run := run + 1;
        if run == needed {
          assert FirstRun(img, start, count, needed, i + 1 - needed);
          return Some(runStart);
        }
      } else {
        assert !Vacant(img, start, i);
        run := 0;
      }
      i := i + 1;
    }
    NoRun(img, start, count, needed);
    r := None;
  }

  /** After the first never-used slot there are only never-used slots. */
  ghost predicate WellFormed(img: Bytes, start: nat, count: nat)
    requires Holds(img, start, count)
  {
    forall i, j :: 0 <= i < j < count && First(img, start, i) == 0 ==> First(img, start, j) == 0
  }

  /** Nothing before the first run is a never-used slot. */
  lemma UsedBefore(img: Bytes, start: nat, count: nat, needed: nat, i: nat, j: nat)
    requires Holds(img, start, count) && FirstRun(img, start, count, needed, i) && j < i
    requires needed == 1 || WellFormed(img, start, count)
    ensures First(img, start, j) != 0
  {
    if First(img, start, j) == 0 {
      assert Run(img, start, count, needed, j);
    }
  }

  /** The directory with entries written to the slots from i on. */
  function Inserted(img: Bytes, start: nat, i: nat, entries: Bytes): Bytes
    requires start + 32 * i + |entries| <= |img|
  {
    Patch(img, start + 32 * i, entries)
  }

  lemma InsertedSlot(img: Bytes, start: nat, count: nat, i: nat, entries: Bytes, j: nat)
    requires Holds(img, start, count) && i + |entries| / 32 <= count && |entries| % 32 == 0 && j < count
    ensures var r := Inserted(img, start, i, entries);
      && Holds(r, start, count)
      && (i <= j < i + |entries| / 32 ==>
          && First(r, start, j) == entries[32 * (j - i)]
          && NameAt(r, start, j) == entries[32 * (j - i)..32 * (j - i) + 11])
      && (j < i || i + |entries| / 32 <= j ==>
          First(r, start, j) == First(img, start, j) && NameAt(r, start, j) == NameAt(img, start, j))
  {
    var r := Inserted(img, start, i, entries);
    if i <= j < i + |entries| / 32 {
      assert NameAt(r, start, j) == entries[32 * (j - i)..32 * (j - i) + 11];
    } else {
      assert NameAt(r, start, j) == NameAt(img, start, j);
    }
  }

  /** What a new name's slots hold: the last one is the entry, and any before it
      is used and does not match the name. */
  predicate Names(entries: Bytes, name: Bytes) {
    && (|entries| == 32 || |entries| == 64) && |name| == 11
    && var last := |entries| - 32;
       && entries[last..last + 11] == name && entries[last] != 0 && entries[last] != ERASED
       && (last == 32 ==> entries[0] != 0 && entries[..11] != name)
  }

  /** No slot from j up to i is never used. */
  predicate Used(img: Bytes, start: nat, count: nat, j: nat, i: nat)
    requires Holds(img, start, count) && i <= count
  {
    forall k: nat :: j <= k < i ==> First(img, start, k) != 0
  }

  lemma UsedSplits(img: Bytes, start: nat, count: nat, j: nat, i: nat)
    requires Holds(img, start, count) && j < i <= count && Used(img, start, count, j, i)
    ensures First(img, start, j) != 0 && Used(img, start, count, j + 1, i)
  {
  }

  lemma FoundAtRun(img: Bytes, start: nat, count: nat, name: Bytes, entries: Bytes, i: nat)
    requires Holds(img, start, count) && Names(entries, name) && i + |entries| / 32 <= count
    ensures Find(Inserted(img, start, i, entries), start, count, name, i) == Some(start + 32 * i + |entries| - 32)
  {
    hide Inserted, First, NameAt;
    var r := Inserted(img, start, i, entries);
    InsertedSlot(img, start, count, i, entries, i);
    if |entries| == 64 {
      InsertedSlot(img, start, count, i, entries, i + 1);
      assert Find(r, start, count, name, i + 1) == Some(start + 32 * (i + 1));
    }
  }

  /** A name that was not found is found in the slot it is inserted at, when no
      never-used slot comes before that. */
  lemma {:induction false} InsertedIsFound(
    img: Bytes, start: nat, count: nat, name: Bytes, entries: Bytes, i: nat, j: nat)
    requires Holds(img, start, count) && Names(entries, name) && j <= i && i + |entries| / 32 <= count
    requires Used(img, start, count, j, i)
    requires Find(img, start, count, name, j) == None
    ensures Find(Inserted(img, start, i, entries), start, count, name, j) == Some(start + 32 * i + |entries| - 32)
    decreases i - j
  {
    hide Inserted, Used, First, NameAt, Names;
    FoundAtRun(img, start, count, name, entries, i);
    if j < i {
      assert |entries| % 32 == 0 by { SlotSizes(entries, name); }
      InsertedSlot(img, start, count, i, entries, j);
      UsedSplits(img, start, count, j, i);
      InsertedIsFound(img, start, count, name, entries, i, j + 1);
    }
  }

  lemma SlotSizes(entries: Bytes, name: Bytes)
    requires Names(entries, name)
    ensures |entries| % 32 == 0
  {
  }

  /** Behind a never-used slot a name is not found at all. */
  lemma {:induction false} InsertedIsLost(
    img: Bytes, start: nat, count: nat, name: Bytes, entries: Bytes, i: nat, j: nat, k: nat)
    requires Holds(img, start, count) && |entries| % 32 == 0 && i + |entries| / 32 <= count
    requires j <= k < i && First(img, start, k) == 0 && Find(img, start, count, name, j) == None
    ensures Find(Inserted(img, start, i, entries), start, count, name, j) == None
    decreases k - j
  {
    hide Inserted, First, NameAt;
    InsertedSlot(img, start, count, i, entries, j);
    if j < k && First(img, start, j) != 0 { InsertedIsLost(img, start, count, name, entries, i, j + 1, k); }
  }

  /** The exact condition: every slot before the chosen run has been used. */
  lemma InsertedIsFoundExactly(img: Bytes, start: nat, count: nat, name: Bytes, entries: Bytes, i: nat)
    requires Holds(img, start, count) && Names(entries, name) && i + |entries| / 32 <= count
    requires Find(img, start, count, name, 0) == None
    ensures Find(Inserted(img, start, i, entries), start, count, name, 0) ==
      if Used(img, start, count, 0, i) then Some(start + 32 * i + |entries| - 32) else None
  {
    hide Inserted;
    if Used(img, start, count, 0, i) {
      InsertedIsFound(img, start, count, name, entries, i, 0);
    } else {
      var k: nat :| k < i && First(img, start, k) == 0;
      InsertedIsLost(img, start, count, name, entries, i, 0, k);
    }
  }

  /** Entries that do not carry a name, written over free slots, do not disturb its lookup. */
  lemma {:induction false} InsertedKeepsFound(
    img: Bytes, start: nat, count: nat, name: Bytes, entries: Bytes, i: nat, other: Bytes, j: nat)
    requires Holds(img, start, count) && Names(entries, name) && i + |entries| / 32 <= count && j <= count
    requires Run(img, start, count, |entries| / 32, i) && other != name && other != entries[..11]
    requires Find(img, start, count, other, j).Some?
    ensures Find(Inserted(img, start, i, entries), start, count, other, j) == Find(img, start, count, other, j)
    decreases count - j
  {
    hide Inserted, Run, NameAt;
    InsertedSlot(img, start, count, i, entries, j);
    var r := Inserted(img, start, i, entries);
    if i <= j < i + |entries| / 32 {
      RunIsVacant(img, start, count, |entries| / 32, i, j);
      assert First(r, start, j) != 0 && NameAt(r, start, j) != other;
      InsertedKeepsFound(img, start, count, name, entries, i, other, j + 1);
    } else if First(img, start, j) == ERASED || NameAt(img, start, j) != other {
      InsertedKeepsFound(img, start, count, name, entries, i, other, j + 1);
    }
  }

  lemma RunIsVacant(img: Bytes, start: nat, count: nat, needed: nat, i: nat, j: nat)
    requires Holds(img, start, count) && i + needed <= count && Run(img, start, count, needed, i) && i <= j < i + needed
    ensures Vacant(img, start, j)
  {
  }

  /** Insertion keeps a well-formed directory well formed. */
  lemma InsertedIsWellFormed(img: Bytes, start: nat, count: nat, name: Bytes, entries: Bytes, i: nat)
    requires Holds(img, start, count) && Names(entries, name)
    requires FirstRun(img, start, count, |entries| / 32, i) && WellFormed(img, start, count)
    ensures Holds(Inserted(img, start, i, entries), start, count)
    ensures WellFormed(Inserted(img, start, i, entries), start, count)
  {
    var r := Inserted(img, start, i, entries);
    InsertedSlot(img, start, count, i, entries, i);
    forall a, b | 0 <= a < b < count && First(r, start, a) == 0 ensures First(r, start, b) == 0 {
      InsertedSlot(img, start, count, i, entries, a);
      InsertedSlot(img, start, count, i, entries, b);
      if a < i { UsedBefore(img, start, count, |entries| / 32, i, a); }
    }
  }

  // ---------- names

  predicate Ascii(s: string) { forall i :: 0 <= i < |s| ==> s[i] < 128 as char }

  function Upper(c: char): (r: Byte)
    requires c < 128 as char
    ensures r < 128
  {
    if 'a' <= c <= 'z' then c as int - 32 else c as int
  }

  function UpperAll(s: string): (r: Bytes)
    requires Ascii(s)
    ensures |r| == |s| && forall i :: 0 <= i < |r| ==> r[i] == Upper(s[i])
  {
    seq(|s|, i requires 0 <= i < |s| => Upper(s[i]))
  }

  const MARKS := "_$~!#%&-{}()@'`"

  predicate Allowed(b: Byte) {
    || 65 <= b <= 90 || 48 <= b <= 57
    || (b < 128 && (b as char) in MARKS)
  }

  predicate AllAllowed(s: Bytes) { forall b :: b in s ==> Allowed(b) }

  /** Where the first dot is, or the length. */
  function Dot(s: string): (n: nat)
    ensures n <= |s| && (n < |s| ==> s[n] == '.') && '.' !in s[..n]
  {
    if s == "" || s[0] == '.' then 0 else
      var n := 1 + Dot(s[1..]);
      assert s[..n] == [s[0]] + s[1..][..n - 1];
      n
  }

  function Padded(s: Bytes, n: nat, pad: Byte): (r: Bytes)
    requires |s| <= n
    ensures |r| == n && forall i :: 0 <= i < n ==> r[i] == if i < |s| then s[i] else pad
  {
    s + seq(n - |s|, _ => pad)
  }

  function Stem(s: string): string { s[..Dot(s)] }

  function Suffix(s: string): string { if Dot(s) < |s| then s[Dot(s) + 1..] else "" }

  /** The 8.3 form of a component. */
  function ShortName(s: string): (r: Option<Bytes>)
    ensures r.Some? ==> |r.value| == 11
  {
    if s == "." then Some(Padded([46], 11, 32))
    else if s == ".." then Some(Padded([46, 46], 11, 32))
    else if '.' in Suffix(s) || !Ascii(s) then None
    else
      var stem, suffix := UpperAll(Stem(s)), UpperAll(Suffix(s));
      if stem == [] || |stem| > 8 || |suffix| > 3 || !AllAllowed(stem + suffix)
         || (Dot(s) < |s| && suffix == []) then None
      else Some(Padded(stem, 8, 32) + Padded(suffix, 3, 32))
  }

  function Truncated(s: Bytes, n: nat): (r: Bytes)
    ensures |r| <= n
  {
    if |s| > n then s[..n] else s
  }

  /** The 8.3 name and, when the component needs one, the long name. */
  function FileNames(s: string): (r: Option<(Bytes, Option<string>)>)
    ensures r.Some? ==> |r.value.0| == 11
    ensures r.Some? && r.value.1.Some? ==> 0 < |r.value.1.value| <= 13 && Ascii(r.value.1.value)
  {
    var short := ShortName(s);
    if short.Some? then Some((short.value, None))
    else if Stem(s) == "" || Suffix(s) == "" || '.' in Suffix(s) || |s| > 13 || !Ascii(s) then None
    else
      var stem, suffix := UpperAll(Stem(s)), UpperAll(Suffix(s));
      if !AllAllowed(stem + suffix) then None
      else Some((Padded(Truncated(stem, 6), 6, 95) + [126, 49] + Padded(Truncated(suffix, 3), 3, 95), Some(s)))
  }

  function Checksum(name: Bytes): Byte {
    if name == [] then 0 else
      var c := Checksum(name[..|name| - 1]) as int;
      (c % 2 * 128 + c / 2 + name[|name| - 1] as int) % 256
  }

  /** The code unit at a position of the long name: its character, a terminator, or filler. */
  function Unit(s: string, i: nat): (u: nat)
    requires Ascii(s)
    ensures u < 65536
  {
    if i < |s| then s[i] as int else if i == |s| then 0 else 0xFFFF
  }

  function Units(s: string, low: nat, high: nat): (r: Bytes)
    requires Ascii(s) && low <= high
    ensures |r| == 2 * (high - low)
    decreases high - low
  {
    if low == high then [] else [Unit(s, low) % 256, Unit(s, low) / 256] + Units(s, low + 1, high)
  }

  function LongEntry(s: string, name: Bytes): (r: Bytes)
    requires Ascii(s) && 0 < |s| <= 13
    ensures |r| == 32
  {
    [0x41] + Units(s, 0, 5) + [0x0F, 0, Checksum(name)] + Units(s, 5, 11) + [0, 0] + Units(s, 11, 13)
  }

  function Entry(name: Bytes, attributes: Byte, cluster: nat, size: nat): (r: Bytes)
    requires |name| == 11 && cluster <= 0xFFFF && size <= 0xFFFFFFFF
    ensures |r| == 32 && r[..11] == name && r[11] == attributes
  {
    name + [attributes] + Zeros(14) + Little2(cluster) + Little4(size)
  }

  /** An entry holds the first cluster and the size it was made with. */
  lemma EntryFields(name: Bytes, attributes: Byte, cluster: nat, size: nat)
    requires |name| == 11 && cluster <= 0xFFFF && size <= 0xFFFFFFFF
    ensures var r := Entry(name, attributes, cluster, size);
      && r[26] as int + 256 * r[27] as int == cluster
      && r[28] as int + 256 * r[29] as int + 65536 * r[30] as int + 16777216 * r[31] as int == size
      && forall i :: 12 <= i < 26 ==> r[i] == 0
  {
    hide Little2, Little4;
  }

  predicate Printable(s: Bytes) { forall i :: 0 <= i < |s| ==> 32 <= s[i] < 127 }

  lemma AllowedIsPrintable(a: Bytes, b: Bytes)
    requires AllAllowed(a + b)
    ensures Printable(a) && Printable(b) && (a != [] ==> a[0] > 32 && a[0] != 46)
  {
    forall x | x in a + b ensures 32 < x < 127 && x != 46 {
      assert Allowed(x);
    }
    forall i | 0 <= i < |a| ensures 32 <= a[i] < 127 { assert a[i] in a + b; }
    forall i | 0 <= i < |b| ensures 32 <= b[i] < 127 { assert b[i] in a + b; }
    assert a != [] ==> a[0] in a + b;
  }

  /** Every byte of a file's 8.3 name is a printable character, and the first is not a dot. */
  lemma FileNamesArePrintable(s: string)
    requires FileNames(s).Some? && s != "." && s != ".."
    ensures Printable(FileNames(s).value.0) && FileNames(s).value.0[0] > 32 && FileNames(s).value.0[0] != 46
  {
    hide Allowed, AllAllowed, Dot, UpperAll;
    var stem, suffix := UpperAll(Stem(s)), UpperAll(Suffix(s));
    AllowedIsPrintable(stem, suffix);
  }

  /** The slots written for a file of that name. */
  function Slots(names: (Bytes, Option<string>), cluster: nat, size: nat): (r: Bytes)
    requires |names.0| == 11 && cluster <= 0xFFFF && size <= 0xFFFFFFFF
    requires names.1.Some? ==> 0 < |names.1.value| <= 13 && Ascii(names.1.value)
    ensures |r| == if names.1.Some? then 64 else 32
  {
    (if names.1.Some? then LongEntry(names.1.value, names.0) else []) + Entry(names.0, 0x20, cluster, size)
  }

  lemma SlotsName(s: string, cluster: nat, size: nat)
    requires FileNames(s).Some? && s != "." && s != ".." && cluster <= 0xFFFF && size <= 0xFFFFFFFF
    ensures Names(Slots(FileNames(s).value, cluster, size), FileNames(s).value.0)
  {
    hide FileNames, LongEntry, Entry;
    var names := FileNames(s).value;
    var r := Slots(names, cluster, size);
    FileNamesArePrintable(s);
    if names.1.Some? {
      LongStarts(names.1.value, names.0);
      assert r[32..43] == Entry(names.0, 0x20, cluster, size)[..11];
      assert r[..11][2] == 0;
      assert r[0] == 0x41;
    } else {
      assert r == Entry(names.0, 0x20, cluster, size);
    }
  }

  lemma LongStarts(s: string, name: Bytes)
    requires Ascii(s) && 0 < |s| <= 13
    ensures LongEntry(s, name)[0] == 0x41 && LongEntry(s, name)[2] == 0
  {
    assert Units(s, 0, 5)[1] == Unit(s, 0) / 256;
  }

  // ---------- what a reader of the slots sees

  /** The text before the trailing spaces. */
  function Trimmed(s: Bytes): Bytes {
    if s == [] || s[|s| - 1] != 32 then s else Trimmed(s[..|s| - 1])
  }

  /** An 8.3 name as a directory listing shows it. */
  function Shown(name: Bytes): Bytes
    requires |name| == 11
  {
    var stem, suffix := Trimmed(name[..8]), Trimmed(name[8..]);
    if suffix == [] then stem else stem + [46] + suffix
  }

  lemma {:induction false} TrimsPadding(s: Bytes, n: nat)
    requires |s| <= n && (s != [] ==> s[|s| - 1] != 32)
    ensures Trimmed(Padded(s, n, 32)) == s
    decreases n
  {
    if n == |s| {
      assert Padded(s, n, 32) == s;
    } else {
      assert Padded(s, n, 32)[..n - 1] == Padded(s, n - 1, 32);
      TrimsPadding(s, n - 1);
    }
  }

  lemma LastIsPrintable(a: Bytes, b: Bytes)
    requires AllAllowed(a + b)
    ensures (a != [] ==> a[|a| - 1] != 32) && (b != [] ==> b[|b| - 1] != 32)
  {
    if a != [] { assert a[|a| - 1] in a + b && Allowed(a[|a| - 1]); }
    if b != [] { assert b[|b| - 1] in a + b && Allowed(b[|b| - 1]); }
  }

  lemma UpperSplits(s: string, n: nat)
    requires Ascii(s) && n < |s| && s[n] == '.'
    ensures UpperAll(s) == UpperAll(s[..n]) + ([46] + UpperAll(s[n + 1..]))
  {
    var a, b := UpperAll(s), UpperAll(s[..n]) + ([46] + UpperAll(s[n + 1..]));
    forall i | 0 <= i < |s| ensures a[i] == b[i] {
      if i > n { assert s[n + 1..][i - n - 1] == s[i]; }
    }
  }

  lemma UpperParts(s: string)
    requires Ascii(s)
    ensures UpperAll(s) == UpperAll(Stem(s)) + if Dot(s) < |s| then [46] + UpperAll(Suffix(s)) else []
  {
    hide Upper;
    var n := Dot(s);
    if n < |s| { UpperSplits(s, n); } else { assert s[..n] == s; }
  }

  lemma ShortParts(s: string)
    requires ShortName(s).Some? && s != "." && s != ".."
    ensures Ascii(s) && |Stem(s)| <= 8 && |Suffix(s)| <= 3 && (Dot(s) < |s| <==> Suffix(s) != "")
    ensures AllAllowed(UpperAll(Stem(s)) + UpperAll(Suffix(s)))
    ensures ShortName(s).value == Padded(UpperAll(Stem(s)), 8, 32) + Padded(UpperAll(Suffix(s)), 3, 32)
  {
    hide Allowed, AllAllowed, Dot, Upper, Padded;
  }

  lemma PaddedShows(stem: Bytes, suffix: Bytes)
    requires |stem| <= 8 && |suffix| <= 3 && AllAllowed(stem + suffix)
    ensures Shown(Padded(stem, 8, 32) + Padded(suffix, 3, 32))
         == stem + if suffix == [] then [] else [46] + suffix
  {
    LastIsPrintable(stem, suffix);
    hide AllAllowed, Trimmed, Padded;
    TrimsPadding(stem, 8);
    TrimsPadding(suffix, 3);
    var name := Padded(stem, 8, 32) + Padded(suffix, 3, 32);
    assert name[..8] == Padded(stem, 8, 32) && name[8..] == Padded(suffix, 3, 32);
  }

  /** A short name shows as the upper-case form of the component. */
  lemma ShortNameShows(s: string)
    requires ShortName(s).Some? && s != "." && s != ".."
    ensures Ascii(s) && Shown(ShortName(s).value) == UpperAll(s)
  {
    hide ShortName, AllAllowed, Dot, Stem, Suffix, Shown, Padded, UpperAll;
    ShortParts(s);
    PaddedShows(UpperAll(Stem(s)), UpperAll(Suffix(s)));
    UpperParts(s);
    assert |UpperAll(Suffix(s))| == |Suffix(s)|;
  }

  /** The alias of a long name: six characters, a tilde and a one, and three more. */
  lemma AliasShows(s: string)
    requires FileNames(s).Some? && FileNames(s).value.1.Some?
    ensures var name, stem, suffix := FileNames(s).value.0, Stem(s), Suffix(s);
      && FileNames(s).value.1 == Some(s) && name[6] == 126 && name[7] == 49
      && (forall i :: 0 <= i < 6 ==> name[i] == if i < |stem| && stem[i] < 128 as char then Upper(stem[i]) else 95)
      && (forall i :: 0 <= i < 3 ==>
            name[8 + i] == if i < |suffix| && suffix[i] < 128 as char then Upper(suffix[i]) else 95)
  {
    hide Allowed, AllAllowed, Dot, ShortName, Upper;
  }

  /** Where the thirteen code units of a long slot lie. */
  function UnitOffset(i: nat): (r: nat)
    requires i < 13
    ensures r <= 30
  {
    if i < 5 then 1 + 2 * i else if i < 11 then 14 + 2 * (i - 5) else 28 + 2 * (i - 11)
  }

  lemma {:induction false} UnitBytes(s: string, low: nat, high: nat, i: nat)
    requires Ascii(s) && low <= i < high
    ensures var u, k := Units(s, low, high), 2 * (i - low); u[k] as int + 256 * u[k + 1] as int == Unit(s, i)
    decreases high - low
  {
    hide Unit;
    if i > low { UnitBytes(s, low + 1, high, i); }
  }

  lemma LongParts(s: string, name: Bytes)
    requires Ascii(s) && 0 < |s| <= 13
    ensures var r := LongEntry(s, name);
      && r[0] == 0x41 && r[11] == 0x0F && r[12] == 0 && r[13] == Checksum(name) && r[26] == 0 && r[27] == 0
      && r[1..11] == Units(s, 0, 5) && r[14..26] == Units(s, 5, 11) && r[28..32] == Units(s, 11, 13)
  {
    hide Units, Checksum;
  }

  /** A long slot holds the characters of the name, a terminator and filler, at the
      offsets of the format, and carries the checksum of the short name. */
  lemma LongReads(s: string, name: Bytes, i: nat)
    requires Ascii(s) && 0 < |s| <= 13 && i < 13
    ensures var r, o := LongEntry(s, name), UnitOffset(i);
      && r[0] == 0x41 && r[11] == 0x0F && r[12] == 0 && r[13] == Checksum(name) && r[26] == 0 && r[27] == 0
      && r[o] as int + 256 * r[o + 1] as int
         == if i < |s| then s[i] as int else if i == |s| then 0 else 0xFFFF
  {
    hide Units, Checksum, LongEntry;
    LongParts(s, name);
    var r := LongEntry(s, name);
    if i < 5 {
      UnitBytes(s, 0, 5, i);
      assert r[1..11][2 * i] == r[1 + 2 * i] && r[1..11][2 * i + 1] == r[2 + 2 * i];
    } else if i < 11 {
      UnitBytes(s, 5, 11, i);
      assert r[14..26][2 * i - 10] == r[4 + 2 * i] && r[14..26][2 * i - 9] == r[5 + 2 * i];
    } else {
      UnitBytes(s, 11, 13, i);
      assert r[28..32][2 * i - 22] == r[6 + 2 * i] && r[28..32][2 * i - 21] == r[7 + 2 * i];
    }
  }

  /** The checksum rotates right and adds: its steps on the first three bytes. */
  lemma ChecksumSteps(a: Byte, b: Byte, c: Byte)
    ensures Checksum([a]) == a
    ensures Checksum([a, b]) == ((a as int + if a % 2 == 1 then 255 else 0) / 2 + b as int) % 256
    ensures Checksum([65, 66, 67]) == 180
  {
    assert [a][..0] == [] && [a, b][..1] == [a];
    assert [65, 66, 67][..2] == [65, 66] && [65, 66][..1] == [65] && [65][..0] == [];
    assert Checksum([65]) == 65 && Checksum([65, 66]) == 226;
  }
}
