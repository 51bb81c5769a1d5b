/** Types and small sequence facts shared by every component. */
module Basics {

  datatype Option<+T> = None | Some(value: T)

  type Byte = b: int | 0 <= b < 256
  type Bytes = seq<Byte>

  /** The largest file of a scenario. */
  const MAX_FILE := 16 * 1024 * 1024

  /** Number of 4096-byte blocks that hold the first n bytes. */
  function Blocks(n: nat): (r: nat)
    ensures n <= r * 4096 < n + 4096
  {
    (n + 4095) / 4096
  }

  function Zeros(n: nat): (r: Bytes)
    ensures |r| == n && forall i :: 0 <= i < n ==> r[i] == 0
  {
    seq(n, _ => 0)
  }

  /** Little-endian numbers of two and four bytes. */
  function Little2(n: nat): (r: Bytes)
    requires n <= 0xFFFF
    ensures |r| == 2 && r[0] as int + 256 * r[1] as int == n
  {
    [n % 256, n / 256]
  }

  function Little4(n: nat): (r: Bytes)
    requires n <= 0xFFFFFFFF
    ensures |r| == 4 && r[0] as int + 256 * r[1] as int + 65536 * r[2] as int + 16777216 * r[3] as int == n
  {
    Little2(n % 65536) + Little2(n / 65536)
  }

  /** The bytes with those from a position on overwritten. */
  function Patch(img: Bytes, at: nat, bytes: Bytes): (r: Bytes)
    requires at + |bytes| <= |img|
    ensures |r| == |img|
  {
    img[..at] + bytes + img[at + |bytes|..]
  }

  lemma SliceOfPrefix<T>(s: seq<T>, n: nat, low: nat, high: nat)
    requires low <= high <= n <= |s|
    ensures s[..n][low..high] == s[low..high]
  {
    var a, b := s[..n][low..high], s[low..high];
    forall i | 0 <= i < high - low ensures a[i] == b[i] {
    }
  }

  lemma PatchOutside(img: Bytes, at: nat, bytes: Bytes, p: nat)
    requires at + |bytes| <= |img| && p < |img| && (p < at || at + |bytes| <= p)
    ensures Patch(img, at, bytes)[p] == img[p]
  {
  }

  lemma PatchKeeps(img: Bytes, at: nat, bytes: Bytes, low: nat, high: nat)
    requires at + |bytes| <= |img| && low <= high <= |img| && (high <= at || at + |bytes| <= low)
    ensures Patch(img, at, bytes)[low..high] == img[low..high]
  {
  }

  lemma PatchWrites(img: Bytes, at: nat, bytes: Bytes)
    requires at + |bytes| <= |img|
    ensures Patch(img, at, bytes)[at..at + |bytes|] == bytes
  {
  }

  /** A patched stretch is the patch and what follows it. */
  lemma PatchSlice(img: Bytes, at: nat, bytes: Bytes, size: nat)
    requires |bytes| <= size && at + size <= |img|
    ensures Patch(img, at, bytes)[at..at + size] == bytes + img[at..at + size][|bytes|..]
  {
    var r, s := Patch(img, at, bytes)[at..at + size], bytes + img[at..at + size][|bytes|..];
    assert |r| == |s|;
    forall i | 0 <= i < size ensures r[i] == s[i] {
    }
  }

  predicate IsLeast(m: nat, s: set<nat>) {
    m in s && forall x :: x in s ==> m <= x
  }

  /** The least element of a nonempty set of naturals. */
  function Least(s: set<nat>): (m: nat)
    requires s != {}
    ensures IsLeast(m, s)
  {
    LeastExists(s);
    var m :| IsLeast(m, s);
    m
  }

  lemma {:induction false} LeastExists(s: set<nat>)
    requires s != {}
    ensures exists m :: IsLeast(m, s)
  {
    var a :| a in s;
    if s == {a} {
      assert IsLeast(a, s);
    } else {
      LeastExists(s - {a});
      var m :| IsLeast(m, s - {a});
      var least := if a < m then a else m;
      forall x | x in s ensures least <= x {
        if x != a { assert x in s - {a}; }
      }
      assert IsLeast(least, s);
    }
  }

  /** The elements of a finite set of naturals in ascending order. */
  function Ascending(s: set<nat>): seq<nat> {
    if s == {} then [] else [Least(s)] + Ascending(s - {Least(s)})
  }

  lemma {:induction false} AscendingSorted(s: set<nat>)
    ensures forall x :: x in Ascending(s) <==> x in s
    ensures forall i, j :: 0 <= i < j < |Ascending(s)| ==> Ascending(s)[i] < Ascending(s)[j]
  {
    if s != {} {
      var m, rest := Least(s), Ascending(s - {Least(s)});
      AscendingSorted(s - {m});
      assert Ascending(s) == [m] + rest;
      assert forall i :: 0 <= i < |rest| ==> rest[i] in s - {m};
    }
  }

  /** The little-endian number in n bytes. */
  function Word(flight: Bytes, at: nat, n: nat): nat
    requires at + n <= |flight|
    decreases n
  {
    if n == 0 then 0 else flight[at] + 256 * Word(flight, at + 1, n - 1)
  }

  function Smaller(a: int, b: int): (r: int)
    ensures r <= a && r <= b && (r == a || r == b)
  {
    if a < b then a else b
  }
}
