/** Crash images from a log of block writes and flushes. */
module PowerCut {
  import opened Basics

  /** One record of the block trace: a whole-block write or a flush. */
  datatype BlockOp = BlockWrite(lba: nat, content: Bytes) | Flush

  const MAX_TAIL := 12
  const MAX_VARIANT := 4131

  function Tear(t: nat): (length: nat)
    requires t < 3
    ensures 0 < length < 4096
  {
    if t == 0 then 64 else if t == 1 then 2048 else 4064
  }

  /** Every write is one block inside the image. */
  predicate Fits(op: BlockOp, blocks: nat) {
    op.BlockWrite? ==> op.lba < blocks && |op.content| == 4096
  }

  predicate AllFit(ops: seq<BlockOp>, blocks: nat) {
    forall op :: op in ops ==> Fits(op, blocks)
  }

  // ---------- images

  function Block(img: Bytes, lba: nat): (b: Bytes)
    requires (lba + 1) * 4096 <= |img|
    ensures |b| == 4096
  {
    img[lba * 4096..(lba + 1) * 4096]
  }

  /** Apply the first `length` bytes of a write; a flush changes nothing. */
  function Apply(img: Bytes, op: BlockOp, length: nat): (r: Bytes)
    requires Fits(op, |img| / 4096) && length <= 4096
    ensures |r| == |img|
  {
    if op.Flush? then img else Patch(img, op.lba * 4096, op.content[..length])
  }

  function Replay(img: Bytes, ops: seq<BlockOp>): (r: Bytes)
    requires AllFit(ops, |img| / 4096)
    ensures |r| == |img|
  {
    if ops == [] then img else
      var n := |ops| - 1;
      assert ops[n] in ops;
      Apply(Replay(img, ops[..n]), ops[n], 4096)
  }

  /** Apply the writes whose binary digit of the variant is one. */
  function ReplaySubset(img: Bytes, tail: seq<BlockOp>, variant: nat): (r: Bytes)
    requires AllFit(tail, |img| / 4096)
    ensures |r| == |img|
  {
    if tail == [] then img else
      var n := |tail| - 1;
      assert tail[n] in tail;
      var before := ReplaySubset(img, tail[..n], variant);
      if Bit(variant, n) then Apply(before, tail[n], 4096) else before
  }

  /** Everything up to the last flush of the log is durable. */
  function Durable(ops: seq<BlockOp>): (n: nat)
    ensures n <= |ops|
    ensures n > 0 ==> ops[n - 1].Flush?
    ensures forall i :: n <= i < |ops| ==> ops[i].BlockWrite?
  {
    if ops == [] then 0 else if ops[|ops| - 1].Flush? then |ops| else Durable(ops[..|ops| - 1])
  }

  function Tail(ops: seq<BlockOp>, cut: nat): (tail: seq<BlockOp>)
    requires cut <= |ops|
    ensures forall op :: op in tail ==> op.BlockWrite? && op in ops
  {
    ops[Durable(ops[..cut])..cut]
  }

  function Variants(tail: nat): nat { Pow2(tail) + 3 * tail }

  function CutImage(base: Bytes, ops: seq<BlockOp>, cut: nat, variant: nat): (r: Bytes)
    requires AllFit(ops, |base| / 4096) && cut <= |ops| && variant < Variants(|Tail(ops, cut)|)
    ensures |r| == |base|
  {
    var durable := Replay(base, ops[..Durable(ops[..cut])]);
    var tail := Tail(ops, cut);
    if variant < Pow2(|tail|) then ReplaySubset(durable, tail, variant) else
      TornAt(durable, tail, (variant - Pow2(|tail|)) / 3, (variant - Pow2(|tail|)) % 3)
  }

  /** The writes before w, and then a part of w. */
  function TornAt(img: Bytes, tail: seq<BlockOp>, w: nat, t: nat): (r: Bytes)
    requires AllFit(tail, |img| / 4096) && w < |tail| && t < 3
    ensures |r| == |img|
  {
    assert tail[w] in tail;
    Apply(Replay(img, tail[..w]), tail[w], Tear(t))
  }

  // ---------- numbers of variants

  function Pow2(n: nat): (p: nat)
    ensures p >= 1
  {
    if n == 0 then 1 else 2 * Pow2(n - 1)
  }

  /** Binary digit i of v. */
  predicate Bit(v: nat, i: nat) {
    if i == 0 then v % 2 == 1 else Bit(v / 2, i - 1)
  }

  function Digits(v: nat, n: nat): (bits: seq<bool>)
    ensures |bits| == n && forall i :: 0 <= i < n ==> bits[i] == Bit(v, i)
  {
    if n == 0 then [] else [v % 2 == 1] + Digits(v / 2, n - 1)
  }

  function Number(bits: seq<bool>): nat {
    if bits == [] then 0 else (if bits[0] then 1 else 0) + 2 * Number(bits[1..])
  }

  /** Variants below 2^n and subsets of n writes correspond one to one. */
  lemma {:induction false} SubsetsDecode(v: nat, bits: seq<bool>)
    ensures v < Pow2(|bits|) ==> (Digits(v, |bits|) == bits <==> v == Number(bits))
    ensures Number(bits) < Pow2(|bits|)
    decreases |bits|
  {
    if bits != [] {
      SubsetsDecode(v / 2, bits[1..]);
      SubsetsDecode(Number(bits[1..]), bits[1..]);
      var d := Digits(v, |bits|);
      assert d == [v % 2 == 1] + Digits(v / 2, |bits| - 1);
      assert bits == [bits[0]] + bits[1..];
      assert d[1..] == Digits(v / 2, |bits| - 1);
    }
  }

  /** The other variants and the pairs of a write and a tear length correspond one to one. */
  lemma TearsDecode(n: nat, w: nat, t: nat, variant: nat)
    requires t < 3
    ensures Pow2(n) <= variant < Variants(n) && (variant - Pow2(n)) / 3 == w && (variant - Pow2(n)) % 3 == t
       <==> w < n && variant == Pow2(n) + 3 * w + t
  {
  }

  /** Tails within the model never need a variant above the admitted cap, and
      the longest tail reaches it. */
  lemma VariantCap(n: nat, variant: nat)
    requires n <= MAX_TAIL && variant < Variants(n)
    ensures variant <= MAX_VARIANT && Variants(MAX_TAIL) == MAX_VARIANT + 1
  {
    PowersOfTwo();
    Pow2Grows(n, MAX_TAIL);
  }

  lemma PowersOfTwo()
    ensures Pow2(12) == 4096
  {
    assert Pow2(4) == 16;
    assert Pow2(8) == 256;
  }

  lemma {:induction false} Pow2Grows(m: nat, n: nat)
    requires m <= n
    ensures Pow2(m) <= Pow2(n)
    decreases n - m
  {
    if m < n { Pow2Grows(m, n - 1); }
  }

  ghost predicate EveryBit(v: nat, n: nat) {
    forall i: nat :: i < n ==> Bit(v, i)
  }

  lemma {:induction false} AllOnes(n: nat)
    ensures EveryBit(Pow2(n) - 1, n)
  {
    if n > 0 {
      AllOnes(n - 1);
      var v: nat := Pow2(n) - 1;
      assert v / 2 == Pow2(n - 1) - 1;
      forall i: nat | i < n ensures Bit(v, i) {
        if i > 0 { assert Bit(v / 2, i - 1); }
      }
    }
  }

  // ---------- blocks of a crash image

  lemma BlockAfterApply(img: Bytes, op: BlockOp, length: nat, k: nat)
    requires Fits(op, |img| / 4096) && length <= 4096 && k < |img| / 4096
    ensures Block(Apply(img, op, length), k) ==
      if op.BlockWrite? && op.lba == k then op.content[..length] + Block(img, k)[length..] else Block(img, k)
  {
    hide Patch;
    if op.BlockWrite? && op.lba == k {
      PatchSlice(img, k * 4096, op.content[..length], 4096);
    } else if op.BlockWrite? {
      PatchKeeps(img, op.lba * 4096, op.content[..length], k * 4096, (k + 1) * 4096);
    }
  }

  /** Block content c is that of the image, or of some write of the list to block k. */
  predicate FromImageOrWrite(img: Bytes, ops: seq<BlockOp>, k: nat, c: Bytes)
    requires (k + 1) * 4096 <= |img|
  {
    c == Block(img, k) || exists op :: op in ops && op == BlockWrite(k, c)
  }

  lemma {:induction false} SubsetBlocks(img: Bytes, tail: seq<BlockOp>, variant: nat, k: nat)
    requires AllFit(tail, |img| / 4096) && k < |img| / 4096
    ensures FromImageOrWrite(img, tail, k, Block(ReplaySubset(img, tail, variant), k))
    ensures (forall op :: op in tail && op.BlockWrite? ==> op.lba != k) ==>
      Block(ReplaySubset(img, tail, variant), k) == Block(img, k)
  {
    if tail != [] {
      var n := |tail| - 1;
      assert tail[n] in tail && forall op :: op in tail[..n] ==> op in tail;
      SubsetBlocks(img, tail[..n], variant, k);
      var before := ReplaySubset(img, tail[..n], variant);
      BlockAfterApply(before, tail[n], 4096, k);
      if Bit(variant, n) && tail[n].BlockWrite? && tail[n].lba == k {
        assert Block(ReplaySubset(img, tail, variant), k) == tail[n].content;
        assert tail[n] == BlockWrite(k, tail[n].content);
      }
    }
  }

  lemma {:induction false} SubsetOfAll(img: Bytes, tail: seq<BlockOp>, variant: nat)
    requires AllFit(tail, |img| / 4096) && EveryBit(variant, |tail|)
    ensures ReplaySubset(img, tail, variant) == Replay(img, tail)
  {
    if tail != [] { SubsetOfAll(img, tail[..|tail| - 1], variant); }
  }

  lemma {:induction false} ReplayAppend(img: Bytes, a: seq<BlockOp>, b: seq<BlockOp>)
    requires AllFit(a, |img| / 4096) && AllFit(b, |img| / 4096)
    ensures AllFit(a + b, |img| / 4096) && Replay(img, a + b) == Replay(Replay(img, a), b)
  {
    if b == [] {
      assert a + b == a;
    } else {
      var n := |b| - 1;
      assert forall op :: op in b[..n] ==> op in b;
      ReplayAppend(img, a, b[..n]);
      assert (a + b)[..|a + b| - 1] == a + b[..n];
    }
  }

  /** The all-ones variant is the sequential replay of the log up to the cut. */
  lemma AllOnesIsReplay(base: Bytes, ops: seq<BlockOp>, cut: nat)
    requires AllFit(ops, |base| / 4096) && cut <= |ops|
    ensures Pow2(|Tail(ops, cut)|) - 1 < Variants(|Tail(ops, cut)|)
    ensures CutImage(base, ops, cut, Pow2(|Tail(ops, cut)|) - 1) == Replay(base, ops[..cut])
  {
    hide Replay, ReplaySubset, Durable, EveryBit, Pow2, CutImage, AllFit, Tail;
    var d, tail := Durable(ops[..cut]), Tail(ops, cut);
    Parts(base, ops, cut);
    var variant := Pow2(|tail|) - 1;
    SubsetVariant(base, ops, cut, variant);
    AllOnes(|tail|);
    SubsetOfAll(Replay(base, ops[..d]), tail, variant);
    ReplayAppend(base, ops[..d], tail);
  }

  /** The log up to the cut is its durable part and its tail. */
  lemma Parts(base: Bytes, ops: seq<BlockOp>, cut: nat)
    requires AllFit(ops, |base| / 4096) && cut <= |ops|
    ensures AllFit(ops[..Durable(ops[..cut])], |base| / 4096) && AllFit(Tail(ops, cut), |base| / 4096)
    ensures ops[..cut] == ops[..Durable(ops[..cut])] + Tail(ops, cut)
  {
    hide Durable;
  }

  lemma SubsetVariant(base: Bytes, ops: seq<BlockOp>, cut: nat, variant: nat)
    requires AllFit(ops, |base| / 4096) && cut <= |ops| && variant < Pow2(|Tail(ops, cut)|)
    requires AllFit(ops[..Durable(ops[..cut])], |base| / 4096) && AllFit(Tail(ops, cut), |base| / 4096)
    ensures CutImage(base, ops, cut, variant) ==
      ReplaySubset(Replay(base, ops[..Durable(ops[..cut])]), Tail(ops, cut), variant)
  {
    hide Replay, ReplaySubset, Durable, AllFit;
  }

  /** What a crash can leave in block k. */
  ghost predicate Possible(durable: Bytes, tail: seq<BlockOp>, k: nat, c: Bytes)
    requires (k + 1) * 4096 <= |durable|
  {
    || FromImageOrWrite(durable, tail, k, c)
    || exists w, t, prior ::
         && 0 <= w < |tail| && 0 <= t < 3 && tail[w].BlockWrite? && tail[w].lba == k && |tail[w].content| == 4096
         && |prior| == 4096
         && FromImageOrWrite(durable, tail[..w], k, prior) && c == Torn(tail[w].content, prior, t)
  }

  function Torn(content: Bytes, prior: Bytes, t: nat): Bytes
    requires t < 3 && |content| == 4096 && |prior| == 4096
  {
    content[..Tear(t)] + prior[Tear(t)..]
  }

  lemma {:induction false} ReplayBlocks(img: Bytes, tail: seq<BlockOp>, k: nat)
    requires AllFit(tail, |img| / 4096) && k < |img| / 4096
    ensures FromImageOrWrite(img, tail, k, Block(Replay(img, tail), k))
    ensures (forall op :: op in tail && op.BlockWrite? ==> op.lba != k) ==> Block(Replay(img, tail), k) == Block(img, k)
  {
    AllOnes(|tail|);
    SubsetOfAll(img, tail, Pow2(|tail|) - 1);
    SubsetBlocks(img, tail, Pow2(|tail|) - 1, k);
  }

  /** In every crash image a block that no tail write names has its durable
      content, and any other block has its durable content, a tail write, or the
      torn prefix of one over what was there before it. */
  lemma CrashBlocks(base: Bytes, ops: seq<BlockOp>, cut: nat, variant: nat, k: nat)
    requires AllFit(ops, |base| / 4096) && cut <= |ops| && variant < Variants(|Tail(ops, cut)|) && k < |base| / 4096
    ensures var durable := Replay(base, ops[..Durable(ops[..cut])]);
      var c := Block(CutImage(base, ops, cut, variant), k);
      && Possible(durable, Tail(ops, cut), k, c)
      && ((forall op :: op in Tail(ops, cut) ==> op.lba != k) ==> c == Block(durable, k))
  {
    var durable, tail := Replay(base, ops[..Durable(ops[..cut])]), Tail(ops, cut);
    if variant < Pow2(|tail|) {
      SubsetBlocks(durable, tail, variant, k);
    } else {
      var w, t := (variant - Pow2(|tail|)) / 3, (variant - Pow2(|tail|)) % 3;
      assert tail[w] in tail && forall op :: op in tail[..w] ==> op in tail;
      ReplayBlocks(durable, tail[..w], k);
      var before := Replay(durable, tail[..w]);
      BlockAfterApply(before, tail[w], Tear(t), k);
      if tail[w].lba == k {
        assert Block(CutImage(base, ops, cut, variant), k) == Torn(tail[w].content, Block(before, k), t);
      } else if Block(before, k) != Block(durable, k) {
        var op :| op in tail[..w] && op == BlockWrite(k, Block(before, k));
        assert op in tail;
      }
    }
  }

  // ---------- each block, exactly

  predicate Writes(op: BlockOp, k: nat) { op.BlockWrite? && op.lba == k }

  /** Binary digit i of the variant, by its weight. */
  predicate Weighs(variant: nat, i: nat) { variant / Pow2(i) % 2 == 1 }

  lemma {:induction false} BitWeighs(variant: nat, i: nat)
    ensures Bit(variant, i) <==> Weighs(variant, i)
  {
    if i > 0 {
      BitWeighs(variant / 2, i - 1);
      Halves(variant, Pow2(i - 1));
    }
  }

  lemma Halves(v: nat, p: nat)
    requires p > 0
    ensures v / 2 / p == v / (2 * p)
  {
    var q := v / 2 / p;
    assert q * p <= v / 2 < q * p + p;
    assert q * (2 * p) == 2 * (q * p);
    Quotient(v, 2 * p, q);
  }

  lemma Quotient(v: nat, d: nat, q: nat)
    requires d > 0 && q * d <= v < q * d + d
    ensures v / d == q
  {
    var e := v / d - q;
    assert e * d == v - v % d - q * d;
    assert (e >= 1 ==> e * d >= d) && (e <= -1 ==> e * d + d <= 0);
  }

  /** Record i is the last one that writes block k. */
  ghost predicate Last(ops: seq<BlockOp>, k: nat, i: nat) {
    i < |ops| && Writes(ops[i], k) && forall j :: i < j < |ops| ==> !Writes(ops[j], k)
  }

  ghost predicate Unwritten(ops: seq<BlockOp>, k: nat) { forall j :: 0 <= j < |ops| ==> !Writes(ops[j], k) }

  /** c is what block k holds after the records: its last write, or what it was. */
  ghost predicate After(img: Bytes, ops: seq<BlockOp>, k: nat, c: Bytes)
    requires k < |img| / 4096
  {
    && (Unwritten(ops, k) ==> c == Block(img, k))
    && (forall i: nat :: Last(ops, k, i) ==> c == ops[i].content)
  }

  lemma AfterOne(img: Bytes, ops: seq<BlockOp>, k: nat, c: Bytes)
    requires k < |img| / 4096 && ops != [] && var n := |ops| - 1;
      if Writes(ops[n], k) then c == ops[n].content else After(img, ops[..n], k, c)
    ensures After(img, ops, k, c)
  {
    hide Block;
    var n := |ops| - 1;
    if Unwritten(ops, k) { assert !Writes(ops[n], k) && Unwritten(ops[..n], k); }
    forall i: nat | Last(ops, k, i) ensures c == ops[i].content {
      if i < n { assert !Writes(ops[n], k) && Last(ops[..n], k, i); }
    }
  }

  lemma {:induction false} ReplayExactly(img: Bytes, ops: seq<BlockOp>, k: nat)
    requires AllFit(ops, |img| / 4096) && k < |img| / 4096
    ensures After(img, ops, k, Block(Replay(img, ops), k))
  {
    hide Block, Apply, After, Writes;
    if ops == [] {
      AfterNone(img, k);
    } else {
      var n := |ops| - 1;
      assert ops[n] in ops && forall op :: op in ops[..n] ==> op in ops;
      ReplayExactly(img, ops[..n], k);
      WriteOfBlock(Replay(img, ops[..n]), ops[n], k);
      AfterOne(img, ops, k, Block(Replay(img, ops), k));
    }
  }

  lemma AfterNone(img: Bytes, k: nat)
    requires k < |img| / 4096
    ensures After(img, [], k, Block(img, k))
  {
  }

  lemma WriteOfBlock(img: Bytes, op: BlockOp, k: nat)
    requires Fits(op, |img| / 4096) && k < |img| / 4096
    ensures Block(Apply(img, op, 4096), k) == if Writes(op, k) then op.content else Block(img, k)
  {
    hide Apply;
    BlockAfterApply(img, op, 4096, k);
  }

  /** Write i is the last one to block k whose digit in the variant is one. */
  ghost predicate LastChosen(tail: seq<BlockOp>, variant: nat, k: nat, i: nat) {
    && i < |tail| && Chosen(tail, variant, k, i)
    && forall j: nat :: i < j < |tail| ==> !Chosen(tail, variant, k, j)
  }

  predicate Chosen(tail: seq<BlockOp>, variant: nat, k: nat, i: nat)
    requires i < |tail|
  {
    Writes(tail[i], k) && Weighs(variant, i)
  }

  ghost predicate Unchosen(tail: seq<BlockOp>, variant: nat, k: nat) {
    forall j: nat :: j < |tail| ==> !Chosen(tail, variant, k, j)
  }

  /** c is what block k holds after the chosen writes. */
  ghost predicate AfterChosen(img: Bytes, tail: seq<BlockOp>, variant: nat, k: nat, c: Bytes)
    requires k < |img| / 4096
  {
    && (Unchosen(tail, variant, k) ==> c == Block(img, k))
    && (forall i: nat :: LastChosen(tail, variant, k, i) ==> c == tail[i].content)
  }

  lemma ChosenOne(img: Bytes, tail: seq<BlockOp>, variant: nat, k: nat, c: Bytes)
    requires k < |img| / 4096 && tail != [] && var n := |tail| - 1;
      if Chosen(tail, variant, k, n) then c == tail[n].content else AfterChosen(img, tail[..n], variant, k, c)
    ensures AfterChosen(img, tail, variant, k, c)
  {
    hide Block, Weighs;
    var n := |tail| - 1;
    assert forall j: nat :: j < n ==> Chosen(tail[..n], variant, k, j) == Chosen(tail, variant, k, j);
    if Unchosen(tail, variant, k) { assert !Chosen(tail, variant, k, n) && Unchosen(tail[..n], variant, k); }
    forall i: nat | LastChosen(tail, variant, k, i) ensures c == tail[i].content {
      if i < n { assert !Chosen(tail, variant, k, n) && LastChosen(tail[..n], variant, k, i); }
    }
  }

  /** After a subset variant a block is its last chosen write, or what it was. */
  lemma {:induction false} SubsetExactly(img: Bytes, tail: seq<BlockOp>, variant: nat, k: nat)
    requires AllFit(tail, |img| / 4096) && k < |img| / 4096
    ensures AfterChosen(img, tail, variant, k, Block(ReplaySubset(img, tail, variant), k))
  {
    hide Block, Apply, Bit, Weighs, AfterChosen, Writes;
    if tail == [] {
      ChosenNone(img, variant, k);
    } else {
      var n := |tail| - 1;
      assert tail[n] in tail && forall op :: op in tail[..n] ==> op in tail;
      SubsetExactly(img, tail[..n], variant, k);
      BitWeighs(variant, n);
      WriteOfBlock(ReplaySubset(img, tail[..n], variant), tail[n], k);
      ChosenOne(img, tail, variant, k, Block(ReplaySubset(img, tail, variant), k));
    }
  }

  lemma ChosenNone(img: Bytes, variant: nat, k: nat)
    requires k < |img| / 4096
    ensures AfterChosen(img, [], variant, k, Block(img, k))
  {
  }

  /** A crash image of a subset variant: a block is its last chosen tail write, and
      without one what the durable records left there. */
  lemma SubsetImage(base: Bytes, ops: seq<BlockOp>, cut: nat, variant: nat, k: nat) returns (durable: Bytes)
    requires AllFit(ops, |base| / 4096) && cut <= |ops| && k < |base| / 4096
    requires variant < Pow2(|Tail(ops, cut)|)
    ensures |durable| == |base| && After(base, ops[..Durable(ops[..cut])], k, Block(durable, k))
    ensures AfterChosen(durable, Tail(ops, cut), variant, k, Block(CutImage(base, ops, cut, variant), k))
  {
    hide Block, ReplaySubset, Durable, Pow2, CutImage, AllFit, Tail, After, AfterChosen;
    Parts(base, ops, cut);
    SubsetVariant(base, ops, cut, variant);
    durable := Replay(base, ops[..Durable(ops[..cut])]);
    SubsetExactly(durable, Tail(ops, cut), variant, k);
    ReplayExactly(base, ops[..Durable(ops[..cut])], k);
  }

  /** A crash image of a tear: the torn block is the first 64, 2048 or 4064 bytes of the
      write over what all records before it left there; every other block is just that. */
  lemma TornImage(base: Bytes, ops: seq<BlockOp>, cut: nat, w: nat, t: nat, k: nat) returns (prior: Bytes)
    requires AllFit(ops, |base| / 4096) && cut <= |ops| && k < |base| / 4096
    requires w < |Tail(ops, cut)| && t < 3
    ensures |prior| == 4096 && After(base, ops[..Durable(ops[..cut]) + w], k, prior)
    ensures var write, variant := ops[Durable(ops[..cut]) + w], Pow2(|Tail(ops, cut)|) + 3 * w + t;
      var length := if t == 0 then 64 else if t == 1 then 2048 else 4064;
      && variant < Variants(|Tail(ops, cut)|) && |write.content| == 4096
      && Block(CutImage(base, ops, cut, variant), k) ==
         if write.lba == k then write.content[..length] + prior[length..] else prior
  {
    var at := Durable(ops[..cut]) + w;
    hide Block, Replay, Durable, Pow2, CutImage, AllFit, After, Apply;
    TornParts(base, ops, cut, w, t);
    prior := Block(Replay(base, ops[..at]), k);
    ReplayExactly(base, ops[..at], k);
    BlockAfterApply(Replay(base, ops[..at]), ops[at], Tear(t), k);
  }

  lemma TornParts(base: Bytes, ops: seq<BlockOp>, cut: nat, w: nat, t: nat)
    requires AllFit(ops, |base| / 4096) && cut <= |ops| && w < |Tail(ops, cut)| && t < 3
    ensures var at, variant := Durable(ops[..cut]) + w, Pow2(|Tail(ops, cut)|) + 3 * w + t;
      && variant < Variants(|Tail(ops, cut)|)
      && AllFit(ops[..at], |base| / 4096) && ops[at].BlockWrite? && Fits(ops[at], |base| / 4096)
      && CutImage(base, ops, cut, variant) == Apply(Replay(base, ops[..at]), ops[at], Tear(t))
  {
    hide Replay, Durable, Pow2, Apply, CutImage;
    var d, tail := Durable(ops[..cut]), Tail(ops, cut);
    TailSplits(ops, cut, w);
    TornVariant(base, ops, cut, w, t);
    ReplayAppend(base, ops[..d], tail[..w]);
  }

  lemma TailSplits(ops: seq<BlockOp>, cut: nat, w: nat)
    requires cut <= |ops| && w < |Tail(ops, cut)|
    ensures var d, tail := Durable(ops[..cut]), Tail(ops, cut);
      d + w < |ops| && tail[w] == ops[d + w] && tail[w] in tail && ops[..d + w] == ops[..d] + tail[..w]
  {
    hide Durable;
  }

  lemma TornVariant(base: Bytes, ops: seq<BlockOp>, cut: nat, w: nat, t: nat)
    requires AllFit(ops, |base| / 4096) && cut <= |ops| && w < |Tail(ops, cut)| && t < 3
    ensures var d, tail := Durable(ops[..cut]), Tail(ops, cut);
      var variant := Pow2(|tail|) + 3 * w + t;
      && variant < Variants(|tail|)
      && CutImage(base, ops, cut, variant) == TornAt(Replay(base, ops[..d]), tail, w, t)
  {
    hide Replay, Durable, Pow2, Tail, TornAt, CutImage;
    var variant := Pow2(|Tail(ops, cut)|) + 3 * w + t;
    TearsDecode(|Tail(ops, cut)|, w, t, variant);
    CutTears(base, ops, cut, variant, w, t);
  }

  lemma CutTears(base: Bytes, ops: seq<BlockOp>, cut: nat, variant: nat, w: nat, t: nat)
    requires AllFit(ops, |base| / 4096) && cut <= |ops| && variant < Variants(|Tail(ops, cut)|) && t < 3
    requires var p := Pow2(|Tail(ops, cut)|); p <= variant && (variant - p) / 3 == w && (variant - p) % 3 == t
    requires w < |Tail(ops, cut)|
    ensures CutImage(base, ops, cut, variant) == TornAt(Replay(base, ops[..Durable(ops[..cut])]), Tail(ops, cut), w, t)
  {
    hide Replay, ReplaySubset, Durable, Pow2, Tail, TornAt;
  }

  // ---------- the image built in place

  method ApplyAt(img: array<Byte>, op: BlockOp, length: nat)
    requires Fits(op, img.Length / 4096) && length <= 4096
    modifies img
    ensures img[..] == Apply(old(img[..]), op, length)
  {
    if op.BlockWrite? {
      var at := op.lba * 4096;
      forall i | 0 <= i < length { img[at + i] := op.content[i]; }
    }
  }

  method ReplayAt(img: array<Byte>, ops: seq<BlockOp>)
    requires AllFit(ops, img.Length / 4096)
    modifies img
    ensures img[..] == Replay(old(img[..]), ops)
  {
    var i := 0;
    while i < |ops|
      invariant i <= |ops| && img[..] == Replay(old(img[..]), ops[..i])
    {
      assert ops[..i + 1][..i] == ops[..i] && ops[i] in ops;
      ApplyAt(img, ops[i], 4096);
      i := i + 1;
    }
    assert ops[..i] == ops;
  }

  method ReplaySubsetAt(img: array<Byte>, tail: seq<BlockOp>, variant: nat)
    requires AllFit(tail, img.Length / 4096)
    modifies img
    ensures img[..] == ReplaySubset(old(img[..]), tail, variant)
  {
    var i := 0;
    while i < |tail|
      invariant i <= |tail| && img[..] == ReplaySubset(old(img[..]), tail[..i], variant)
    {
      assert tail[..i + 1][..i] == tail[..i] && tail[i] in tail;
      if Bit(variant, i) { ApplyAt(img, tail[i], 4096); }
      i := i + 1;
    }
    assert tail[..i] == tail;
  }

  method LastFlush(ops: seq<BlockOp>) returns (durable: nat)
    ensures durable == Durable(ops)
  {
    durable := 0;
    var i := 0;
    while i < |ops|
      invariant i <= |ops| && durable == Durable(ops[..i])
    {
      assert ops[..i + 1][..i] == ops[..i];
      if ops[i].Flush? { durable := i + 1; }
      i := i + 1;
    }
    assert ops[..i] == ops;
  }

  method CutAt(img: array<Byte>, ops: seq<BlockOp>, cut: nat, variant: nat)
    requires AllFit(ops, img.Length / 4096) && cut <= |ops| && variant < Variants(|Tail(ops, cut)|)
    modifies img
    ensures img[..] == CutImage(old(img[..]), ops, cut, variant)
  {
    var durable := LastFlush(ops[..cut]);
    var tail := ops[durable..cut];
    assert forall op :: op in tail || op in ops[..durable] ==> op in ops;
    var subsets := Pow2(|tail|);
    ReplayAt(img, ops[..durable]);
    if variant < subsets {
      ReplaySubsetAt(img, tail, variant);
    } else {
      var selected, tear := (variant - subsets) / 3, (variant - subsets) % 3;
      assert tail[selected] in tail;
      ReplayAt(img, tail[..selected]);
      ApplyAt(img, tail[selected], Tear(tear));
    }
  }

  /** Where the power is cut: so many records into an operation's events. */
  datatype Cut = Cut(operation: nat, offset: nat, variant: nat)

  datatype Selection = Selection(tailWrites: nat, variant: nat, subset: bool)

  /** The cut point, when the trace has one for this fault. */
  function CutPoint(ops: seq<BlockOp>, ranges: seq<(nat, nat)>, fault: Cut): (cut: Option<nat>)
    requires forall r :: r in ranges ==> r.1 <= |ops|
    ensures cut.Some? ==> cut.value <= |ops|
  {
    if fault.operation >= |ranges| then None else
      assert ranges[fault.operation] in ranges;
      var cut := ranges[fault.operation].0 + fault.offset;
      if cut > ranges[fault.operation].1 then None else Some(cut)
  }

  method CutTrace(base: Bytes, ops: seq<BlockOp>, ranges: seq<(nat, nat)>, fault: Cut)
    returns (selection: Option<Selection>, img: array<Byte>)
    requires AllFit(ops, |base| / 4096) && forall r :: r in ranges ==> r.1 <= |ops|
    ensures var cut := CutPoint(ops, ranges, fault);
      && (selection.Some? <==>
          cut.Some? && |Tail(ops, cut.value)| <= MAX_TAIL && fault.variant < Variants(|Tail(ops, cut.value)|))
      && (selection.Some? ==>
          && img[..] == CutImage(base, ops, cut.value, fault.variant)
          && selection.value.tailWrites == |Tail(ops, cut.value)|
          && selection.value.variant == fault.variant
          && (selection.value.subset <==> fault.variant < Pow2(|Tail(ops, cut.value)|)))
  {
    img := new Byte[|base|](i requires 0 <= i < |base| => base[i]);
    assert img[..] == base;
    selection := None;
    var point := CutPoint(ops, ranges, fault);
    if point.None? { return; }
    var cut := point.value;
    var durable := LastFlush(ops[..cut]);
    var tail := ops[durable..cut];
    var subsets := Pow2(|tail|);
    if |tail| > MAX_TAIL || fault.variant >= subsets + |tail| * 3 { return; }
    selection := Some(Selection(|tail|, fault.variant, fault.variant < subsets));
    CutAt(img, ops, cut, fault.variant);
  }
}
