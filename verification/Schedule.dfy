/** The cut schedule: which moment each round is cut at, and how long after. */
module Schedule {
  import opened Basics

  datatype Moment = Startup | Writes | AfterFlush | Idle | Clean

  const MOMENTS := [Startup, Writes, AfterFlush, Idle, Clean]

  // ---------- the generator

  function Xorshift(s: bv32): bv32 {
    var a := s ^ (s << 13);
    var b := a ^ (a >> 17);
    b ^ (b << 5)
  }

  lemma LeftIsZero(s: bv32)
    requires s ^ (s << 13) == 0
    ensures s == 0
  {
  }

  lemma RightIsZero(s: bv32)
    requires s ^ (s >> 17) == 0
    ensures s == 0
  {
  }

  lemma ShortIsZero(s: bv32)
    requires s ^ (s << 5) == 0
    ensures s == 0
  {
  }

  /** Only zero steps to zero. */
  lemma XorshiftIsZero(s: bv32)
    ensures Xorshift(s) == 0 <==> s == 0
  {
    if Xorshift(s) == 0 {
      var a := s ^ (s << 13);
      var b := a ^ (a >> 17);
      ShortIsZero(b);
      RightIsZero(a);
      LeftIsZero(s);
    }
  }

  /** Two steps written out, which fix the three shifts. */
  lemma XorshiftSteps()
    ensures Xorshift(1) == 270369 && Xorshift(0x8000_0000) == 0x8008_4000
  {
  }

  /** Only the low 32 bits of the seed and the index matter. */
  function StreamState(seed: int, index: int): (r: bv32)
    ensures r != 0
  {
    var state := ((seed % 0x1_0000_0000) as bv32) ^ ((index * 2654435761 % 0x1_0000_0000) as bv32) ^ 0x9E3779B9;
    if state != 0 then state else 1
  }

  class Random {
    var state: bv32

    constructor (s: bv32)
      ensures state == s
    {
      state := s;
    }

    method Next() returns (r: bv32)
      modifies this
      ensures r == state == Xorshift(old(state)) && (old(state) != 0 ==> state != 0)
    {
      XorshiftIsZero(state);
      state := Xorshift(state);
      r := state;
    }

    /** A number below the bound; a bound that is not positive gives zero and
        draws nothing. */
    method Below(bound: int) returns (r: nat)
      modifies this
      ensures bound > 0 ==> r < bound && state == Xorshift(old(state)) && r == state as int % bound
      ensures bound <= 0 ==> r == 0 && state == old(state)
      ensures old(state) != 0 ==> state != 0
    {
      if bound > 0 {
        var n := Next();
        r := n as int % bound;
      } else {
        r := 0;
      }
    }
  }

  // ---------- the order within a block

  function Swapped(order: seq<Moment>, i: nat, j: nat): (r: seq<Moment>)
    requires i < |order| && j < |order|
    ensures |r| == |order|
  {
    order[i := order[j]][j := order[i]]
  }

  /** The exchanges from position at down to one. */
  function Shuffled(s: bv32, order: seq<Moment>, at: nat): (r: seq<Moment>)
    requires at < |order|
    ensures |r| == |order|
    decreases at
  {
    if at == 0 then order else
      var next := Xorshift(s);
      Shuffled(next, Swapped(order, at, next as int % (at + 1)), at - 1)
  }

  lemma {:induction false} ShuffledIsPermutation(s: bv32, order: seq<Moment>, at: nat)
    requires at < |order|
    ensures multiset(Shuffled(s, order, at)) == multiset(order)
    decreases at
  {
    if at > 0 {
      var next := Xorshift(s);
      hide Xorshift;
      var swapped := Swapped(order, at, next as int % (at + 1));
      assert multiset(swapped) == multiset(order);
      ShuffledIsPermutation(next, swapped, at - 1);
    }
  }

  function Order(seed: int, block: nat): (r: seq<Moment>)
    ensures |r| == 5
  {
    Shuffled(StreamState(seed, 1000 + block), MOMENTS, 4)
  }

  lemma SwappedInPlace(a: seq<Moment>, b: seq<Moment>, i: nat, j: nat)
    requires i < |a| == |b| && j < |a| && b[i] == a[j] && b[j] == a[i]
    requires forall k :: 0 <= k < |a| && k != i && k != j ==> b[k] == a[k]
    ensures b == Swapped(a, i, j)
  {
  }

  method Permutation(seed: int, block: nat) returns (order: array<Moment>)
    ensures order[..] == Order(seed, block) && fresh(order)
  {
    var random := new Random(StreamState(seed, 1000 + block));
    order := new Moment[5][Startup, Writes, AfterFlush, Idle, Clean];
    assert order[..] == MOMENTS;
    ghost var goal := Order(seed, block);
    assert goal == Shuffled(random.state, order[..], 4);
    hide Order, Xorshift, Swapped;
    var at := 4;
    while at > 0
      invariant 0 <= at <= 4 && order.Length == 5
      invariant Shuffled(random.state, order[..], at) == goal
    {
      ghost var before := order[..];
      var other := random.Below(at + 1);
      order[at], order[other] := order[other], order[at];
      SwappedInPlace(before, order[..], at, other);
      at := at - 1;
    }
  }

  // ---------- the plan

  datatype Cut = Cut(round: nat, moment: Moment, jitter: nat)

  function Low(m: Moment): nat {
    match m
    case Startup => 300
    case Writes => 500
    case AfterFlush => 0
    case Idle => 1000
    case Clean => 0
  }

  function High(m: Moment): nat {
    match m
    case Startup => 3000
    case Writes => 5000
    case AfterFlush => 400
    case Idle => 6000
    case Clean => 0
  }

  function MomentOf(seed: int, i: nat, pinned: Option<Moment>): Moment {
    if pinned.Some? then pinned.value else Order(seed, i / 5)[i % 5]
  }

  /** How long after the phase line the cut of a round falls, within the moment's range. */
  function JitterOf(seed: int, round: nat, m: Moment): (r: nat)
    ensures Low(m) <= r <= High(m)
  {
    if High(m) <= Low(m) then Low(m) else
      Low(m) + Xorshift(StreamState(seed, round)) as int % (High(m) - Low(m) + 1)
  }

  /** One cut per round, numbered from one. */
  method Plan(seed: int, rounds: int, pinned: Option<Moment>) returns (plan: seq<Cut>)
    ensures |plan| == if rounds > 0 then rounds else 0
    ensures forall i :: 0 <= i < |plan| ==>
      plan[i] == Cut(i + 1, MomentOf(seed, i, pinned), JitterOf(seed, i + 1, MomentOf(seed, i, pinned)))
  {
    hide Order;
    plan := [];
    while |plan| < rounds
      invariant |plan| <= if rounds > 0 then rounds else 0
      invariant forall i :: 0 <= i < |plan| ==>
        plan[i] == Cut(i + 1, MomentOf(seed, i, pinned), JitterOf(seed, i + 1, MomentOf(seed, i, pinned)))
    {
      var i := |plan|;
      var moment;
      if pinned.Some? {
        moment := pinned.value;
      } else {
        var order := Permutation(seed, i / 5);
        moment := order[..][i % 5];
      }
      var jitter := DrawJitter(seed, i + 1, moment);
      plan := plan + [Cut(i + 1, moment, jitter)];
    }
  }

  method DrawJitter(seed: int, round: nat, moment: Moment) returns (jitter: nat)
    ensures jitter == JitterOf(seed, round, moment)
  {
    var random := new Random(StreamState(seed, round));
    jitter := Low(moment);
    if High(moment) > Low(moment) {
      var extra := random.Below(High(moment) - Low(moment) + 1);
      jitter := jitter + extra;
    }
  }

  /** The moments of an aligned block of five rounds. */
  function BlockMoments(seed: int, block: nat): seq<Moment> {
    seq(5, k requires 0 <= k < 5 => MomentOf(seed, 5 * block + k, None))
  }

  lemma OrderHasEachMoment(seed: int, block: nat)
    ensures multiset(Order(seed, block)) == multiset(MOMENTS)
  {
    hide Shuffled, StreamState;
    ShuffledIsPermutation(StreamState(seed, 1000 + block), MOMENTS, 4);
  }

  /** Without pinning, every aligned block carries each moment exactly once. */
  lemma BlockHasEachMoment(seed: int, block: nat, m: Moment)
    ensures multiset(BlockMoments(seed, block))[m] == 1
  {
    hide Order;
    var b := BlockMoments(seed, block);
    forall k | 0 <= k < 5 ensures b[k] == Order(seed, block)[k] {
      assert (5 * block + k) / 5 == block && (5 * block + k) % 5 == k;
      assert b[k] == MomentOf(seed, 5 * block + k, None);
    }
    assert BlockMoments(seed, block) == Order(seed, block);
    OrderHasEachMoment(seed, block);
  }
}
