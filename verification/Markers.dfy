/** Verdicts on the markers that survive each cut. */
module Markers {
  import opened Basics

  datatype Verdict = Absent | Empty | Whole | Torn

  function Classify(found: Option<Bytes>, expected: Bytes): Verdict {
    if found.None? then Absent
    else if found.value == [] then Empty
    else if found.value == expected then Whole
    else Torn
  }

  datatype Complaint =
    | BootFailed(round: int)
    | NotClean(round: int)
    | Pending(round: int)
    | FlushedTorn(round: int, marker: int)
    | FlushedLost(round: int, marker: int)
    | SoftTorn(round: int, marker: int)
    | SoftLost(round: int, marker: int)
    | PreferenceTorn(round: int)

  /** One round's arguments: what was claimed before the cut, how the boot went,
      what each marker file holds and what it should hold. */
  datatype Round = Round(round: int, claimedFlush: bool, claimedSoft: bool, bootOk: bool, clean: bool, pending: int,
                         preferenceTorn: bool, expected: int -> Bytes, flushed: int -> Option<Bytes>,
                         soft: int -> Option<Bytes>)

  datatype Tally = Tally(kept: nat, lost: nat, torn: nat, softAbsent: nat)

  /** Claims of flushed and of soft markers, soft markers seen whole, complaints
      and the counts of each round. */
  datatype State = State(
    flushClaimed: seq<int>, softClaimed: seq<int>, softDurable: seq<int>, violations: seq<Complaint>,
    rounds: seq<Tally>)

  const START := State([], [], [], [], [])

  function FlushVerdict(r: Round, m: int): Verdict { Classify(r.flushed(m), r.expected(m)) }

  function SoftVerdict(r: Round, m: int): Verdict { Classify(r.soft(m), r.expected(m)) }

  // ---------- one round

  function Claim(claims: seq<int>, round: int, claimed: bool): seq<int> {
    if claimed && round !in claims then claims + [round] else claims
  }

  function Opening(r: Round): seq<Complaint> {
    (if r.bootOk then [] else [BootFailed(r.round)])
    + (if r.clean then [] else [NotClean(r.round)])
    + (if r.pending == 0 then [] else [Pending(r.round)])
  }

  /** Counts, complaints and durable soft markers while the claims are judged. */
  datatype Judged = Judged(tally: Tally, complaints: seq<Complaint>, durable: seq<int>)

  function JudgeFlush(r: Round, j: Judged, m: int): Judged {
    var t, what := j.tally, FlushVerdict(r, m);
    if what.Whole? then j.(tally := t.(kept := t.kept + 1))
    else if what.Torn? then j.(tally := t.(torn := t.torn + 1), complaints := j.complaints + [FlushedTorn(r.round, m)])
    else j.(tally := t.(lost := t.lost + 1), complaints := j.complaints + [FlushedLost(r.round, m)])
  }

  function JudgeSoft(r: Round, j: Judged, m: int): Judged {
    var t, what := j.tally, SoftVerdict(r, m);
    if what.Whole? then
      j.(tally := t.(kept := t.kept + 1), durable := if m in j.durable then j.durable else j.durable + [m])
    else if what.Torn? then j.(tally := t.(torn := t.torn + 1), complaints := j.complaints + [SoftTorn(r.round, m)])
    else if m in j.durable then j.(tally := t.(lost := t.lost + 1), complaints := j.complaints + [SoftLost(r.round, m)])
    else j.(tally := t.(softAbsent := t.softAbsent + 1))
  }

  function JudgeFlushes(r: Round, j: Judged, claims: seq<int>): Judged {
    if claims == [] then j else JudgeFlush(r, JudgeFlushes(r, j, claims[..|claims| - 1]), claims[|claims| - 1])
  }

  function JudgeSofts(r: Round, j: Judged, claims: seq<int>): Judged {
    if claims == [] then j else JudgeSoft(r, JudgeSofts(r, j, claims[..|claims| - 1]), claims[|claims| - 1])
  }

  function Placed(claims: seq<int>, m: int): (r: seq<int>)
    ensures |r| == |claims| + 1 && multiset(r) == multiset(claims) + multiset{m}
  {
    if claims == [] || m <= claims[0] then [m] + claims
    else
      assert claims == [claims[0]] + claims[1..];
      [claims[0]] + Placed(claims[1..], m)
  }

  /** Claims are judged in ascending order. */
  function Sorted(claims: seq<int>): (r: seq<int>)
    ensures |r| == |claims| && multiset(r) == multiset(claims)
  {
    if claims == [] then [] else
      assert claims == [claims[0]] + claims[1..];
      Placed(Sorted(claims[1..]), claims[0])
  }

  predicate Ascends(claims: seq<int>) { forall i, j :: 0 <= i < j < |claims| ==> claims[i] <= claims[j] }

  lemma {:induction false} PlacedAscends(claims: seq<int>, m: int)
    requires Ascends(claims)
    ensures Ascends(Placed(claims, m)) && forall x :: x in Placed(claims, m) <==> x == m || x in claims
  {
    if claims != [] && m > claims[0] {
      PlacedAscends(claims[1..], m);
      assert claims == [claims[0]] + claims[1..];
      var rest := Placed(claims[1..], m);
      assert forall i :: 0 <= i < |rest| ==> rest[i] in rest;
    }
  }

  /** The sorted claims are the claims, in ascending order. */
  lemma {:induction false} SortedAscends(claims: seq<int>)
    ensures Ascends(Sorted(claims)) && forall x :: x in Sorted(claims) <==> x in claims
  {
    if claims != [] {
      SortedAscends(claims[1..]);
      PlacedAscends(Sorted(claims[1..]), claims[0]);
      assert claims == [claims[0]] + claims[1..];
    }
  }

  function JudgeRound(s: State, r: Round): Judged {
    var start := Judged(Tally(0, 0, 0, 0), Opening(r), s.softDurable);
    var flushes, softs := Claim(s.flushClaimed, r.round, r.claimedFlush), Claim(s.softClaimed, r.round, r.claimedSoft);
    JudgeSofts(r, JudgeFlushes(r, start, Sorted(flushes)), Sorted(softs))
  }

  function Step(s: State, r: Round): State {
    var j := JudgeRound(s, r);
    State(Claim(s.flushClaimed, r.round, r.claimedFlush), Claim(s.softClaimed, r.round, r.claimedSoft), j.durable,
          s.violations + j.complaints + (if r.preferenceTorn then [PreferenceTorn(r.round)] else []),
          s.rounds + [j.tally])
  }

  function Run(rounds: seq<Round>): State {
    if rounds == [] then START else Step(Run(rounds[..|rounds| - 1]), rounds[|rounds| - 1])
  }

  // ---------- what one round establishes

  function Total(t: Tally): nat { t.kept + t.lost + t.torn + t.softAbsent }

  lemma {:induction false} FlushesCounted(r: Round, j: Judged, claims: seq<int>)
    ensures Total(JudgeFlushes(r, j, claims).tally) == Total(j.tally) + |claims|
    ensures JudgeFlushes(r, j, claims).durable == j.durable && j.complaints <= JudgeFlushes(r, j, claims).complaints
  {
    if claims != [] { FlushesCounted(r, j, claims[..|claims| - 1]); }
  }

  lemma {:induction false} SoftsCounted(r: Round, j: Judged, claims: seq<int>)
    ensures Total(JudgeSofts(r, j, claims).tally) == Total(j.tally) + |claims|
    ensures j.complaints <= JudgeSofts(r, j, claims).complaints
    ensures forall m :: m in j.durable ==> m in JudgeSofts(r, j, claims).durable
  {
    if claims != [] { SoftsCounted(r, j, claims[..|claims| - 1]); }
  }

  /** Every claimed marker is counted once. */
  lemma RoundIsCounted(s: State, r: Round)
    ensures var t := Step(s, r);
      |t.rounds| == |s.rounds| + 1 && Total(t.rounds[|s.rounds|]) == |t.flushClaimed| + |t.softClaimed|
  {
    hide JudgeFlush, JudgeSoft, JudgeFlushes, JudgeSofts, Sorted;
    var start := Judged(Tally(0, 0, 0, 0), Opening(r), s.softDurable);
    var flushes, softs := Claim(s.flushClaimed, r.round, r.claimedFlush), Claim(s.softClaimed, r.round, r.claimedSoft);
    FlushesCounted(r, start, Sorted(flushes));
    SoftsCounted(r, JudgeFlushes(r, start, Sorted(flushes)), Sorted(softs));
  }

  lemma {:induction false} FlushesAreWhole(r: Round, j: Judged, claims: seq<int>, m: int)
    requires JudgeFlushes(r, j, claims).complaints == [] && m in claims
    ensures FlushVerdict(r, m).Whole?
  {
    var n := |claims| - 1;
    var before := JudgeFlushes(r, j, claims[..n]);
    if claims[n] != m { FlushesAreWhole(r, j, claims[..n], m); }
  }

  /** A soft marker is never torn; one seen whole before is whole, and one that
      is whole now is remembered. */
  lemma {:induction false} SoftsAreSound(r: Round, j: Judged, claims: seq<int>, m: int)
    requires JudgeSofts(r, j, claims).complaints == [] && m in claims
    ensures !SoftVerdict(r, m).Torn? && (m in j.durable ==> SoftVerdict(r, m).Whole?)
    ensures SoftVerdict(r, m).Whole? ==> m in JudgeSofts(r, j, claims).durable
  {
    var n := |claims| - 1;
    SoftsCounted(r, j, claims[..n]);
    if claims[n] != m { SoftsAreSound(r, j, claims[..n], m); }
  }

  lemma RoundIsSound(s: State, r: Round, m: int)
    requires Step(s, r).violations == []
    ensures m in Step(s, r).flushClaimed ==> FlushVerdict(r, m).Whole?
    ensures m in Step(s, r).softClaimed ==>
      !SoftVerdict(r, m).Torn? && (m in s.softDurable ==> SoftVerdict(r, m).Whole?)
    ensures m in Step(s, r).softClaimed && SoftVerdict(r, m).Whole? ==> m in Step(s, r).softDurable
  {
    hide JudgeFlush, JudgeSoft, JudgeFlushes, JudgeSofts, Sorted, FlushVerdict, SoftVerdict;
    var start := Judged(Tally(0, 0, 0, 0), Opening(r), s.softDurable);
    var flushes, softs := Claim(s.flushClaimed, r.round, r.claimedFlush), Claim(s.softClaimed, r.round, r.claimedSoft);
    var middle := JudgeFlushes(r, start, Sorted(flushes));
    SortedAscends(flushes);
    SortedAscends(softs);
    FlushesCounted(r, start, Sorted(flushes));
    SoftsCounted(r, middle, Sorted(softs));
    if m in flushes { FlushesAreWhole(r, start, Sorted(flushes), m); }
    if m in softs { SoftsAreSound(r, middle, Sorted(softs), m); }
  }

  // ---------- what the counts count

  /** How many claims satisfy a condition. */
  function Counting(claims: seq<int>, p: int -> bool): nat {
    if claims == [] then 0 else Counting(claims[..|claims| - 1], p) + if p(claims[|claims| - 1]) then 1 else 0
  }

  /** Absent or empty. */
  predicate Gone(v: Verdict) { v.Absent? || v.Empty? }

  /** A flushed marker is kept when whole, torn when torn, and lost otherwise. */
  lemma {:induction false} FlushesTally(r: Round, j: Judged, claims: seq<int>)
    ensures var t := JudgeFlushes(r, j, claims).tally;
      && t.kept == j.tally.kept + Counting(claims, m => FlushVerdict(r, m).Whole?)
      && t.torn == j.tally.torn + Counting(claims, m => FlushVerdict(r, m).Torn?)
      && t.lost == j.tally.lost + Counting(claims, m => Gone(FlushVerdict(r, m)))
      && t.softAbsent == j.tally.softAbsent
  {
    if claims != [] { FlushesTally(r, j, claims[..|claims| - 1]); }
  }

  /** A soft marker is kept when whole and torn when torn; one that is gone is lost when
      an earlier round saw it whole. */
  lemma {:induction false} SoftsTally(r: Round, j: Judged, claims: seq<int>)
    ensures var k := JudgeSofts(r, j, claims);
      && k.tally.kept == j.tally.kept + Counting(claims, m => SoftVerdict(r, m).Whole?)
      && k.tally.torn == j.tally.torn + Counting(claims, m => SoftVerdict(r, m).Torn?)
      && k.tally.lost == j.tally.lost + Counting(claims, m => Gone(SoftVerdict(r, m)) && m in j.durable)
      && k.tally.softAbsent == j.tally.softAbsent + Counting(claims, m => Gone(SoftVerdict(r, m)) && m !in j.durable)
      && forall m :: m in k.durable <==> m in j.durable || (m in claims && SoftVerdict(r, m).Whole?)
  {
    if claims != [] {
      var n := |claims| - 1;
      SoftsTally(r, j, claims[..n]);
      assert claims == claims[..n] + [claims[n]];
    }
  }

  /** What a round complains of, complaint by complaint. */
  predicate Deserved(s: State, r: Round, x: Complaint) {
    var flushes, softs := Claim(s.flushClaimed, r.round, r.claimedFlush), Claim(s.softClaimed, r.round, r.claimedSoft);
    && x.round == r.round
    && match x
       case BootFailed(_) => !r.bootOk
       case NotClean(_) => !r.clean
       case Pending(_) => r.pending != 0
       case FlushedTorn(_, m) => m in flushes && FlushVerdict(r, m).Torn?
       case FlushedLost(_, m) => m in flushes && Gone(FlushVerdict(r, m))
       case SoftTorn(_, m) => m in softs && SoftVerdict(r, m).Torn?
       case SoftLost(_, m) => m in softs && Gone(SoftVerdict(r, m)) && m in s.softDurable
       case PreferenceTorn(_) => r.preferenceTorn
  }

  lemma {:induction false} FlushesComplain(r: Round, j: Judged, claims: seq<int>, x: Complaint)
    ensures x in JudgeFlushes(r, j, claims).complaints <==>
      x in j.complaints
      || (x.FlushedTorn? && x.round == r.round && x.marker in claims && FlushVerdict(r, x.marker).Torn?)
      || (x.FlushedLost? && x.round == r.round && x.marker in claims && Gone(FlushVerdict(r, x.marker)))
  {
    if claims != [] {
      var n := |claims| - 1;
      FlushesComplain(r, j, claims[..n], x);
      assert claims == claims[..n] + [claims[n]];
    }
  }

  lemma {:induction false} SoftsComplain(r: Round, j: Judged, claims: seq<int>, x: Complaint)
    ensures x in JudgeSofts(r, j, claims).complaints <==>
      x in j.complaints
      || (x.SoftTorn? && x.round == r.round && x.marker in claims && SoftVerdict(r, x.marker).Torn?)
      || (&& x.SoftLost? && x.round == r.round && x.marker in claims
          && Gone(SoftVerdict(r, x.marker)) && x.marker in j.durable)
  {
    if claims != [] {
      var n := |claims| - 1;
      SoftsComplain(r, j, claims[..n], x);
      SoftsTally(r, j, claims[..n]);
      assert claims == claims[..n] + [claims[n]];
    }
  }

  /** A round adds exactly the complaints it deserves. */
  lemma RoundComplains(s: State, r: Round, x: Complaint)
    ensures s.violations <= Step(s, r).violations
    ensures x in Step(s, r).violations[|s.violations|..] <==> Deserved(s, r, x)
  {
    hide JudgeFlushes, JudgeSofts, Sorted, FlushVerdict, SoftVerdict, Gone;
    var start := Judged(Tally(0, 0, 0, 0), Opening(r), s.softDurable);
    var flushes, softs := Claim(s.flushClaimed, r.round, r.claimedFlush), Claim(s.softClaimed, r.round, r.claimedSoft);
    SortedAscends(flushes);
    SortedAscends(softs);
    FlushesCounted(r, start, Sorted(flushes));
    FlushesComplain(r, start, Sorted(flushes), x);
    SoftsComplain(r, JudgeFlushes(r, start, Sorted(flushes)), Sorted(softs), x);
    var j := JudgeRound(s, r);
    var added := j.complaints + if r.preferenceTorn then [PreferenceTorn(r.round)] else [];
    assert Step(s, r).violations == s.violations + added;
    assert Step(s, r).violations[|s.violations|..] == added;
  }

  lemma {:induction false} CountingPlaced(claims: seq<int>, m: int, p: int -> bool)
    ensures Counting(Placed(claims, m), p) == Counting(claims, p) + if p(m) then 1 else 0
  {
    if claims == [] || m <= claims[0] {
      CountingFront(claims, m, p);
    } else {
      CountingPlaced(claims[1..], m, p);
      CountingFront(Placed(claims[1..], m), claims[0], p);
      CountingFront(claims[1..], claims[0], p);
      assert claims == [claims[0]] + claims[1..];
    }
  }

  lemma {:induction false} CountingFront(claims: seq<int>, m: int, p: int -> bool)
    ensures Counting([m] + claims, p) == Counting(claims, p) + if p(m) then 1 else 0
  {
    var all := [m] + claims;
    if claims == [] {
      assert all[..0] == [];
    } else {
      var n := |claims| - 1;
      CountingFront(claims[..n], m, p);
      assert all[..|all| - 1] == [m] + claims[..n];
    }
  }

  lemma {:induction false} CountingSorted(claims: seq<int>, p: int -> bool)
    ensures Counting(Sorted(claims), p) == Counting(claims, p)
  {
    if claims != [] {
      CountingSorted(claims[1..], p);
      CountingPlaced(Sorted(claims[1..]), claims[0], p);
      CountingFront(claims[1..], claims[0], p);
      assert claims == [claims[0]] + claims[1..];
    }
  }

  /** The counts of a round are what they are called. */
  lemma RoundTallies(s: State, r: Round)
    ensures var u := Step(s, r);
      var flushes, softs := u.flushClaimed, u.softClaimed;
      && u.rounds == s.rounds + [Tally(
           Counting(flushes, m => FlushVerdict(r, m).Whole?) + Counting(softs, m => SoftVerdict(r, m).Whole?),
           Counting(flushes, m => Gone(FlushVerdict(r, m)))
             + Counting(softs, m => Gone(SoftVerdict(r, m)) && m in s.softDurable),
           Counting(flushes, m => FlushVerdict(r, m).Torn?) + Counting(softs, m => SoftVerdict(r, m).Torn?),
           Counting(softs, m => Gone(SoftVerdict(r, m)) && m !in s.softDurable))]
      && forall m :: m in u.softDurable <==> m in s.softDurable || (m in softs && SoftVerdict(r, m).Whole?)
  {
    hide JudgeFlushes, JudgeSofts, Sorted, FlushVerdict, SoftVerdict, Gone, Counting;
    var start := Judged(Tally(0, 0, 0, 0), Opening(r), s.softDurable);
    var flushes, softs := Claim(s.flushClaimed, r.round, r.claimedFlush), Claim(s.softClaimed, r.round, r.claimedSoft);
    SortedAscends(softs);
    FlushesCounted(r, start, Sorted(flushes));
    FlushesTally(r, start, Sorted(flushes));
    SoftsTally(r, JudgeFlushes(r, start, Sorted(flushes)), Sorted(softs));
    CountingSorted(flushes, m => FlushVerdict(r, m).Whole?);
    CountingSorted(flushes, m => FlushVerdict(r, m).Torn?);
    CountingSorted(flushes, m => Gone(FlushVerdict(r, m)));
    CountingSorted(softs, m => SoftVerdict(r, m).Whole?);
    CountingSorted(softs, m => SoftVerdict(r, m).Torn?);
    CountingSorted(softs, m => Gone(SoftVerdict(r, m)) && m in s.softDurable);
    CountingSorted(softs, m => Gone(SoftVerdict(r, m)) && m !in s.softDurable);
  }

  // ---------- whole runs

  lemma StepGrows(s: State, r: Round)
    ensures var t := Step(s, r);
      && s.violations <= t.violations && s.flushClaimed <= t.flushClaimed && s.softClaimed <= t.softClaimed
      && forall m :: m in s.softDurable ==> m in t.softDurable
  {
    hide JudgeFlush, JudgeSoft, JudgeFlushes, JudgeSofts, Sorted;
    var start := Judged(Tally(0, 0, 0, 0), Opening(r), s.softDurable);
    var flushes, softs := Claim(s.flushClaimed, r.round, r.claimedFlush), Claim(s.softClaimed, r.round, r.claimedSoft);
    FlushesCounted(r, start, Sorted(flushes));
    SoftsCounted(r, JudgeFlushes(r, start, Sorted(flushes)), Sorted(softs));
  }

  lemma {:induction false} RunGrows(rounds: seq<Round>, k: nat)
    requires k <= |rounds|
    ensures var s, t := Run(rounds[..k]), Run(rounds);
      && s.violations <= t.violations && s.flushClaimed <= t.flushClaimed && s.softClaimed <= t.softClaimed
      && forall m :: m in s.softDurable ==> m in t.softDurable
  {
    hide Step;
    if k == |rounds| {
      assert rounds[..k] == rounds;
    } else {
      var n := |rounds| - 1;
      RunGrows(rounds[..n], k);
      assert rounds[..n][..k] == rounds[..k];
      StepGrows(Run(rounds[..n]), rounds[n]);
    }
  }

  lemma Next(rounds: seq<Round>, k: nat)
    requires k < |rounds|
    ensures Run(rounds[..k + 1]) == Step(Run(rounds[..k]), rounds[k])
  {
    hide Step;
    assert rounds[..k + 1][..k] == rounds[..k];
  }

  /** In a run without violations a flushed marker is whole in every round from
      its claim on. */
  lemma FlushedStaysWhole(rounds: seq<Round>, k: nat, m: int)
    requires k < |rounds| && Run(rounds).violations == [] && m in Run(rounds[..k + 1]).flushClaimed
    ensures FlushVerdict(rounds[k], m).Whole? && rounds[k].flushed(m) == Some(rounds[k].expected(m))
  {
    hide Step, Run;
    RunGrows(rounds, k + 1);
    Next(rounds, k);
    RoundIsSound(Run(rounds[..k]), rounds[k], m);
  }

  /** In a run without violations a soft marker is absent or empty up to some
      round and whole in every round after it. */
  lemma {:induction false} SoftStaysWhole(rounds: seq<Round>, j: nat, k: nat, m: int)
    requires j <= k < |rounds| && Run(rounds).violations == [] && m in Run(rounds[..j + 1]).softClaimed
    ensures !SoftVerdict(rounds[k], m).Torn?
    ensures rounds[k].soft(m) in {None, Some([]), Some(rounds[k].expected(m))}
    ensures SoftVerdict(rounds[j], m).Whole? ==> SoftVerdict(rounds[k], m).Whole?
    ensures SoftVerdict(rounds[k], m).Whole? ==> rounds[k].soft(m) == Some(rounds[k].expected(m))
  {
    hide Step, Run, FlushVerdict, SoftVerdict;
    RunGrows(rounds, k + 1);
    RunGrows(rounds, j + 1);
    Next(rounds, k);
    Next(rounds, j);
    RunGrows(rounds[..k + 1], j + 1);
    assert rounds[..k + 1][..j + 1] == rounds[..j + 1];
    RoundIsSound(Run(rounds[..k]), rounds[k], m);
    RoundIsSound(Run(rounds[..j]), rounds[j], m);
    SoftBytes(rounds[k], m);
    if j < k {
      RunGrows(rounds[..k], j + 1);
      assert rounds[..k][..j + 1] == rounds[..j + 1];
    }
  }

  /** What a soft marker's verdict says of its bytes. */
  lemma SoftBytes(r: Round, m: int)
    ensures !SoftVerdict(r, m).Torn? <==> r.soft(m) in {None, Some([]), Some(r.expected(m))}
    ensures SoftVerdict(r, m).Whole? ==> r.soft(m) == Some(r.expected(m))
  {
  }

  /** In every round of every run the counts add up to the claims made so far. */
  lemma RunIsCounted(rounds: seq<Round>, k: nat)
    requires k < |rounds|
    ensures var s := Run(rounds[..k + 1]);
      |s.rounds| == k + 1 && Total(s.rounds[k]) == |s.flushClaimed| + |s.softClaimed|
  {
    hide Step, Run;
    Next(rounds, k);
    RunLength(rounds[..k]);
    RoundIsCounted(Run(rounds[..k]), rounds[k]);
  }

  lemma {:induction false} RunLength(rounds: seq<Round>)
    ensures |Run(rounds).rounds| == |rounds|
  {
    if rounds != [] {
      RunLength(rounds[..|rounds| - 1]);
      RoundIsCounted(Run(rounds[..|rounds| - 1]), rounds[|rounds| - 1]);
    }
  }

  // ---------- the recorder

  /** The state kept between rounds. */
  class Recorder {
    var flushClaimed: seq<int>
    var softClaimed: seq<int>
    var softDurable: seq<int>
    var violations: seq<Complaint>
    var rounds: seq<Tally>

    ghost function S(): State
      reads this
    {
      State(flushClaimed, softClaimed, softDurable, violations, rounds)
    }

    constructor ()
      ensures S() == START
    {
      flushClaimed, softClaimed, softDurable, violations, rounds := [], [], [], [], [];
    }

    method Record(r: Round)
      modifies this
      ensures S() == Step(old(S()), r)
    {
      hide JudgeFlush, JudgeSoft, Opening, Sorted;
      if r.claimedFlush && r.round !in flushClaimed { flushClaimed := flushClaimed + [r.round]; }
      if r.claimedSoft && r.round !in softClaimed { softClaimed := softClaimed + [r.round]; }
      var j := Judged(Tally(0, 0, 0, 0), Opening(r), softDurable);
      ghost var start := j;
      var flushes, softs := Sorted(flushClaimed), Sorted(softClaimed);
      for i := 0 to |flushes|
        invariant j == JudgeFlushes(r, start, flushes[..i])
      {
        assert flushes[..i + 1][..i] == flushes[..i];
        j := JudgeFlush(r, j, flushes[i]);
      }
      assert flushes[..|flushes|] == flushes;
      ghost var middle := j;
      for i := 0 to |softs|
        invariant j == JudgeSofts(r, middle, softs[..i])
      {
        assert softs[..i + 1][..i] == softs[..i];
        j := JudgeSoft(r, j, softs[i]);
      }
      assert softs[..|softs|] == softs;
      softDurable := j.durable;
      violations := violations + j.complaints + (if r.preferenceTorn then [PreferenceTorn(r.round)] else []);
      rounds := rounds + [j.tally];
    }
  }
}
