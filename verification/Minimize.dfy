/** Delta debugging of a failing scenario against a deterministic runner. */
module Minimize {
  import opened Basics

  datatype Fault = NoFault | PowerCut(operation: nat, offset: nat, variant: nat)

  /** What one execution of a candidate gives: a refusal of the selected cut, an
      error that ends the search, or a run with its crash selection and signature. */
  datatype Outcome<S> = Refused | Aborted | Ran(success: bool, selection: S, signature: S)

  predicate Reproduces<S(==)>(o: Outcome<S>, selection: S, signature: S) {
    o.Ran? && !o.success && o.selection == selection && o.signature == signature
  }

  // ---------- candidates

  /** The operations without the chunk that begins at start. */
  function Without<T>(ops: seq<T>, start: nat, chunk: nat): (r: seq<T>)
    requires start <= |ops|
    ensures |r| == |ops| - (Smaller(start + chunk, |ops|) - start)
  {
    ops[..start] + ops[Smaller(start + chunk, |ops|)..]
  }

  predicate Anchors(fault: Fault, start: nat, chunk: nat) {
    fault.PowerCut? && start <= fault.operation < start + chunk
  }

  function Shifted(fault: Fault, start: nat, chunk: nat): Fault {
    if fault.PowerCut? && fault.operation >= start + chunk
    then fault.(operation := fault.operation - chunk) else fault
  }

  predicate InRange<T>(fault: Fault, ops: seq<T>) {
    fault.PowerCut? ==> fault.operation < |ops|
  }

  /** kept lists, in order, where each remaining operation stood at first, and
      the fault still names the operation it named at first. */
  ghost predicate Embeds<T>(all: seq<T>, fault: Fault, ops: seq<T>, now: Fault, kept: seq<nat>) {
    && |kept| == |ops|
    && (forall i :: 0 <= i < |ops| ==> kept[i] < |all| && ops[i] == all[kept[i]])
    && (forall i, j :: 0 <= i < j < |kept| ==> kept[i] < kept[j])
    && InRange(fault, all) && InRange(now, ops)
    && (if fault.NoFault? then now.NoFault?
        else
          && now.PowerCut? && now.offset == fault.offset && now.variant == fault.variant
          && kept[now.operation] == fault.operation)
  }

  lemma EmbedsAll<T>(all: seq<T>, fault: Fault) returns (kept: seq<nat>)
    requires InRange(fault, all)
    ensures Embeds(all, fault, all, fault, kept)
  {
    kept := seq(|all|, i => i);
  }

  lemma EmbedsWithout<T>(all: seq<T>, fault: Fault, ops: seq<T>, now: Fault, kept: seq<nat>, start: nat, chunk: nat)
    requires Embeds(all, fault, ops, now, kept) && start < |ops| && !Anchors(now, start, chunk)
    ensures Embeds(all, fault, Without(ops, start, chunk), Shifted(now, start, chunk), Without(kept, start, chunk))
  {
    hide Without;
    var r, k := Without(ops, start, chunk), Without(kept, start, chunk);
    forall i: nat | i < |r|
      ensures k[i] == kept[Before(|ops|, |r|, start, i)] && r[i] == ops[Before(|ops|, |r|, start, i)]
    {
      WithoutAt(ops, start, chunk, i);
      WithoutAt(kept, start, chunk, i);
    }
    if now.PowerCut? { assert Before(|ops|, |r|, start, Shifted(now, start, chunk).operation) == now.operation; }
  }

  /** Where the operation now at i stood before n operations became m. */
  function Before(n: nat, m: nat, start: nat, i: nat): (j: nat)
    requires m <= n && i < m
    ensures j < n
  {
    if i < start then i else i + (n - m)
  }

  lemma WithoutAt<T>(ops: seq<T>, start: nat, chunk: nat, i: nat)
    requires start <= |ops| && i < |Without(ops, start, chunk)|
    ensures var r := Without(ops, start, chunk);
      r[i] == ops[Before(|ops|, |r|, start, i)]
  {
  }

  /** Removing the chunk is admitted and reproduces the failure. */
  predicate Drops<T, S(==)>(judge: (seq<T>, Fault) -> Outcome<S>, valid: seq<T> -> bool, selection: S, signature: S,
                            ops: seq<T>, fault: Fault, start: nat, chunk: nat)
    requires start <= |ops|
  {
    && !Anchors(fault, start, chunk) && valid(Without(ops, start, chunk))
    && Reproduces(judge(Without(ops, start, chunk), Shifted(fault, start, chunk)), selection, signature)
  }

  /** No single operation other than the one the fault names can be removed. */
  ghost predicate OneMinimal<T, S>(
    judge: (seq<T>, Fault) -> Outcome<S>, valid: seq<T> -> bool, selection: S, signature: S, ops: seq<T>, fault: Fault)
  {
    forall i: nat :: i < |ops| ==> !Drops(judge, valid, selection, signature, ops, fault, i, 1)
  }

  ghost predicate NeverAborts<T(!new), S>(judge: (seq<T>, Fault) -> Outcome<S>) {
    forall ops, fault :: !judge(ops, fault).Aborted?
  }

  // ---------- the search

  /** The runner counts its executions. */
  class Runner<T(!new), S(==)> {
    const judge: (seq<T>, Fault) -> Outcome<S>
    const valid: seq<T> -> bool
    var calls: nat

    constructor (judge: (seq<T>, Fault) -> Outcome<S>, valid: seq<T> -> bool)
      ensures calls == 0 && this.judge == judge && this.valid == valid
    {
      this.judge, this.valid, calls := judge, valid, 0;
    }

    method Execute(ops: seq<T>, fault: Fault) returns (o: Outcome<S>)
      modifies this
      ensures o == judge(ops, fault) && calls == old(calls) + 1
    {
      calls := calls + 1;
      o := judge(ops, fault);
    }

    /** One pass at one chunk size. */
    method Pass(ops: seq<T>, fault: Fault, chunk: nat, spent: nat, maxRuns: nat, selection: S, signature: S)
      returns (found: Option<nat>, exhausted: bool, aborted: bool, runs: nat)
      requires chunk > 0 && spent <= maxRuns
      modifies this
      ensures calls == old(calls) + runs - spent && spent <= runs <= maxRuns
      ensures exhausted ==> runs == maxRuns
      ensures NeverAborts(judge) ==> !aborted
      ensures found.Some? ==>
        found.value < |ops| && Drops(judge, valid, selection, signature, ops, fault, found.value, chunk)
      ensures found.None? && !exhausted && !aborted && chunk == 1 ==>
        OneMinimal(judge, valid, selection, signature, ops, fault)
    {
      found, exhausted, aborted, runs := None, false, false, spent;
      var start := 0;
      while start < |ops|
        invariant calls == old(calls) + runs - spent && spent <= runs <= maxRuns
        invariant chunk == 1 ==>
          forall i: nat :: i < start && i < |ops| ==> !Drops(judge, valid, selection, signature, ops, fault, i, 1)
        decreases |ops| - start
      {
        if !Anchors(fault, start, chunk) && valid(Without(ops, start, chunk)) {
          if runs >= maxRuns {
            exhausted := true;
            return;
          }
          runs := runs + 1;
          var o := Execute(Without(ops, start, chunk), Shifted(fault, start, chunk));
          if o.Aborted? {
            aborted := true;
            return;
          }
          if Reproduces(o, selection, signature) {
            found := Some(start);
            return;
          }
        }
        start := start + chunk;
      }
    }

    /** What the search keeps: the operations embed in the first ones, are
        admitted, and still fail in the same way. */
    ghost predicate Faithful(
      all: seq<T>, first: Fault, ops: seq<T>, fault: Fault, kept: seq<nat>, selection: S, signature: S)
    {
      && Embeds(all, first, ops, fault, kept)
      && valid(ops)
      && Reproduces(judge(ops, fault), selection, signature)
    }

    lemma FaithfulWithout(
      all: seq<T>, first: Fault, ops: seq<T>, fault: Fault, kept: seq<nat>, selection: S, signature: S, start: nat,
      chunk: nat)
      requires Faithful(all, first, ops, fault, kept, selection, signature) && chunk > 0
      requires start < |ops| && Drops(judge, valid, selection, signature, ops, fault, start, chunk)
      ensures |kept| == |ops| && |Without(ops, start, chunk)| < |ops|
      ensures Faithful(all, first, Without(ops, start, chunk), Shifted(fault, start, chunk),
                       Without(kept, start, chunk), selection, signature)
    {
      EmbedsWithout(all, first, ops, fault, kept, start, chunk);
    }

    method Search(all: seq<T>, first: Fault, maxRuns: nat, selection: S, signature: S)
      returns (done: bool, ops: seq<T>, fault: Fault, runs: nat, exhausted: bool, ghost kept: seq<nat>)
      requires InRange(first, all) && valid(all) && Reproduces(judge(all, first), selection, signature)
      modifies this
      ensures calls == old(calls) + runs && runs <= maxRuns
      ensures Faithful(all, first, ops, fault, kept, selection, signature)
      ensures done && exhausted ==> runs == maxRuns
      ensures done && !exhausted ==> OneMinimal(judge, valid, selection, signature, ops, fault)
      ensures NeverAborts(judge) ==> done
    {
      done, ops, fault, runs, exhausted := true, all, first, 0, false;
      kept := EmbedsAll(all, first);
      var granularity := 2;
      while ops != []
        invariant granularity >= 2 && calls == old(calls) + runs && runs <= maxRuns
        invariant Faithful(all, first, ops, fault, kept, selection, signature)
        decreases |ops|, if granularity < |ops| then |ops| - granularity else 0
      {
        var count := |ops|;
        var chunk := (count + granularity - 1) / granularity;
        ChunkSize(count, granularity, chunk);
        var found, spent, aborted, total := Pass(ops, fault, chunk, runs, maxRuns, selection, signature);
        runs := total;
        if aborted {
          done := false;
          return;
        }
        if found.Some? {
          FaithfulWithout(all, first, ops, fault, kept, selection, signature, found.value, chunk);
          kept := Without(kept, found.value, chunk);
          ops, fault := Without(ops, found.value, chunk), Shifted(fault, found.value, chunk);
          granularity := if granularity - 1 > 2 then granularity - 1 else 2;
        } else if spent {
          exhausted := true;
          return;
        } else if granularity >= count {
          return;
        } else {
          granularity := Smaller(count, granularity * 2);
        }
      }
    }

    /** The whole reduction: the first failure is reproduced once, then candidates
        are executed within the budget. */
    method Reduce(all: seq<T>, first: Fault, maxRuns: nat)
      returns (done: bool, ops: seq<T>, fault: Fault, runs: nat, exhausted: bool, ghost kept: seq<nat>)
      requires InRange(first, all)
      modifies this
      ensures calls <= old(calls) + 1 + maxRuns
      ensures done ==>
        && 1 <= maxRuns <= 4096 && judge(all, first).Ran? && !judge(all, first).success
        && Faithful(all, first, ops, fault, kept, judge(all, first).selection, judge(all, first).signature)
        && calls == old(calls) + 1 + runs && runs <= maxRuns
        && (exhausted ==> runs == maxRuns)
        && (!exhausted ==>
            OneMinimal(judge, valid, judge(all, first).selection, judge(all, first).signature, ops, fault))
      ensures NeverAborts(judge) && 1 <= maxRuns <= 4096 && valid(all) ==>
        judge(all, first).Ran? && !judge(all, first).success ==> done
    {
      done, ops, fault, runs, exhausted, kept := false, all, first, 0, false, [];
      if maxRuns < 1 || maxRuns > 4096 { return; }
      var o := Execute(all, first);
      if !o.Ran? || o.success || !valid(all) { return; }
      done, ops, fault, runs, exhausted, kept := Search(all, first, maxRuns, o.selection, o.signature);
    }
  }

  lemma ChunkSize(count: nat, granularity: nat, chunk: nat)
    requires count > 0 && granularity > 0 && chunk == (count + granularity - 1) / granularity
    ensures chunk > 0 && (granularity >= count ==> chunk == 1)
  {
  }
}
