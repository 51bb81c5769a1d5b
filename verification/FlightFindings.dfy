/** The verification findings of a version 8 flight artifact: the reader that only
    walks the records agrees with the admission that checks them. */
module FlightFindings {
  import opened Basics
  import opened FlightPayload
  import opened Flight

  const FINDING := 53

  datatype Finding = Finding(scope: nat, phase: nat, kind: nat, region: nat, ordinal: nat, id: nat, block: nat)

  /** What a scenario may declare as an expected finding. */
  predicate Expressible(f: Finding) {
    && 1 <= f.scope <= 3 && 1 <= f.phase <= 16 && 1 <= f.kind <= 11 && f.region < 0x1_0000_0000
    && f.ordinal < 0x1_0000_0000_0000_0000 && f.id < 0x1_0000_0000_0000_0000 && f.block < 0x1_0000_0000_0000_0000
  }

  function FindingOf(blob: Bytes): Finding
    requires |blob| == PAYLOAD_BYTES
  {
    Finding(blob[1], blob[2], blob[3], Word(blob, 5, 4), Word(blob, 9, 8), Word(blob, 17, 8), Word(blob, 25, 8))
  }

  /** The findings among events, in order. */
  function FindingsOf(events: seq<Event>): seq<Finding> {
    if events == [] then [] else
      var e := events[|events| - 1];
      FindingsOf(events[..|events| - 1]) +
      if e.kind == FINDING && |e.payload| == PAYLOAD_BYTES then [FindingOf(e.payload)] else []
  }

  // ---------- the reader

  /** The findings of the batch at an offset, and where it ends. */
  function LooseBatch(flight: Bytes, at: nat): Option<(nat, seq<Finding>)> {
    if |flight| - at < 53 || |flight| - (at + 53) < Word(flight, at + 49, 4) * EventSize(8) then None
    else
      var retained := Word(flight, at + 49, 4);
      Some((at + 53 + retained * EventSize(8), FindingsOf(EventsAt(flight, at + 53, retained, 8))))
  }

  function LooseRecords(flight: Bytes, n: nat): Option<(nat, seq<Finding>)> {
    if n == 0 then LooseBatch(flight, 28) else
      var r := LooseRecords(flight, n - 1);
      if r.None? then None else
        var b := LooseBatch(flight, r.value.0 + 29);
        if b.None? then None else Some((b.value.0, r.value.1 + b.value.1))
  }

  function LooseFindings(flight: Bytes): Option<seq<Finding>> {
    if |flight| < 12 || flight[..8] != [65, 70, 83, 70, 76, 84, 48, 54] then None else
      var r := LooseRecords(flight, Word(flight, 8, 4));
      if r.None? then None else Some(r.value.1)
  }

  method ReadBatchFindings(flight: Bytes, at: nat) returns (r: Option<(nat, seq<Finding>)>)
    ensures r == LooseBatch(flight, at)
  {
    hide Word, EventAt;
    if |flight| - at < 53 { return None; }
    var retained, offset, found := Word(flight, at + 49, 4), at + 53, [];
    for k := 0 to retained
      invariant offset == at + 53 + k * 138 <= |flight|
      invariant found == FindingsOf(EventsAt(flight, at + 53, k, 8))
    {
      if |flight| - offset < 138 {
        TimesGrows(k + 1, retained, 138);
        return None;
      }
      var e := EventAt(flight, offset, 8);
      FindingAdds(flight, at + 53, k);
      if e.kind == FINDING { found := found + [FindingOf(e.payload)]; }
      offset := offset + 138;
    }
    r := Some((offset, found));
  }

  lemma FindingAdds(flight: Bytes, at: nat, k: nat)
    requires at + (k + 1) * 138 <= |flight|
    ensures at + k * 138 + 138 <= |flight| && |EventAt(flight, at + k * 138, 8).payload| == PAYLOAD_BYTES
    ensures var e := EventAt(flight, at + k * 138, 8);
      FindingsOf(EventsAt(flight, at, k + 1, 8)) ==
      FindingsOf(EventsAt(flight, at, k, 8)) + if e.kind == FINDING then [FindingOf(e.payload)] else []
  {
    hide Word;
    var all, e := EventsAt(flight, at, k + 1, 8), EventAt(flight, at + k * 138, 8);
    assert all[..k] == EventsAt(flight, at, k, 8) && all[k] == e;
  }

  /** Every finding of the artifact, in event order. */
  method ReadFindings(flight: Bytes) returns (r: Option<seq<Finding>>)
    ensures r == LooseFindings(flight)
  {
    hide LooseBatch, Word;
    if |flight| < 12 || flight[..8] != [65, 70, 83, 70, 76, 84, 48, 54] { return None; }
    var events := Word(flight, 8, 4);
    var b := ReadBatchFindings(flight, 28);
    if b.None? {
      LooseStops(flight, 0, events);
      return None;
    }
    var offset, found := b.value.0, b.value.1;
    for index := 0 to events
      invariant LooseRecords(flight, index) == Some((offset, found))
    {
      b := ReadBatchFindings(flight, offset + 29);
      if b.None? {
        LooseStops(flight, index + 1, events);
        return None;
      }
      offset, found := b.value.0, found + b.value.1;
    }
    r := Some(found);
  }

  lemma {:induction false} LooseStops(flight: Bytes, m: nat, n: nat)
    requires m <= n && LooseRecords(flight, m).None?
    ensures LooseRecords(flight, n).None?
    decreases n
  {
    hide LooseBatch;
    if m < n { LooseStops(flight, m, n - 1); }
  }

  // ---------- agreement with the admission

  lemma BatchAgrees(flight: Bytes, at: nat, p: Profile, index: int, previous: Counters)
    requires p.version == 8 && BatchAt(flight, at, p, index, previous).Some?
    ensures var b := BatchAt(flight, at, p, index, previous).value;
      LooseBatch(flight, at) == Some((b.0, FindingsOf(b.1.events)))
  {
    hide Word, HeadOk, EventsAt, ScanAll, FindingsOf;
  }

  lemma {:induction false} FindingsJoin(a: seq<Event>, b: seq<Event>)
    ensures FindingsOf(a + b) == FindingsOf(a) + FindingsOf(b)
  {
    if b == [] {
      assert a + b == a;
    } else {
      var n := |b| - 1;
      assert (a + b)[..|a + b| - 1] == a + b[..n];
      FindingsJoin(a, b[..n]);
    }
  }

  lemma {:induction false} RecordsAgree(flight: Bytes, p: Profile, count: nat, events: nat, n: nat)
    requires p.version == 8 && ReadRecords(flight, p, count, events, n).Some?
    ensures var g := ReadRecords(flight, p, count, events, n).value;
      LooseRecords(flight, n) == Some((g.offset, FindingsOf(Events(g.batches))))
  {
    hide BatchAt, LooseBatch, Word, FindingsOf, RecordAt, Opened;
    if n == 0 {
      OpenedAgrees(flight, p);
    } else {
      RecordsAgree(flight, p, count, events, n - 1);
      RecordAgrees(flight, p, count, events, n - 1, ReadRecords(flight, p, count, events, n - 1).value);
    }
  }

  lemma OpenedAgrees(flight: Bytes, p: Profile)
    requires p.version == 8 && Opened(flight, p).Some?
    ensures var g := Opened(flight, p).value;
      LooseBatch(flight, 28) == Some((g.offset, FindingsOf(Events(g.batches))))
  {
    hide BatchAt, LooseBatch, FindingsOf;
    BatchAgrees(flight, 28, p, -1, START);
    OneBatch(BatchAt(flight, 28, p, -1, START).value.1);
  }

  lemma RecordAgrees(flight: Bytes, p: Profile, count: nat, events: nat, index: nat, g: Progress)
    requires p.version == 8 && RecordAt(flight, p, count, events, index, g).Some?
    ensures var t, b := RecordAt(flight, p, count, events, index, g).value, LooseBatch(flight, g.offset + 29);
      && b.Some? && b.value.0 == t.offset
      && FindingsOf(Events(t.batches)) == FindingsOf(Events(g.batches)) + b.value.1
  {
    hide BatchAt, LooseBatch, Word, FindingsOf;
    BatchAgrees(flight, g.offset + 29, p, index, g.counters);
    var b := BatchAt(flight, g.offset + 29, p, index, g.counters).value.1;
    EventsGrowBy(g.batches, b);
    FindingsJoin(Events(g.batches), b.events);
  }

  lemma OneBatch(b: Batch)
    ensures Events([b]) == b.events
  {
    EventsGrowBy([], b);
    assert [] + [b] == [b];
  }

  lemma EventsGrowBy(batches: seq<Batch>, b: Batch)
    ensures Events(batches + [b]) == Events(batches) + b.events
  {
    assert (batches + [b])[..|batches|] == batches;
  }

  // ---------- findings are in their domain

  lemma {:induction false} ScannedPayloads(p: Profile, previous: Counters, next: Counters, events: seq<Event>, e: Event)
    requires p.version == 8 && ScanAll(p, previous, next, events).Some? && e in events
    ensures PayloadOk(e.kind, e.payload, e.generation)
  {
    hide IdentityOk, ContextOk, PayloadOk;
    var n := |events| - 1;
    assert events == events[..n] + [events[n]];
    if e != events[n] { ScannedPayloads(p, previous, next, events[..n], e); }
  }

  lemma {:induction false} ChainPayloads(p: Profile, first: int, batches: seq<Batch>, e: Event)
    requires p.version == 8 && Chain(p, first, batches) && e in Events(batches)
    ensures PayloadOk(e.kind, e.payload, e.generation)
  {
    hide HeadOk, PayloadOk, ScanAll;
    var n := |batches| - 1;
    ChainPrefix(p, first, batches, n);
    assert AcceptedAt(p, first, batches, n);
    if e in batches[n].events {
      ScannedPayloads(p, Before(batches, n), batches[n].next, batches[n].events, e);
    } else {
      ChainPayloads(p, first, batches[..n], e);
    }
  }

  lemma {:induction false} WordFits(flight: Bytes, at: nat, n: nat)
    requires at + n <= |flight|
    ensures n == 4 ==> Word(flight, at, n) < 0x1_0000_0000
    ensures n == 8 ==> Word(flight, at, n) < 0x1_0000_0000_0000_0000
    decreases n
  {
    if n == 4 { assert Word(flight, at + 2, 2) < 65536; }
    if n == 8 {
      WordFits(flight, at + 4, 4);
      assert Word(flight, at + 2, 6) < 0x1_0000_0000_0000;
    }
  }

  lemma FindingIsExpressible(blob: Bytes, generation: nat)
    requires PayloadOk(FINDING, blob, generation)
    ensures Expressible(FindingOf(blob))
  {
    hide Word;
    var f := PayloadOf(blob);
    assert f.tag == 6 && VerifyOk(FINDING, f);
    WordFits(blob, 5, 4);
    WordFits(blob, 9, 8);
    WordFits(blob, 17, 8);
    WordFits(blob, 25, 8);
  }

  lemma {:induction false} FindingsAreOfEvents(events: seq<Event>, f: Finding)
    requires f in FindingsOf(events)
    ensures exists e :: e in events && e.kind == FINDING && |e.payload| == PAYLOAD_BYTES && FindingOf(e.payload) == f
  {
    var n := |events| - 1;
    if f in FindingsOf(events[..n]) {
      FindingsAreOfEvents(events[..n], f);
      var e :| e in events[..n] && e.kind == FINDING && |e.payload| == PAYLOAD_BYTES && FindingOf(e.payload) == f;
      assert e in events;
    } else {
      assert events[n] in events;
    }
  }

  /** An admitted artifact is read to its end by the reader of findings, which
      returns the findings of the admitted events in order; each of them is one that
      a scenario could have declared. */
  lemma FindingsOfAdmitted(flight: Bytes, p: Profile, operations: nat, count: nat)
    requires p.version == 8 && HeaderOk(flight, p, operations)
    requires ReadRecords(flight, p, count, Word(flight, 8, 4), Word(flight, 8, 4)).Some?
    ensures var g := ReadRecords(flight, p, count, Word(flight, 8, 4), Word(flight, 8, 4)).value;
      LooseFindings(flight) == Some(FindingsOf(Events(g.batches)))
    ensures forall f :: f in LooseFindings(flight).value ==> Expressible(f)
  {
    hide Word, ReadRecords, LooseRecords, FindingsOf, Expressible, FindingOf, PayloadOk;
    var n := Word(flight, 8, 4);
    var g := ReadRecords(flight, p, count, n, n).value;
    RecordsAgree(flight, p, count, n, n);
    RecordsChain(flight, p, count, n, n);
    forall f | f in FindingsOf(Events(g.batches)) ensures Expressible(f) {
      FindingsAreOfEvents(Events(g.batches), f);
      var e :| e in Events(g.batches) && e.kind == FINDING && |e.payload| == PAYLOAD_BYTES && FindingOf(e.payload) == f;
      ChainPayloads(p, FirstIndex(p), g.batches, e);
      FindingIsExpressible(e.payload, e.generation);
    }
  }
}
