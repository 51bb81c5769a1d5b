/** The bytes of a flight artifact, field by field, and that admission reads them back. */
module FlightWire {
  import opened Basics
  import opened FlightPayload
  import opened Flight
  import opened FlightFindings
  import Scenario

  // ---------- numbers

  /** One more than the largest number in n bytes. */
  function Bound(n: nat): (b: nat)
    ensures b > 0
  {
    if n == 0 then 1 else 256 * Bound(n - 1)
  }

  lemma Bounds()
    ensures Bound(1) == 0x100 && Bound(2) == 0x1_0000 && Bound(4) == 0x1_0000_0000
    ensures Bound(8) == 0x1_0000_0000_0000_0000
  {
    assert Bound(6) == 0x1_0000_0000_0000;
  }

  /** A number in so many bytes, the least first. */
  function Little(n: nat, width: nat): (r: Bytes)
    ensures |r| == width
  {
    if width == 0 then [] else [n % 256] + Little(n / 256, width - 1)
  }

  /** What each byte of a field weighs. */
  lemma WordBytes(flight: Bytes, at: nat)
    requires at + 8 <= |flight|
    ensures Word(flight, at, 1) == flight[at] as int
    ensures Word(flight, at, 2) == flight[at] as int + 0x100 * flight[at + 1] as int
    ensures Word(flight, at, 4) == flight[at] as int + 0x100 * flight[at + 1] as int + 0x1_0000 * flight[at + 2] as int
      + 0x100_0000 * flight[at + 3] as int
    ensures Word(flight, at, 8) == Word(flight, at, 4) + 0x1_0000_0000 * flight[at + 4] as int
      + 0x100_0000_0000 * flight[at + 5] as int + 0x1_0000_0000_0000 * flight[at + 6] as int
      + 0x100_0000_0000_0000 * flight[at + 7] as int
  {
    var w := Word(flight, at + 4, 4);
    assert Word(flight, at + 6, 2) == flight[at + 6] as int + 0x100 * flight[at + 7] as int;
    assert w == flight[at + 4] as int + 0x100 * flight[at + 5] as int + 0x1_0000 * Word(flight, at + 6, 2);
    assert Word(flight, at + 2, 6) == flight[at + 2] as int + 0x100 * flight[at + 3] as int + 0x1_0000 * w;
    assert Word(flight, at + 2, 2) == flight[at + 2] as int + 0x100 * flight[at + 3] as int;
  }

  /** The bytes lie in the artifact at an offset. */
  predicate Has(flight: Bytes, at: nat, bytes: Bytes) {
    at + |bytes| <= |flight| && flight[at..at + |bytes|] == bytes
  }

  lemma {:induction false} Reads(flight: Bytes, at: nat, n: nat, width: nat)
    requires n < Bound(width) && Has(flight, at, Little(n, width))
    ensures Word(flight, at, width) == n
    decreases width
  {
    if width > 0 {
      var b := Little(n, width);
      assert flight[at] == b[0] && flight[at + 1..at + width] == b[1..];
      Reads(flight, at + 1, n / 256, width - 1);
    }
  }

  /** The next field, and what follows it. */
  lemma Field(flight: Bytes, at: nat, n: nat, width: nat, rest: Bytes)
    requires n < Bound(width) && Has(flight, at, Little(n, width) + rest)
    ensures Word(flight, at, width) == n && Has(flight, at + width, rest)
  {
    Splits(flight, at, Little(n, width), rest);
    Reads(flight, at, n, width);
  }

  lemma Splits(flight: Bytes, at: nat, a: Bytes, b: Bytes)
    requires Has(flight, at, a + b)
    ensures Has(flight, at, a) && Has(flight, at + |a|, b)
  {
    var s := flight[at..at + |a + b|];
    assert s[..|a|] == a && s[|a|..] == b;
    assert flight[at..at + |a|] == s[..|a|];
    assert flight[at + |a|..at + |a| + |b|] == s[|a|..];
  }

  // ---------- one batch

  predicate CountersFit(c: Counters) {
    && c.sequence < Bound(8) && c.attempt < Bound(8) && c.lost < Bound(8) && c.filtered < Bound(8)
    && c.delivered < Bound(8) && c.missed < Bound(8) && c.closed < Bound(1)
  }

  /** The head of a batch: lost, filtered, sequence, attempt, delivered, missed and
      closed, then the number of retained events. */
  function HeadBytes(c: Counters, retained: nat): (r: Bytes)
    ensures |r| == 53
  {
    Little(c.lost, 8) + (Little(c.filtered, 8) + (Little(c.sequence, 8) + (Little(c.attempt, 8)
      + (Little(c.delivered, 8) + (Little(c.missed, 8) + (Little(c.closed, 1) + (Little(retained, 4) + [])))))))
  }

  lemma HeadReads(flight: Bytes, at: nat, c: Counters, retained: nat)
    requires CountersFit(c) && retained < Bound(4) && Has(flight, at, HeadBytes(c, retained))
    ensures at + 53 <= |flight| && HeadAt(flight, at) == (c, retained)
  {
    hide Has, Little, Bound, Word;
    var r7 := Little(retained, 4) + [];
    var r6 := Little(c.closed, 1) + r7;
    var r5 := Little(c.missed, 8) + r6;
    var r4 := Little(c.delivered, 8) + r5;
    var r3 := Little(c.attempt, 8) + r4;
    var r2 := Little(c.sequence, 8) + r3;
    var r1 := Little(c.filtered, 8) + r2;
    Field(flight, at, c.lost, 8, r1);
    Field(flight, at + 8, c.filtered, 8, r2);
    Field(flight, at + 16, c.sequence, 8, r3);
    Field(flight, at + 24, c.attempt, 8, r4);
    Field(flight, at + 32, c.delivered, 8, r5);
    Field(flight, at + 40, c.missed, 8, r6);
    Field(flight, at + 48, c.closed, 1, r7);
    Field(flight, at + 49, retained, 4, []);
    assert at + 53 <= |flight| by { Inside(flight, at, HeadBytes(c, retained)); }
  }

  lemma Inside(flight: Bytes, at: nat, bytes: Bytes)
    requires Has(flight, at, bytes)
    ensures at + |bytes| <= |flight|
  {
  }

  /** A version carries only some fields of an event; the others are zero. */
  predicate EventFits(e: Event, version: nat) {
    && e.sequence < Bound(8) && e.attempt < Bound(8) && e.generation < Bound(8) && e.kind < Bound(1)
    && e.remount < Bound(1)
    && e.operation < Bound(8) && e.span < Bound(8) && e.parent < Bound(8) && e.method_ < Bound(2)
    && e.window < Bound(8) && e.group < Bound(4)
    && e.present < Bound(1) && e.id < Bound(8) && e.block < Bound(8) && e.view < Bound(8)
    && (version < 5 ==>
          e.operation == 0 && e.span == 0 && e.parent == 0 && e.method_ == 0 && e.window == 0 && e.group == 0)
    && (version < 6 ==> e.present == 0 && e.id == 0 && e.block == 0 && e.view == 0)
    && |e.payload| == if version == 8 then PAYLOAD_BYTES else 0
  }

  /** Sequence, attempt, generation, kind and remount. */
  function IdentityBytes(e: Event, rest: Bytes): (r: Bytes)
    ensures |r| == 26 + |rest|
  {
    Little(e.sequence, 8) + (Little(e.attempt, 8) + (Little(e.generation, 8) + (Little(e.kind, 1)
      + (Little(e.remount, 1) + rest))))
  }

  /** Operation, span, parent, method, window and group. */
  function ContextBytes(e: Event, rest: Bytes): (r: Bytes)
    ensures |r| == 38 + |rest|
  {
    Little(e.operation, 8) + (Little(e.span, 8) + (Little(e.parent, 8) + (Little(e.method_, 2)
      + (Little(e.window, 8) + (Little(e.group, 4) + rest)))))
  }

  /** Presence, object, block and view. */
  function ObjectBytes(e: Event, rest: Bytes): (r: Bytes)
    ensures |r| == 25 + |rest|
  {
    Little(e.present, 1) + (Little(e.id, 8) + (Little(e.block, 8) + (Little(e.view, 8) + rest)))
  }

  function EventBytes(e: Event, version: nat): (r: Bytes)
    requires EventFits(e, version)
    ensures |r| == EventSize(version)
  {
    IdentityBytes(e, if version < 5 then [] else ContextBytes(e, if version < 6 then [] else ObjectBytes(e, e.payload)))
  }

  lemma IdentityReads(flight: Bytes, at: nat, e: Event, rest: Bytes)
    requires e.sequence < Bound(8) && e.attempt < Bound(8) && e.generation < Bound(8)
    requires e.kind < Bound(1) && e.remount < Bound(1) && Has(flight, at, IdentityBytes(e, rest))
    ensures at + 26 <= |flight| && Has(flight, at + 26, rest)
    ensures Word(flight, at, 8) == e.sequence && Word(flight, at + 8, 8) == e.attempt
    ensures Word(flight, at + 16, 8) == e.generation
    ensures Word(flight, at + 24, 1) == e.kind && Word(flight, at + 25, 1) == e.remount
  {
    hide Has, Little, Bound, Word;
    var r4 := Little(e.remount, 1) + rest;
    var r3 := Little(e.kind, 1) + r4;
    var r2 := Little(e.generation, 8) + r3;
    var r1 := Little(e.attempt, 8) + r2;
    Inside(flight, at, IdentityBytes(e, rest));
    Field(flight, at, e.sequence, 8, r1);
    Field(flight, at + 8, e.attempt, 8, r2);
    Field(flight, at + 16, e.generation, 8, r3);
    Field(flight, at + 24, e.kind, 1, r4);
    Field(flight, at + 25, e.remount, 1, rest);
  }

  lemma ContextReads(flight: Bytes, at: nat, e: Event, rest: Bytes)
    requires e.operation < Bound(8) && e.span < Bound(8) && e.parent < Bound(8) && e.method_ < Bound(2)
    requires e.window < Bound(8) && e.group < Bound(4) && Has(flight, at, ContextBytes(e, rest))
    ensures at + 38 <= |flight| && Has(flight, at + 38, rest)
    ensures Word(flight, at, 8) == e.operation && Word(flight, at + 8, 8) == e.span
    ensures Word(flight, at + 16, 8) == e.parent && Word(flight, at + 24, 2) == e.method_
    ensures Word(flight, at + 26, 8) == e.window && Word(flight, at + 34, 4) == e.group
  {
    hide Has, Little, Bound, Word;
    var r5 := Little(e.group, 4) + rest;
    var r4 := Little(e.window, 8) + r5;
    var r3 := Little(e.method_, 2) + r4;
    var r2 := Little(e.parent, 8) + r3;
    var r1 := Little(e.span, 8) + r2;
    Inside(flight, at, ContextBytes(e, rest));
    Field(flight, at, e.operation, 8, r1);
    Field(flight, at + 8, e.span, 8, r2);
    Field(flight, at + 16, e.parent, 8, r3);
    Field(flight, at + 24, e.method_, 2, r4);
    Field(flight, at + 26, e.window, 8, r5);
    Field(flight, at + 34, e.group, 4, rest);
  }

  lemma ObjectReads(flight: Bytes, at: nat, e: Event, rest: Bytes)
    requires e.present < Bound(1) && e.id < Bound(8) && e.block < Bound(8) && e.view < Bound(8)
    requires Has(flight, at, ObjectBytes(e, rest))
    ensures at + 25 + |rest| <= |flight| && flight[at + 25..at + 25 + |rest|] == rest
    ensures Word(flight, at, 1) == e.present && Word(flight, at + 1, 8) == e.id
    ensures Word(flight, at + 9, 8) == e.block && Word(flight, at + 17, 8) == e.view
  {
    assert Has(flight, at, ObjectBytes(e, rest));
    hide Little, Bound, Word;
    var r3 := Little(e.view, 8) + rest;
    var r2 := Little(e.block, 8) + r3;
    var r1 := Little(e.id, 8) + r2;
    Field(flight, at, e.present, 1, r1);
    Field(flight, at + 1, e.id, 8, r2);
    Field(flight, at + 9, e.block, 8, r3);
    Field(flight, at + 17, e.view, 8, rest);
  }

  /** An event written field by field is read with those fields. */
  lemma EventReads(flight: Bytes, at: nat, e: Event, version: nat)
    requires EventFits(e, version) && Has(flight, at, EventBytes(e, version))
    ensures at + EventSize(version) <= |flight| && EventAt(flight, at, version) == e
  {
    hide Little, Bound, Word, IdentityBytes, ContextBytes, ObjectBytes, Has;
    Inside(flight, at, EventBytes(e, version));
    var objects := if version < 6 then [] else ObjectBytes(e, e.payload);
    var context := if version < 5 then [] else ContextBytes(e, objects);
    IdentityReads(flight, at, e, context);
    if version >= 5 { ContextReads(flight, at + 26, e, objects); }
    if version >= 6 { ObjectReads(flight, at + 64, e, e.payload); }
  }

  predicate EventsFit(events: seq<Event>, version: nat) {
    |events| < Bound(4) && forall e :: e in events ==> EventFits(e, version)
  }

  function EventsBytes(events: seq<Event>, version: nat): (r: Bytes)
    requires forall e :: e in events ==> EventFits(e, version)
    ensures |r| == |events| * EventSize(version)
  {
    if events == [] then [] else
      var n := |events| - 1;
      assert events[n] in events && n * EventSize(version) + EventSize(version) == |events| * EventSize(version);
      EventsBytes(events[..n], version) + EventBytes(events[n], version)
  }

  lemma {:induction false} EventsRead(flight: Bytes, at: nat, events: seq<Event>, version: nat)
    requires (forall e :: e in events ==> EventFits(e, version)) && Has(flight, at, EventsBytes(events, version))
    ensures at + |events| * EventSize(version) <= |flight| && EventsAt(flight, at, |events|, version) == events
  {
    hide EventAt, EventBytes, EventFits, EventSize, Has, EventsAt;
    Inside(flight, at, EventsBytes(events, version));
    if events == [] {
      assert EventsAt(flight, at, 0, version) == [];
    } else {
      var n, size := |events| - 1, EventSize(version);
      assert events[n] in events && forall e :: e in events[..n] ==> e in events;
      assert n * size + size == |events| * size;
      Splits(flight, at, EventsBytes(events[..n], version), EventBytes(events[n], version));
      EventsRead(flight, at, events[..n], version);
      EventReads(flight, at + n * size, events[n], version);
      NextEvent(flight, at, n, version);
      assert events == events[..n] + [events[n]];
    }
  }

  lemma NextEvent(flight: Bytes, at: nat, n: nat, version: nat)
    requires at + (n + 1) * EventSize(version) <= |flight|
    ensures at + n * EventSize(version) + EventSize(version) <= |flight|
    ensures EventsAt(flight, at, n + 1, version) ==
      EventsAt(flight, at, n, version) + [EventAt(flight, at + n * EventSize(version), version)]
  {
    hide EventAt, EventSize;
  }

  predicate BatchFits(p: Profile, b: Batch) { CountersFit(b.next) && EventsFit(b.events, p.version) }

  /** A batch of each version; the first two have none. */
  function BatchBytes(p: Profile, b: Batch): Bytes
    requires BatchFits(p, b)
  {
    if p.version >= 4 then HeadBytes(b.next, |b.events|) + EventsBytes(b.events, p.version)
    else if p.version == 3 then Little(b.next.lost, 8) + (Little(|b.events|, 4) + EventsBytes(b.events, 3))
    else []
  }

  /** An accepted batch written field by field is read and accepted as that batch. */
  lemma BatchReads(flight: Bytes, at: nat, p: Profile, index: int, previous: Counters, b: Batch)
    requires BatchFits(p, b) && Accepts(p, index, previous, b) && Has(flight, at, BatchBytes(p, b))
    ensures BatchAt(flight, at, p, index, previous) == Some((at + |BatchBytes(p, b)|, b))
  {
    hide SelectedAt, InternalAt, SelectedOk, InternalOk, HeadBytes, EventsBytes, Little, CountersFit, EventFits, Has;
    if p.version >= 4 {
      SelectedReads(flight, at, p, index, previous, b);
    } else if p.version == 3 {
      InternalReads(flight, at, p, previous, b);
    }
  }

  lemma SelectedReads(flight: Bytes, at: nat, p: Profile, index: int, previous: Counters, b: Batch)
    requires p.version >= 4 && BatchFits(p, b) && SelectedOk(p, index, previous, b)
    requires Has(flight, at, HeadBytes(b.next, |b.events|) + EventsBytes(b.events, p.version))
    ensures SelectedAt(flight, at, p, index, previous) == Some((at + 53 + |EventsBytes(b.events, p.version)|, b))
  {
    hide Has, HeadBytes, HeadAt, HeadOk, ScanAll, CountersFit, EventSize, EventFits, EventsBytes, EventsAt, Bound;
    Splits(flight, at, HeadBytes(b.next, |b.events|), EventsBytes(b.events, p.version));
    HeadReads(flight, at, b.next, |b.events|);
    EventsRead(flight, at + 53, b.events, p.version);
  }

  lemma InternalReads(flight: Bytes, at: nat, p: Profile, previous: Counters, b: Batch)
    requires p.version == 3 && BatchFits(p, b) && InternalOk(p, previous, b)
    requires Has(flight, at, Little(b.next.lost, 8) + (Little(|b.events|, 4) + EventsBytes(b.events, 3)))
    ensures InternalAt(flight, at, p, previous) == Some((at + 12 + |EventsBytes(b.events, 3)|, b))
  {
    hide Has, Little, InternalScan, EventSize, EventFits, Word, Bound;
    var events := EventsBytes(b.events, 3);
    Field(flight, at, b.next.lost, 8, Little(|b.events|, 4) + events);
    Field(flight, at + 8, |b.events|, 4, events);
    EventsRead(flight, at + 12, b.events, 3);
  }

  // ---------- one record

  /** An operation's block range, an unread number, and whether it succeeded. */
  datatype Row = Row(first: nat, last: nat, unread: nat, success: nat)

  predicate RowFits(row: Row) {
    row.first < Bound(8) && row.last < Bound(8) && row.unread < Bound(8) && row.success <= 1
  }

  function RowBytes(index: nat, row: Row, rest: Bytes): (r: Bytes)
    ensures |r| == 29 + |rest|
  {
    Little(index, 4) + (Little(row.first, 8) + (Little(row.last, 8) + (Little(row.unread, 8)
      + (Little(row.success, 1) + rest))))
  }

  lemma RowReads(flight: Bytes, at: nat, index: nat, row: Row, rest: Bytes)
    requires index < Bound(4) && RowFits(row) && Has(flight, at, RowBytes(index, row, rest))
    ensures at + 29 <= |flight| && Has(flight, at + 29, rest)
    ensures Word(flight, at, 4) == index && Word(flight, at + 4, 8) == row.first
    ensures Word(flight, at + 12, 8) == row.last && Word(flight, at + 28, 1) == row.success
  {
    assert 1 < Bound(1);
    hide Has, Little, Bound, Word;
    var r4 := Little(row.success, 1) + rest;
    var r3 := Little(row.unread, 8) + r4;
    var r2 := Little(row.last, 8) + r3;
    var r1 := Little(row.first, 8) + r2;
    Inside(flight, at, RowBytes(index, row, rest));
    Field(flight, at, index, 4, r1);
    Field(flight, at + 4, row.first, 8, r2);
    Field(flight, at + 12, row.last, 8, r3);
    Field(flight, at + 20, row.unread, 8, r4);
    Field(flight, at + 28, row.success, 1, rest);
  }

  lemma RecordReads(flight: Bytes, p: Profile, count: nat, events: nat, index: nat, g: Progress, row: Row, b: Batch)
    requires index < Bound(4) && RowFits(row) && BatchFits(p, b) && Accepts(p, index, g.counters, b)
    requires g.end <= row.first <= row.last <= count && (row.success == 0 ==> index == events - 1)
    requires Has(flight, g.offset, RowBytes(index, row, BatchBytes(p, b)))
    ensures RecordAt(flight, p, count, events, index, g) ==
      Some(Progress(g.offset + 29 + |BatchBytes(p, b)|, b.next, row.last, g.ranges + [(row.first, row.last)],
                    g.batches + [b]))
  {
    hide Has, Word, BatchAt, Accepts, BatchBytes, RowBytes, BatchFits;
    RowReads(flight, g.offset, index, row, BatchBytes(p, b));
    BatchReads(flight, g.offset + 29, p, index, g.counters, b);
  }

  // ---------- the whole artifact

  /** An artifact's operations, and its batches: one for each operation, after an
      opening one in version 8. */
  datatype Log = Log(rows: seq<Row>, batches: seq<Batch>)

  /** Ranges ascend within the block log, and only the last operation may have failed. */
  predicate RowsOk(rows: seq<Row>, count: nat) {
    && |rows| <= 1024
    && (forall i :: 0 <= i < |rows| ==>
          && RowFits(rows[i]) && End(rows, i) <= rows[i].first <= rows[i].last <= count
          && (rows[i].success == 0 ==> i == |rows| - 1))
  }

  /** Where the range before row i ends. */
  function End(rows: seq<Row>, i: nat): nat
    requires i <= |rows|
  {
    if i == 0 then 0 else rows[i - 1].last
  }

  ghost predicate LogOk(p: Profile, log: Log, count: nat) {
    && RowsOk(log.rows, count) && |log.batches| == |log.rows| - FirstIndex(p)
    && Chain(p, FirstIndex(p), log.batches) && forall b :: b in log.batches ==> BatchFits(p, b)
  }

  /** How many batches precede operation n. */
  function Batches(p: Profile, n: nat): nat { n - FirstIndex(p) }

  /** The opening batch, if any, and the first n records. */
  function BodyBytes(p: Profile, log: Log, n: nat): Bytes
    requires n <= |log.rows| && |log.batches| == |log.rows| - FirstIndex(p)
    requires forall b :: b in log.batches ==> BatchFits(p, b)
  {
    if n > 0 then
      var b := log.batches[Batches(p, n) - 1];
      assert b in log.batches;
      BodyBytes(p, log, n - 1) + RowBytes(n - 1, log.rows[n - 1], BatchBytes(p, b))
    else if p.version == 8 then
      assert log.batches[0] in log.batches;
      BatchBytes(p, log.batches[0])
    else []
  }

  function Ranges(rows: seq<Row>): (r: seq<(nat, nat)>)
    ensures |r| == |rows| && forall i :: 0 <= i < |r| ==> r[i] == (rows[i].first, rows[i].last)
  {
    seq(|rows|, i requires 0 <= i < |rows| => (rows[i].first, rows[i].last))
  }

  /** Where reading stands after n records. */
  function Reached(p: Profile, log: Log, n: nat): Progress
    requires n <= |log.rows| && |log.batches| == |log.rows| - FirstIndex(p)
    requires forall b :: b in log.batches ==> BatchFits(p, b)
  {
    Progress(HeaderSize(p.version) + |BodyBytes(p, log, n)|, Before(log.batches, Batches(p, n)), End(log.rows, n),
             Ranges(log.rows[..n]), log.batches[..Batches(p, n)])
  }

  lemma OpeningReads(flight: Bytes, p: Profile, log: Log, count: nat)
    requires LogOk(p, log, count) && Has(flight, HeaderSize(p.version), BodyBytes(p, log, 0))
    ensures Opened(flight, p) == Some(Reached(p, log, 0))
  {
    hide Has, BatchAt, BatchBytes, Accepts, BatchFits, RowsOk;
    if p.version == 8 {
      var b := log.batches[0];
      assert b in log.batches && AcceptedAt(p, -1, log.batches, 0);
      BatchReads(flight, 28, p, -1, START, b);
      assert log.batches[..1] == [b];
    }
  }

  lemma {:induction false} RecordsRead(flight: Bytes, p: Profile, log: Log, count: nat, n: nat)
    requires LogOk(p, log, count) && n <= |log.rows| && Has(flight, HeaderSize(p.version), BodyBytes(p, log, n))
    ensures ReadRecords(flight, p, count, |log.rows|, n) == Some(Reached(p, log, n))
  {
    hide Has, Opened, RecordAt, BatchFits, HeaderSize;
    if n == 0 {
      OpeningReads(flight, p, log, count);
    } else {
      OneRecord(flight, p, log, count, n);
      RecordsRead(flight, p, log, count, n - 1);
    }
  }

  lemma OneRecord(flight: Bytes, p: Profile, log: Log, count: nat, n: nat)
    requires LogOk(p, log, count) && 0 < n <= |log.rows| && Has(flight, HeaderSize(p.version), BodyBytes(p, log, n))
    ensures Has(flight, HeaderSize(p.version), BodyBytes(p, log, n - 1))
    ensures RecordAt(flight, p, count, |log.rows|, n - 1, Reached(p, log, n - 1)) == Some(Reached(p, log, n))
  {
    hide Has, BatchBytes, RowBytes, BatchFits, Accepts, RecordAt, Bound, HeaderSize, RowsOk, RowFits, Chain;
    var k := Batches(p, n) - 1;
    var row, b := log.rows[n - 1], log.batches[k];
    RecordFacts(p, log, count, n);
    Splits(flight, HeaderSize(p.version), BodyBytes(p, log, n - 1), RowBytes(n - 1, row, BatchBytes(p, b)));
    RecordReads(flight, p, count, |log.rows|, n - 1, Reached(p, log, n - 1), row, b);
    Appends(log.batches, k);
    RangesGrow(log.rows, n - 1);
  }

  lemma RecordFacts(p: Profile, log: Log, count: nat, n: nat)
    requires LogOk(p, log, count) && 0 < n <= |log.rows|
    ensures var k := Batches(p, n) - 1;
      var row, b := log.rows[n - 1], log.batches[k];
      && n - 1 < Bound(4) && b in log.batches && Accepts(p, n - 1, Before(log.batches, k), b) && RowFits(row)
      && End(log.rows, n - 1) <= row.first <= row.last <= count && (row.success == 0 ==> n - 1 == |log.rows| - 1)
  {
    Bounds();
    hide Accepts, BatchFits, RowFits, Bound;
    assert AcceptedAt(p, FirstIndex(p), log.batches, Batches(p, n) - 1);
  }

  lemma Appends<T>(s: seq<T>, k: nat)
    requires k < |s|
    ensures s[..k] + [s[k]] == s[..k + 1]
  {
  }

  lemma RangesGrow(rows: seq<Row>, n: nat)
    requires n < |rows|
    ensures Ranges(rows[..n]) + [(rows[n].first, rows[n].last)] == Ranges(rows[..n + 1])
  {
  }

  // ---------- the header

  function SinkCapacity(p: Profile): nat { if p.sink.None? then 0 else p.sink.value.capacity }

  function SinkEnd(p: Profile): nat {
    if p.sink.None? || p.sink.value.disconnectBefore.None? then 0xFFFF_FFFF else p.sink.value.disconnectBefore.value
  }

  predicate ProfileFits(p: Profile) {
    p.capacity < Bound(4) && p.categories < Bound(4) && SinkCapacity(p) < Bound(4) && SinkEnd(p) < Bound(4)
  }

  /** The version's magic, the number of operations, and the profile. */
  function HeaderBytes(p: Profile, n: nat): (r: Bytes)
    ensures |r| == HeaderSize(p.version)
  {
    var digit: Byte := if p.version == 8 then 54 else if p.version >= 6 then 53 else if p.version == 5 then 52
      else if p.version == 4 then 51 else if p.version == 3 then 50 else 49;
    var profile := if p.version < 4 then [] else
      Little(p.categories, 4) + (Little(SinkCapacity(p), 4) + (Little(SinkEnd(p), 4) + []));
    [65, 70, 83, 70, 76, 84, 48, digit] + (Little(n, 4) + if p.version < 3 then [] else Little(p.capacity, 4) + profile)
  }

  lemma HeaderReads(flight: Bytes, p: Profile, n: nat, operations: nat)
    requires ProfileFits(p) && n <= 1024 && n <= operations && Has(flight, 0, HeaderBytes(p, n))
    ensures HeaderOk(flight, p, operations) && Word(flight, 8, 4) == n
  {
    assert 1024 < Bound(4) by { Bounds(); }
    assert |flight| >= HeaderSize(p.version) && flight[..8] == HeaderBytes(p, n)[..8];
    hide Little, Bound, Word;
    var profile := if p.version < 4 then [] else
      Little(p.categories, 4) + (Little(SinkCapacity(p), 4) + (Little(SinkEnd(p), 4) + []));
    var rest := if p.version < 3 then [] else Little(p.capacity, 4) + profile;
    hide Has;
    Splits(flight, 0, HeaderBytes(p, n)[..8], Little(n, 4) + rest);
    Field(flight, 8, n, 4, rest);
    if p.version >= 3 { Field(flight, 12, p.capacity, 4, profile); }
    if p.version >= 4 {
      Field(flight, 16, p.categories, 4, Little(SinkCapacity(p), 4) + (Little(SinkEnd(p), 4) + []));
      Field(flight, 20, SinkCapacity(p), 4, Little(SinkEnd(p), 4) + []);
      Field(flight, 24, SinkEnd(p), 4, []);
    }
  }

  /** Every chain of accepted batches whose fields fit can be written field by field,
      and admission reads exactly that chain and those ranges from the bytes. */
  lemma WrittenIsAdmitted(p: Profile, log: Log, operations: nat, count: nat)
    requires ProfileFits(p) && LogOk(p, log, count) && |log.rows| <= operations
    ensures var n, flight := |log.rows|, HeaderBytes(p, |log.rows|) + BodyBytes(p, log, |log.rows|);
      && HeaderOk(flight, p, operations) && Word(flight, 8, 4) == n
      && var g := ReadRecords(flight, p, count, n, n);
         g.Some? && g.value.offset == |flight| && g.value.batches == log.batches && g.value.ranges == Ranges(log.rows)
  {
    var n := |log.rows|;
    var header, body := HeaderBytes(p, n), BodyBytes(p, log, n);
    var flight := header + body;
    assert Has(flight, 0, header) && Has(flight, HeaderSize(p.version), body);
    hide Has, HeaderBytes, BodyBytes, Chain, BatchFits, Word, HeaderOk, ReadRecords;
    HeaderReads(flight, p, n, operations);
    RecordsRead(flight, p, log, count, n);
    assert log.rows[..n] == log.rows && log.batches[..Batches(p, n)] == log.batches;
  }

  // ---------- payload areas and findings

  /** A tag and four enumeration bytes, a 32-bit field, five 64-bit fields. */
  function PayloadBytes(tag: Byte, enums: Bytes, region: nat, words: seq<nat>): (r: Bytes)
    requires |enums| == 4 && |words| == 5
    ensures |r| == PAYLOAD_BYTES
  {
    [tag] + enums + (Little(region, 4) + (Little(words[0], 8) + (Little(words[1], 8) + (Little(words[2], 8)
      + (Little(words[3], 8) + (Little(words[4], 8) + []))))))
  }

  /** A payload area written field by field is read with those fields, and a finding
      is its three enumerations, its region and its first three words. */
  lemma PayloadReads(tag: Byte, enums: Bytes, region: nat, words: seq<nat>)
    requires |enums| == 4 && |words| == 5 && region < Bound(4) && forall i :: 0 <= i < 5 ==> words[i] < Bound(8)
    ensures var blob := PayloadBytes(tag, enums, region, words);
      && PayloadOf(blob) == Payload(tag, [enums[0], enums[1], enums[2], enums[3]], region, words)
      && FindingOf(blob) == Finding(enums[0], enums[1], enums[2], region, words[0], words[1], words[2])
  {
    var blob := PayloadBytes(tag, enums, region, words);
    hide Little, Bound, Word;
    var r5 := Little(words[4], 8) + [];
    var r4 := Little(words[3], 8) + r5;
    var r3 := Little(words[2], 8) + r4;
    var r2 := Little(words[1], 8) + r3;
    var r1 := Little(words[0], 8) + r2;
    Starts(blob, tag, enums, Little(region, 4) + r1);
    hide PayloadBytes, Has;
    Field(blob, 5, region, 4, r1);
    Field(blob, 9, words[0], 8, r2);
    Field(blob, 17, words[1], 8, r3);
    Field(blob, 25, words[2], 8, r4);
    Field(blob, 33, words[3], 8, r5);
    Field(blob, 41, words[4], 8, []);
    assert words == [words[0], words[1], words[2], words[3], words[4]];
  }

  lemma Starts(blob: Bytes, tag: Byte, enums: Bytes, rest: Bytes)
    requires |enums| == 4 && blob == [tag] + enums + rest
    ensures blob[0] == tag && blob[1] == enums[0] && blob[2] == enums[1] && blob[3] == enums[2] && blob[4] == enums[3]
    ensures Has(blob, 5, rest)
  {
    assert blob[5..5 + |rest|] == rest;
  }
}
