/** Admission of the flight recorder's batches and what every admitted artifact obeys. */
module Flight {
  import opened Basics
  import opened FlightPayload
  import Scenario

  const API_METHOD_MAX := 84
  const NEVER := 0xffffffff

  /** The part of a scenario that selects what its artifact records. */
  datatype Profile = Profile(version: nat, capacity: nat, categories: nat, sink: Option<Scenario.Sink>)

  /** Running totals carried from one batch to the next. */
  datatype Counters = Counters(
    sequence: nat, attempt: nat, lost: nat, filtered: nat, delivered: nat, missed: nat, closed: nat)

  const START := Counters(0, 0, 0, 0, 0, 0, 0)

  datatype Event = Event(
    sequence: nat, attempt: nat, generation: nat, kind: nat, remount: nat,
    operation: nat, span: nat, parent: nat, method_: nat, window: nat, group: nat,
    present: nat, id: nat, block: nat, view: nat, payload: Bytes)

  datatype Batch = Batch(next: Counters, events: seq<Event>)

  // ---------- the wire

  function EventSize(version: nat): (n: nat)
    ensures n >= 26
  {
    if version == 8 then 138 else if version >= 6 then 89 else if version >= 5 then 64 else 26
  }

  /** The counters and the number of retained events at the head of a batch. */
  function HeadAt(flight: Bytes, at: nat): (Counters, nat)
    requires at + 53 <= |flight|
  {
    (Counters(Word(flight, at + 16, 8), Word(flight, at + 24, 8), Word(flight, at, 8), Word(flight, at + 8, 8),
              Word(flight, at + 32, 8), Word(flight, at + 40, 8), Word(flight, at + 48, 1)),
     Word(flight, at + 49, 4))
  }

  function EventAt(flight: Bytes, at: nat, version: nat): Event
    requires at + EventSize(version) <= |flight|
  {
    var extended, objects := version >= 5, version >= 6;
    Event(
      Word(flight, at, 8), Word(flight, at + 8, 8), Word(flight, at + 16, 8),
      Word(flight, at + 24, 1), Word(flight, at + 25, 1),
      if extended then Word(flight, at + 26, 8) else 0,
      if extended then Word(flight, at + 34, 8) else 0,
      if extended then Word(flight, at + 42, 8) else 0,
      if extended then Word(flight, at + 50, 2) else 0,
      if extended then Word(flight, at + 52, 8) else 0,
      if extended then Word(flight, at + 60, 4) else 0,
      if objects then Word(flight, at + 64, 1) else 0,
      if objects then Word(flight, at + 65, 8) else 0,
      if objects then Word(flight, at + 73, 8) else 0,
      if objects then Word(flight, at + 81, 8) else 0,
      if version == 8 then flight[at + 89..at + 138] else [])
  }

  function EventsAt(flight: Bytes, at: nat, n: nat, version: nat): (events: seq<Event>)
    requires at + n * EventSize(version) <= |flight|
    ensures |events| == n
  {
    if n == 0 then [] else
      EventsAt(flight, at, n - 1, version) + [EventAt(flight, at + (n - 1) * EventSize(version), version)]
  }

  // ---------- one event

  predicate CommitTail(kind: nat) { 1 <= kind <= 7 || kind == 59 || kind == 60 }

  /** The category bit of a kind, or zero for a kind the version does not have. */
  function Category(version: nat, kind: nat): nat {
    if kind == 1 || kind == 6 then 1
    else if kind == 2 then 4
    else if 3 <= kind <= 5 then 2
    else if kind == 7 then 8
    else if 8 <= kind <= 11 && version >= 5 then 16
    else if 12 <= kind <= 19 && version >= 5 then 32
    else if 20 <= kind <= 22 && version >= 6 then 64
    else if version != 8 then 0
    else if 23 <= kind <= 26 then 128
    else if 27 <= kind <= 31 then 256
    else if 32 <= kind <= 38 then 512
    else if 39 <= kind <= 45 then 1024
    else if 46 <= kind <= 50 then 2048
    else if 51 <= kind <= 55 then 4096
    else if 56 <= kind <= 58 then 8192
    else if 59 <= kind <= 60 then 4
    else if 61 <= kind <= 64 then 16384
    else 0
  }

  predicate Selected(categories: nat, bit: nat) { bit != 0 && categories / bit % 2 == 1 }

  predicate IdentityOk(p: Profile, next: Counters, cursor: nat, observed: nat, e: Event) {
    var extended, tail := p.version >= 5, CommitTail(e.kind);
    && cursor < e.sequence <= next.sequence
    && ((extended && !tail && e.attempt == 0) || observed <= e.attempt <= next.attempt)
    && (e.attempt == 0 ==> extended && !tail)
    && e.attempt <= e.sequence
    && (e.generation == 0 ==> p.version == 8 && (e.kind == 39 || e.kind == 45))
    && (e.kind == 39 ==> e.generation == 0)
    && Selected(p.categories, Category(p.version, e.kind))
    && e.remount <= 1 && (e.kind == 6 ==> e.remount == 0)
    && (e.kind == 1 ==> e.attempt != observed)
  }

  predicate ContextOk(p: Profile, e: Event) {
    p.version >= 5 ==>
      && (e.span == 0 ==> e.operation == 0 && e.parent == 0 && e.method_ == 0)
      && (e.span != 0 ==>
          && 1 <= e.method_ <= API_METHOD_MAX && 0 < e.operation <= e.span <= e.sequence && e.parent < e.span
          && (e.parent == 0 ==> e.operation == e.span) && (e.parent != 0 ==> e.operation <= e.parent))
      && (8 <= e.kind <= 11 ==> e.span != 0)
      && (!CommitTail(e.kind) ==> e.attempt == 0)
      && e.window <= e.sequence
      && (e.window == 0 && e.group != 0 ==> p.version == 8 && 39 <= e.kind <= 45)
      && (12 <= e.kind <= 19 ==> e.window != 0)
      && (14 <= e.kind <= 16 ==> e.group != 0)
  }

  predicate ObjectOk(p: Profile, e: Event) {
    p.version >= 6 ==>
      && e.present == (if 20 <= e.kind <= 22 then 1 else 0)
      && (e.present == 0 ==> e.id == 0 && e.block == 0 && e.view == 0)
      && (e.kind == 20 || e.kind == 22 ==> e.block == 0)
      && (p.version == 8 ==> PayloadOk(e.kind, e.payload, e.generation))
  }

  /** Where the scan of a batch stands: the last sequence, the highest attempt,
      and the context each span was first seen with. */
  datatype Scan = Scan(cursor: nat, observed: nat, contexts: map<nat, (nat, nat, nat)>)

  function ScanStep(p: Profile, previous: Counters, next: Counters, s: Scan, ordinal: nat, e: Event): Option<Scan> {
    var context := (e.operation, e.parent, e.method_);
    if !IdentityOk(p, next, s.cursor, s.observed, e) then None
    else if ordinal == 0 && e.sequence - previous.sequence - 1 < next.lost - previous.lost then None
    else if !ContextOk(p, e) then None
    else if p.version >= 5 && e.span in s.contexts && s.contexts[e.span] != context then None
    else if !ObjectOk(p, e) then None
    else Some(Scan(e.sequence, if e.attempt > s.observed then e.attempt else s.observed,
                   if p.version >= 5 && e.span != 0 then s.contexts[e.span := context] else s.contexts))
  }

  function ScanAll(p: Profile, previous: Counters, next: Counters, events: seq<Event>): Option<Scan> {
    if events == [] then Some(Scan(previous.sequence, previous.attempt, map[])) else
      var n := |events| - 1;
      var s := ScanAll(p, previous, next, events[..n]);
      if s.None? then None else ScanStep(p, previous, next, s.value, n, events[n])
  }

  // ---------- one batch

  predicate Disconnected(sink: Scenario.Sink, index: int) {
    sink.disconnectBefore.Some? && index >= sink.disconnectBefore.value
  }

  /** Counter rules of one batch with so many retained events. */
  predicate HeadOk(p: Profile, index: int, previous: Counters, next: Counters, retained: nat) {
    var selected := next.sequence - previous.sequence - (next.filtered - previous.filtered);
    && next.sequence >= previous.sequence && next.attempt >= previous.attempt && next.lost >= previous.lost
    && next.filtered >= previous.filtered && next.delivered >= previous.delivered && next.missed >= previous.missed
    && next.closed <= 1 && next.attempt <= next.sequence
    && next.attempt - previous.attempt <= next.sequence - previous.sequence
    && (p.version < 5 ==> (next.sequence == 0 <==> next.attempt == 0))
    && selected >= 0 && retained == Smaller(p.capacity, selected) && next.lost - previous.lost == selected - retained
    && (p.sink.None? ==> next.delivered == 0 && next.missed == 0 && next.closed == 0)
    && (p.sink.Some? ==>
        var gone := Disconnected(p.sink.value, index);
        var accepted := if gone then 0 else Smaller(p.sink.value.capacity, selected);
        && next.delivered == previous.delivered + accepted
        && next.missed == previous.missed + selected - accepted
        && next.closed == if previous.closed != 0 || (gone && selected != 0) then 1 else 0)
  }

  /** One event of version 3: the next sequence, and an attempt that does not go back. */
  predicate InternalEventOk(cursor: nat, attempt: nat, e: Event) {
    && e.sequence == cursor + 1 && attempt <= e.attempt && 0 < e.attempt <= e.sequence && e.generation != 0
    && 1 <= e.kind <= 7 && e.remount <= 1 && (e.kind == 6 ==> e.remount == 0)
  }

  /** The last sequence and attempt of consecutive events. */
  function InternalScan(cursor: nat, attempt: nat, events: seq<Event>): Option<(nat, nat)> {
    if events == [] then Some((cursor, attempt)) else
      var n := |events| - 1;
      var s := InternalScan(cursor, attempt, events[..n]);
      if s.None? || !InternalEventOk(s.value.0, s.value.1, events[n]) then None
      else Some((events[n].sequence, events[n].attempt))
  }

  /** Loss rules of version 3: only a full batch may follow lost events. */
  predicate LossOk(p: Profile, previous: Counters, lost: nat, retained: nat) {
    retained <= p.capacity && previous.lost <= lost && (previous.lost < lost ==> retained == p.capacity)
  }

  /** A batch of version 3 continues the sequence after the events it lost. */
  predicate InternalOk(p: Profile, previous: Counters, b: Batch) {
    && LossOk(p, previous, b.next.lost, |b.events|)
    && InternalScan(previous.sequence + b.next.lost - previous.lost, previous.attempt, b.events) ==
       Some((b.next.sequence, b.next.attempt))
    && b.next == previous.(sequence := b.next.sequence, attempt := b.next.attempt, lost := b.next.lost)
  }

  predicate SelectedOk(p: Profile, index: int, previous: Counters, b: Batch) {
    && HeadOk(p, index, previous, b.next, |b.events|)
    && ScanAll(p, previous, b.next, b.events).Some?
  }

  /** The rules of each version; the first two record no events. */
  predicate Accepts(p: Profile, index: int, previous: Counters, b: Batch) {
    if p.version >= 4 then SelectedOk(p, index, previous, b)
    else if p.version == 3 then InternalOk(p, previous, b)
    else b == Batch(previous, [])
  }

  /** The batch at an offset, when it is whole and accepted. */
  function SelectedAt(flight: Bytes, at: nat, p: Profile, index: int, previous: Counters): (r: Option<(nat, Batch)>)
    ensures r.Some? ==> SelectedOk(p, index, previous, r.value.1)
  {
    if |flight| - at < 53 then None else
      var (next, retained) := HeadAt(flight, at);
      if !HeadOk(p, index, previous, next, retained) then None
      else if |flight| - (at + 53) < retained * EventSize(p.version) then None
      else
        var events := EventsAt(flight, at + 53, retained, p.version);
        if ScanAll(p, previous, next, events).None? then None
        else Some((at + 53 + retained * EventSize(p.version), Batch(next, events)))
  }

  function InternalAt(flight: Bytes, at: nat, p: Profile, previous: Counters): (r: Option<(nat, Batch)>)
    ensures r.Some? ==> InternalOk(p, previous, r.value.1)
  {
    if |flight| - at < 12 then None else
      var lost, retained := Word(flight, at, 8), Word(flight, at + 8, 4);
      if !LossOk(p, previous, lost, retained) || |flight| - (at + 12) < retained * EventSize(3) then None
      else
        var events := EventsAt(flight, at + 12, retained, 3);
        var s := InternalScan(previous.sequence + lost - previous.lost, previous.attempt, events);
        if s.None? then None
        else Some((at + 12 + retained * EventSize(3),
                   Batch(previous.(sequence := s.value.0, attempt := s.value.1, lost := lost), events)))
  }

  function BatchAt(flight: Bytes, at: nat, p: Profile, index: int, previous: Counters): (r: Option<(nat, Batch)>)
    ensures r.Some? ==> Accepts(p, index, previous, r.value.1)
  {
    if p.version >= 4 then SelectedAt(flight, at, p, index, previous)
    else if p.version == 3 then InternalAt(flight, at, p, previous)
    else Some((at, Batch(previous, [])))
  }

  lemma EventsGrow(flight: Bytes, at: nat, n: nat, k: nat, version: nat)
    requires k < n && at + n * EventSize(version) <= |flight|
    ensures at + (k + 1) * EventSize(version) <= |flight|
    ensures at + k * EventSize(version) + EventSize(version) <= |flight|
    ensures EventsAt(flight, at, n, version)[k] == EventAt(flight, at + k * EventSize(version), version)
  {
    TimesGrows(k + 1, n, EventSize(version));
    assert (k + 1) * EventSize(version) == k * EventSize(version) + EventSize(version);
    if k < n - 1 {
      TimesGrows(n - 1, n, EventSize(version));
      EventsGrow(flight, at, n - 1, k, version);
    }
  }

  lemma TimesGrows(a: nat, b: nat, c: nat)
    requires a <= b
    ensures a * c <= b * c
  {
  }

  method ScanBatch(flight: Bytes, at: nat, retained: nat, p: Profile, previous: Counters, next: Counters)
    returns (ok: bool, offset: nat)
    requires at + retained * EventSize(p.version) <= |flight|
    ensures ok == ScanAll(p, previous, next, EventsAt(flight, at, retained, p.version)).Some?
    ensures ok ==> offset == at + retained * EventSize(p.version)
  {
    hide ScanStep, EventAt, EventSize;
    ghost var events := EventsAt(flight, at, retained, p.version);
    var s := Scan(previous.sequence, previous.attempt, map[]);
    offset := at;
    var ordinal := 0;
    while ordinal < retained
      invariant ordinal <= retained && offset == at + ordinal * EventSize(p.version)
      invariant ScanAll(p, previous, next, events[..ordinal]) == Some(s)
    {
      EventsGrow(flight, at, retained, ordinal, p.version);
      assert events[..ordinal + 1][..ordinal] == events[..ordinal];
      var step := ScanStep(p, previous, next, s, ordinal, EventAt(flight, offset, p.version));
      if step.None? {
        ScanStops(p, previous, next, events, ordinal + 1);
        return false, offset;
      }
      s := step.value;
      offset := offset + EventSize(p.version);
      ordinal := ordinal + 1;
    }
    assert events[..ordinal] == events;
    ok := true;
  }

  lemma {:induction false} ScanStops(p: Profile, previous: Counters, next: Counters, events: seq<Event>, n: nat)
    requires n <= |events| && ScanAll(p, previous, next, events[..n]).None?
    ensures ScanAll(p, previous, next, events).None?
  {
    hide ScanStep;
    if n == |events| {
      assert events[..n] == events;
    } else {
      var m := |events| - 1;
      assert events[..m][..n] == events[..n];
      ScanStops(p, previous, next, events[..m], n);
    }
  }

  method SelectedBatch(flight: Bytes, at: nat, p: Profile, index: int, previous: Counters)
    returns (r: Option<(nat, Counters)>)
    ensures r == Ends(SelectedAt(flight, at, p, index, previous))
  {
    hide HeadAt, HeadOk, EventSize;
    if |flight| - at < 53 { return None; }
    var (next, retained) := HeadAt(flight, at);
    if !HeadOk(p, index, previous, next, retained) { return None; }
    if |flight| - (at + 53) < retained * EventSize(p.version) { return None; }
    var ok, offset := ScanBatch(flight, at + 53, retained, p, previous, next);
    return if ok then Some((offset, next)) else None;
  }

  /** Where a batch ends and the counters it leaves. */
  function Ends(r: Option<(nat, Batch)>): Option<(nat, Counters)> {
    if r.None? then None else Some((r.value.0, r.value.1.next))
  }

  lemma {:induction false} InternalStops(cursor: nat, attempt: nat, events: seq<Event>, n: nat)
    requires n <= |events| && InternalScan(cursor, attempt, events[..n]).None?
    ensures InternalScan(cursor, attempt, events).None?
  {
    if n == |events| {
      assert events[..n] == events;
    } else {
      var m := |events| - 1;
      assert events[..m][..n] == events[..n];
      InternalStops(cursor, attempt, events[..m], n);
    }
  }

  /** The event loop of version 3. */
  method ScanInternal(flight: Bytes, at: nat, retained: nat, cursor: nat, floor: nat) returns (r: Option<(nat, nat)>)
    requires at + retained * EventSize(3) <= |flight|
    ensures r == InternalScan(cursor, floor, EventsAt(flight, at, retained, 3))
  {
    hide EventAt, InternalEventOk, EventsAt, EventSize;
    ghost var events := EventsAt(flight, at, retained, 3);
    var sequence, attempt, offset := cursor, floor, at;
    for ordinal := 0 to retained
      invariant offset == at + ordinal * EventSize(3)
      invariant InternalScan(cursor, floor, events[..ordinal]) == Some((sequence, attempt))
    {
      EventsGrow(flight, at, retained, ordinal, 3);
      assert events[..ordinal + 1][..ordinal] == events[..ordinal];
      var e := EventAt(flight, offset, 3);
      if !InternalEventOk(sequence, attempt, e) {
        InternalStops(cursor, floor, events, ordinal + 1);
        return None;
      }
      sequence, attempt, offset := e.sequence, e.attempt, offset + EventSize(3);
    }
    assert events[..retained] == events;
    r := Some((sequence, attempt));
  }

  /** The batch of version 3. */
  method InternalBatch(flight: Bytes, at: nat, p: Profile, previous: Counters) returns (r: Option<(nat, Counters)>)
    ensures r == Ends(InternalAt(flight, at, p, previous))
  {
    hide Word, InternalScan, EventsAt, EventSize;
    if |flight| - at < 12 { return None; }
    var lost, retained := Word(flight, at, 8), Word(flight, at + 8, 4);
    if retained > p.capacity || lost < previous.lost || (lost > previous.lost && retained != p.capacity) {
      return None;
    }
    if |flight| - (at + 12) < retained * EventSize(3) { return None; }
    var s := ScanInternal(flight, at + 12, retained, previous.sequence + lost - previous.lost, previous.attempt);
    if s.None? { return None; }
    r := Some((at + 12 + retained * EventSize(3),
               previous.(sequence := s.value.0, attempt := s.value.1, lost := lost)));
  }

  // ---------- chains of batches

  function Before(batches: seq<Batch>, i: nat): Counters
    requires i <= |batches|
  {
    if i == 0 then START else batches[i - 1].next
  }

  predicate AcceptedAt(p: Profile, first: int, batches: seq<Batch>, i: nat)
    requires i < |batches|
  {
    Accepts(p, first + i, Before(batches, i), batches[i])
  }

  /** Each batch is accepted after the one before it; first is the index of the
      first batch's operation. */
  ghost predicate Chain(p: Profile, first: int, batches: seq<Batch>) {
    forall i: nat {:trigger AcceptedAt(p, first, batches, i)} ::
      i < |batches| ==> AcceptedAt(p, first, batches, i)
  }

  lemma ChainPrefix(p: Profile, first: int, batches: seq<Batch>, n: nat)
    requires Chain(p, first, batches) && n <= |batches|
    ensures Chain(p, first, batches[..n]) && Before(batches[..n], n) == Before(batches, n)
  {
    hide Accepts;
    forall i: nat | i < n ensures AcceptedAt(p, first, batches[..n], i) {
      assert AcceptedAt(p, first, batches, i) && Before(batches[..n], i) == Before(batches, i);
    }
  }

  function Events(batches: seq<Batch>): seq<Event> {
    if batches == [] then [] else Events(batches[..|batches| - 1]) + batches[|batches| - 1].events
  }

  /** Only the versions with categories have a sink. */
  predicate HasSink(p: Profile) { p.version >= 4 && p.sink.Some? }

  /** Every selected event is retained or lost, and every event is selected or
      filtered; a sink sees exactly the selected ones. */
  lemma {:induction false} ChainConserves(p: Profile, first: int, batches: seq<Batch>)
    requires Chain(p, first, batches)
    ensures var c := Before(batches, |batches|);
      && c.sequence == c.filtered + c.lost + |Events(batches)|
      && c.attempt <= c.sequence
      && (HasSink(p) ==> c.delivered + c.missed == c.sequence - c.filtered)
      && (!HasSink(p) ==> c.delivered == 0 && c.missed == 0 && c.closed == 0)
  {
    hide ScanAll, InternalScan;
    if batches != [] {
      var n := |batches| - 1;
      ChainPrefix(p, first, batches, n);
      ChainConserves(p, first, batches[..n]);
      assert AcceptedAt(p, first, batches, n);
      if p.version == 3 {
        var previous, b := Before(batches, n), batches[n];
        InternalIsConsecutive(previous.sequence + b.next.lost - previous.lost, previous.attempt, b.events);
      }
    }
  }

  /** Attempts never decrease and stay between floor and top. */
  ghost predicate Steady(events: seq<Event>, floor: nat, top: nat) {
    && (forall i :: 0 <= i < |events| ==> floor <= events[i].attempt <= top)
    && (forall i, j :: 0 <= i < j < |events| ==> events[i].attempt <= events[j].attempt)
  }

  /** The events of one batch of version 3 are consecutive. */
  lemma {:induction false} InternalIsConsecutive(cursor: nat, attempt: nat, events: seq<Event>)
    requires InternalScan(cursor, attempt, events).Some?
    ensures var s := InternalScan(cursor, attempt, events).value;
      && s.0 == cursor + |events| && attempt <= s.1 && (attempt <= cursor ==> s.1 <= s.0)
      && (forall i :: 0 <= i < |events| ==> events[i].sequence == cursor + 1 + i) && Steady(events, attempt, s.1)
  {
    if events != [] {
      var n := |events| - 1;
      InternalIsConsecutive(cursor, attempt, events[..n]);
      assert events == events[..n] + [events[n]];
      assert forall i :: 0 <= i < n ==> events[..n][i] == events[i];
    }
  }

  /** Across an artifact of version 3 sequences strictly increase and attempts never
      decrease. */
  lemma {:induction false} InternalChainIsOrdered(p: Profile, first: int, batches: seq<Batch>)
    requires p.version == 3 && Chain(p, first, batches)
    ensures var c := Before(batches, |batches|);
      Sequenced(Events(batches), 0, c.sequence) && Steady(Events(batches), 0, c.attempt)
  {
    hide InternalScan, Sequenced, Steady;
    if batches != [] {
      var n := |batches| - 1;
      ChainPrefix(p, first, batches, n);
      InternalChainIsOrdered(p, first, batches[..n]);
      var previous, b := Before(batches, n), batches[n];
      assert AcceptedAt(p, first, batches, n);
      var cursor := previous.sequence + b.next.lost - previous.lost;
      InternalIsConsecutive(cursor, previous.attempt, b.events);
      ConsecutiveIsSequenced(b.events, previous.sequence, cursor, b.next.sequence);
      SequencedJoins(Events(batches[..n]), b.events, 0, previous.sequence, b.next.sequence);
      SteadyJoins(Events(batches[..n]), b.events, 0, previous.attempt, b.next.attempt);
    } else {
      EmptyIsOrdered();
    }
  }

  lemma EmptyIsOrdered()
    ensures Sequenced([], 0, 0) && Steady([], 0, 0)
  {
  }

  lemma ConsecutiveIsSequenced(events: seq<Event>, low: nat, cursor: nat, high: nat)
    requires low <= cursor && cursor + |events| == high
    requires forall i :: 0 <= i < |events| ==> events[i].sequence == cursor + 1 + i
    ensures Sequenced(events, low, high)
  {
  }

  lemma SteadyJoins(a: seq<Event>, b: seq<Event>, floor: nat, middle: nat, top: nat)
    requires Steady(a, floor, middle) && Steady(b, middle, top) && floor <= middle <= top
    ensures Steady(a + b, floor, top)
  {
    var c, n := a + b, |a|;
    assert forall i :: 0 <= i < |c| ==> c[i] == if i < n then a[i] else b[i - n];
  }

  /** Once the sink is closed it stays closed and nothing more is delivered. */
  lemma {:induction false} ClosedStaysClosed(p: Profile, first: int, batches: seq<Batch>, i: nat, j: nat)
    requires Chain(p, first, batches) && i <= j <= |batches|
    ensures Before(batches, i).closed == 1 ==>
      Before(batches, j).closed == 1 && Before(batches, j).delivered == Before(batches, i).delivered
    decreases j
  {
    if Before(batches, i).closed == 1 {
      ClosedMeansGone(p, first, batches, i);
      if i < j {
        ClosedStaysClosed(p, first, batches, i, j - 1);
        assert AcceptedAt(p, first, batches, j - 1);
      }
    }
  }

  lemma {:induction false} ClosedMeansGone(p: Profile, first: int, batches: seq<Batch>, i: nat)
    requires Chain(p, first, batches) && i <= |batches| && Before(batches, i).closed == 1
    ensures i > 0 && HasSink(p) && Disconnected(p.sink.value, first + i - 1)
  {
    assert i > 0;
    assert AcceptedAt(p, first, batches, i - 1);
    if i > 1 { assert AcceptedAt(p, first, batches, i - 2); }
    if Before(batches, i - 1).closed == 1 { ClosedMeansGone(p, first, batches, i - 1); }
  }

  /** Once the sink is gone nothing more is delivered, and an event that is
      selected after that closes it. */
  lemma {:induction false} NothingAfterDisconnection(
    p: Profile, first: int, batches: seq<Batch>, i: nat, j: nat)
    requires Chain(p, first, batches) && HasSink(p) && Disconnected(p.sink.value, first + i)
    requires i <= j <= |batches|
    ensures Before(batches, j).delivered == Before(batches, i).delivered
    ensures var c, d := Before(batches, i), Before(batches, j);
      d.sequence - d.filtered > c.sequence - c.filtered ==> d.closed == 1
    decreases j
  {
    if i < j {
      NothingAfterDisconnection(p, first, batches, i, j - 1);
      assert AcceptedAt(p, first, batches, j - 1);
    }
  }

  // ---------- identities

  /** Sequences strictly increase within (low, high]. */
  ghost predicate Sequenced(events: seq<Event>, low: nat, high: nat) {
    && (forall i :: 0 <= i < |events| ==> low < events[i].sequence <= high)
    && (forall i, j :: 0 <= i < j < |events| ==> events[i].sequence < events[j].sequence)
  }

  /** Nonzero attempts never decrease and stay between floor and top, and each
      BEGIN opens an attempt above floor and above every earlier one. */
  ghost predicate Attempted(events: seq<Event>, floor: nat, top: nat) {
    && (forall i :: 0 <= i < |events| && events[i].attempt != 0 ==> floor <= events[i].attempt <= top)
    && (forall i, j :: 0 <= i < j < |events| && events[j].attempt != 0 ==> events[i].attempt <= events[j].attempt)
    && (forall j :: 0 <= j < |events| && events[j].kind == 1 ==> floor < events[j].attempt)
    && (forall i, j :: 0 <= i < j < |events| && events[j].kind == 1 ==> events[i].attempt < events[j].attempt)
  }

  ghost predicate Ordered(events: seq<Event>, low: nat, high: nat, floor: nat, top: nat) {
    Sequenced(events, low, high) && Attempted(events, floor, top)
  }

  lemma OrderedOne(p: Profile, next: Counters, cursor: nat, observed: nat, e: Event)
    requires IdentityOk(p, next, cursor, observed, e)
    ensures Ordered([e], cursor, e.sequence, observed, if e.attempt > observed then e.attempt else observed)
  {
  }

  lemma SequencedJoins(a: seq<Event>, b: seq<Event>, low: nat, mid: nat, high: nat)
    requires Sequenced(a, low, mid) && Sequenced(b, mid, high) && low <= mid <= high
    ensures Sequenced(a + b, low, high)
  {
    var c, n := a + b, |a|;
    assert forall i :: 0 <= i < |c| ==> c[i] == if i < n then a[i] else b[i - n];
  }

  lemma AttemptedJoins(a: seq<Event>, b: seq<Event>, floor: nat, middle: nat, top: nat)
    requires Attempted(a, floor, middle) && Attempted(b, middle, top) && floor <= middle <= top
    ensures Attempted(a + b, floor, top)
  {
    var c, n := a + b, |a|;
    assert forall i :: 0 <= i < |c| ==> c[i] == if i < n then a[i] else b[i - n];
    assert forall i :: 0 <= i < n ==> a[i].attempt <= middle;
    assert forall j :: n <= j < |c| && c[j].attempt != 0 ==> middle <= c[j].attempt;
    assert forall j :: n <= j < |c| && c[j].kind == 1 ==> middle < c[j].attempt;
  }

  lemma OrderedJoins(a: seq<Event>, b: seq<Event>, low: nat, mid: nat, high: nat, floor: nat, middle: nat, top: nat)
    requires Ordered(a, low, mid, floor, middle) && Ordered(b, mid, high, middle, top)
    requires low <= mid <= high && floor <= middle <= top
    ensures Ordered(a + b, low, high, floor, top)
  {
    hide Sequenced, Attempted;
    SequencedJoins(a, b, low, mid, high);
    AttemptedJoins(a, b, floor, middle, top);
  }

  lemma {:induction false} ScanIsOrdered(p: Profile, previous: Counters, next: Counters, events: seq<Event>)
    requires ScanAll(p, previous, next, events).Some?
    requires previous.sequence <= next.sequence && previous.attempt <= next.attempt
    ensures var s := ScanAll(p, previous, next, events).value;
      && Ordered(events, previous.sequence, s.cursor, previous.attempt, s.observed)
      && previous.sequence <= s.cursor <= next.sequence && previous.attempt <= s.observed <= next.attempt
  {
    if events != [] {
      var n := |events| - 1;
      ScanIsOrdered(p, previous, next, events[..n]);
      var s, t := ScanAll(p, previous, next, events[..n]).value, ScanAll(p, previous, next, events).value;
      OrderedOne(p, next, s.cursor, s.observed, events[n]);
      OrderedJoins(events[..n], [events[n]], previous.sequence, s.cursor, t.cursor, previous.attempt, s.observed,
        t.observed);
      assert events == events[..n] + [events[n]];
    }
  }

  /** Across the whole artifact retained sequences strictly increase, nonzero
      attempts never decrease, and each BEGIN opens an attempt above all earlier ones. */
  lemma {:induction false} ChainIsOrdered(p: Profile, first: int, batches: seq<Batch>)
    requires p.version >= 4 && Chain(p, first, batches)
    ensures Ordered(Events(batches), 0, Before(batches, |batches|).sequence, 0, Before(batches, |batches|).attempt)
  {
    if batches != [] {
      var n := |batches| - 1;
      ChainPrefix(p, first, batches, n);
      ChainIsOrdered(p, first, batches[..n]);
      var previous, b := Before(batches, n), batches[n];
      assert AcceptedAt(p, first, batches, n);
      ScanIsOrdered(p, previous, b.next, b.events);
      var s := ScanAll(p, previous, b.next, b.events).value;
      OrderedWidens(b.events, previous.sequence, s.cursor, b.next.sequence, previous.attempt, s.observed,
        b.next.attempt);
      OrderedJoins(Events(batches[..n]), b.events, 0, previous.sequence, b.next.sequence, 0, previous.attempt,
        b.next.attempt);
    }
  }

  lemma OrderedWidens(a: seq<Event>, low: nat, mid: nat, high: nat, floor: nat, middle: nat, top: nat)
    requires Ordered(a, low, mid, floor, middle) && mid <= high && middle <= top
    ensures Ordered(a, low, high, floor, top)
  {
  }

  // ---------- the whole artifact

  /** What has been read after some operation records. */
  datatype Progress = Progress(offset: nat, counters: Counters, end: nat, ranges: seq<(nat, nat)>, batches: seq<Batch>)

  function HeaderSize(version: nat): nat { if version >= 4 then 28 else if version == 3 then 16 else 12 }

  function Opened(flight: Bytes, p: Profile): Option<Progress> {
    if p.version != 8 then Some(Progress(HeaderSize(p.version), START, 0, [], []))
    else
      var b := BatchAt(flight, 28, p, -1, START);
      if b.None? then None else Some(Progress(b.value.0, b.value.1.next, 0, [], [b.value.1]))
  }

  /** One operation record and its batch. */
  function RecordAt(flight: Bytes, p: Profile, count: nat, events: nat, index: nat, g: Progress): Option<Progress> {
    if |flight| - g.offset < 29 then None else
      var first, last, success :=
        Word(flight, g.offset + 4, 8), Word(flight, g.offset + 12, 8), Word(flight, g.offset + 28, 1);
      if Word(flight, g.offset, 4) != index || !(g.end <= first <= last <= count) || success > 1 then None
      else if success == 0 && index != events - 1 then None
      else
        var b := BatchAt(flight, g.offset + 29, p, index, g.counters);
        if b.None? then None
        else Some(Progress(b.value.0, b.value.1.next, last, g.ranges + [(first, last)], g.batches + [b.value.1]))
  }

  function ReadRecords(flight: Bytes, p: Profile, count: nat, events: nat, n: nat): Option<Progress> {
    if n == 0 then Opened(flight, p) else
      var g := ReadRecords(flight, p, count, events, n - 1);
      if g.None? then None else RecordAt(flight, p, count, events, n - 1, g.value)
  }

  /** The operation index of the first batch. */
  function FirstIndex(p: Profile): int { if p.version == 8 then -1 else 0 }

  /** The batches read so far chain up, and the block ranges ascend. */
  lemma {:induction false} RecordsChain(flight: Bytes, p: Profile, count: nat, events: nat, n: nat)
    requires ReadRecords(flight, p, count, events, n).Some?
    ensures var g := ReadRecords(flight, p, count, events, n).value;
      && Chain(p, FirstIndex(p), g.batches) && g.counters == Before(g.batches, |g.batches|)
      && |g.ranges| == n && |g.batches| == n - FirstIndex(p) && g.end <= count
      && (forall i :: 0 <= i < n ==> g.ranges[i].0 <= g.ranges[i].1 <= g.end)
      && (forall i, j :: 0 <= i < j < n ==> g.ranges[i].1 <= g.ranges[j].0)
  {
    hide Accepts, RecordAt, Opened;
    var g := ReadRecords(flight, p, count, events, n).value;
    if n == 0 {
      OpenedChain(flight, p);
    } else {
      RecordsChain(flight, p, count, events, n - 1);
      var before := ReadRecords(flight, p, count, events, n - 1).value;
      var b := RecordGrows(flight, p, count, events, n - 1, before);
      ChainGrows(p, FirstIndex(p), before.batches, b);
    }
  }

  /** Both results for the bytes of any artifact that is read to its end. */
  lemma ArtifactIsSound(flight: Bytes, p: Profile, count: nat, events: nat)
    requires ReadRecords(flight, p, count, events, events).Some?
    ensures var g := ReadRecords(flight, p, count, events, events).value;
      && g.counters.sequence == g.counters.filtered + g.counters.lost + |Events(g.batches)|
      && (HasSink(p) ==> g.counters.delivered + g.counters.missed == g.counters.sequence - g.counters.filtered)
      && (p.version >= 4 ==> Ordered(Events(g.batches), 0, g.counters.sequence, 0, g.counters.attempt))
      && (p.version == 3 ==>
            Sequenced(Events(g.batches), 0, g.counters.sequence) && Steady(Events(g.batches), 0, g.counters.attempt))
      && (p.version < 3 ==> Events(g.batches) == [])
  {
    hide ReadRecords, Ordered, AcceptedAt, Sequenced, Steady;
    var g := ReadRecords(flight, p, count, events, events).value;
    RecordsChain(flight, p, count, events, events);
    ChainConserves(p, FirstIndex(p), g.batches);
    if p.version >= 4 {
      ChainIsOrdered(p, FirstIndex(p), g.batches);
    } else if p.version == 3 {
      InternalChainIsOrdered(p, FirstIndex(p), g.batches);
    } else {
      QuietChain(p, FirstIndex(p), g.batches);
    }
  }

  lemma {:induction false} QuietChain(p: Profile, first: int, batches: seq<Batch>)
    requires p.version < 3 && Chain(p, first, batches)
    ensures Events(batches) == []
  {
    if batches != [] {
      var n := |batches| - 1;
      ChainPrefix(p, first, batches, n);
      QuietChain(p, first, batches[..n]);
      assert AcceptedAt(p, first, batches, n);
    }
  }

  lemma OpenedChain(flight: Bytes, p: Profile)
    requires Opened(flight, p).Some?
    ensures var g := Opened(flight, p).value;
      && Chain(p, FirstIndex(p), g.batches) && g.counters == Before(g.batches, |g.batches|)
      && g.ranges == [] && |g.batches| == -FirstIndex(p) && g.end == 0
  {
    hide BatchAt, Accepts;
    if p.version == 8 {
      var b := BatchAt(flight, 28, p, -1, START).value.1;
      assert AcceptedAt(p, -1, [b], 0);
    }
  }

  lemma RecordGrows(flight: Bytes, p: Profile, count: nat, events: nat, index: nat, g: Progress) returns (b: Batch)
    requires RecordAt(flight, p, count, events, index, g).Some?
    ensures var next := RecordAt(flight, p, count, events, index, g).value;
      && Accepts(p, index, g.counters, b) && next.counters == b.next && next.batches == g.batches + [b]
      && |next.ranges| == |g.ranges| + 1 && next.ranges[..|g.ranges|] == g.ranges
      && g.end <= next.ranges[|g.ranges|].0 <= next.ranges[|g.ranges|].1 == next.end <= count
  {
    hide BatchAt, Accepts, Word;
    b := BatchAt(flight, g.offset + 29, p, index, g.counters).value.1;
  }

  lemma ChainGrows(p: Profile, first: int, batches: seq<Batch>, b: Batch)
    requires Chain(p, first, batches) && Accepts(p, first + |batches|, Before(batches, |batches|), b)
    ensures Chain(p, first, batches + [b])
  {
    var all := batches + [b];
    forall i | 0 <= i < |all| ensures Accepts(p, first + i, Before(all, i), all[i]) {
      assert Before(all, i) == Before(batches, i);
      if i < |batches| { assert AcceptedAt(p, first, batches, i); }
    }
  }

  /** The last character of the magic. */
  function Magic(version: nat): Byte {
    if version == 8 then 54 else if version >= 6 then 53 else if version == 5 then 52
    else if version == 4 then 51 else if version == 3 then 50 else 49
  }

  predicate HeaderOk(flight: Bytes, p: Profile, operations: nat) {
    && |flight| >= HeaderSize(p.version)
    && flight[..8] == [65, 70, 83, 70, 76, 84, 48, Magic(p.version)]
    && Word(flight, 8, 4) <= 1024 && Word(flight, 8, 4) <= operations
    && (p.version >= 3 ==> Word(flight, 12, 4) == p.capacity)
    && (p.version >= 4 ==>
          && Word(flight, 16, 4) == p.categories
          && Word(flight, 20, 4) == (if p.sink.None? then 0 else p.sink.value.capacity)
          && Word(flight, 24, 4) == (if p.sink.None? || p.sink.value.disconnectBefore.None? then NEVER
                                     else p.sink.value.disconnectBefore.value))
  }

  /** Admission of an artifact. */
  method Admit(flight: Bytes, p: Profile, operations: nat, count: nat)
    returns (ranges: Option<seq<(nat, nat)>>)
    ensures ranges.Some? <==>
      && HeaderOk(flight, p, operations)
      && var g := ReadRecords(flight, p, count, Word(flight, 8, 4), Word(flight, 8, 4));
         g.Some? && g.value.offset == |flight|
    ensures ranges.Some? ==>
      ranges.value == ReadRecords(flight, p, count, Word(flight, 8, 4), Word(flight, 8, 4)).value.ranges
    ensures ranges.Some? ==> forall r :: r in ranges.value ==> r.1 <= count
  {
    hide BatchAt, RecordAt, Word;
    if !HeaderOk(flight, p, operations) { return None; }
    var events := Word(flight, 8, 4);
    var offset, counters, end, found := HeaderSize(p.version), START, 0, [];
    if p.version == 8 {
      var b := ReadBatch(flight, offset, p, -1, counters);
      if b.None? {
        ReadingStops(flight, p, count, events, 0, events);
        return None;
      }
      offset, counters := b.value.0, b.value.1;
    }
    var index := 0;
    while index < events
      invariant index <= events
      invariant var g := ReadRecords(flight, p, count, events, index);
        && g.Some? && g.value.offset == offset && g.value.counters == counters && g.value.end == end
        && g.value.ranges == found
    {
      var next := ReadRecord(flight, p, count, events, index, offset, counters, end);
      if next.None? {
        ReadingStops(flight, p, count, events, index + 1, events);
        return None;
      }
      offset, counters, end := next.value.0, next.value.1, next.value.2.1;
      found := found + [next.value.2];
      index := index + 1;
    }
    if offset != |flight| { return None; }
    RecordsChain(flight, p, count, events, events);
    ranges := Some(found);
  }

  method ReadBatch(flight: Bytes, at: nat, p: Profile, index: int, previous: Counters)
    returns (r: Option<(nat, Counters)>)
    ensures r == Ends(BatchAt(flight, at, p, index, previous))
  {
    if p.version >= 4 {
      r := SelectedBatch(flight, at, p, index, previous);
    } else if p.version == 3 {
      r := InternalBatch(flight, at, p, previous);
    } else {
      r := Some((at, previous));
    }
  }

  /** One operation record read from the running offset, counters and end. */
  method ReadRecord(flight: Bytes, p: Profile, count: nat, events: nat, index: nat,
                    offset: nat, counters: Counters, end: nat)
    returns (r: Option<(nat, Counters, (nat, nat))>)
    ensures forall ranges, batches {:trigger Progress(offset, counters, end, ranges, batches)} ::
      var g := RecordAt(flight, p, count, events, index, Progress(offset, counters, end, ranges, batches));
      && (r.Some? <==> g.Some?)
      && (r.Some? ==>
          && g.value.offset == r.value.0 && g.value.counters == r.value.1 && g.value.end == r.value.2.1
          && g.value.ranges == ranges + [r.value.2])
  {
    hide BatchAt, Accepts, Word;
    if |flight| - offset < 29 { return None; }
    var first, last, success := Word(flight, offset + 4, 8), Word(flight, offset + 12, 8), Word(flight, offset + 28, 1);
    if Word(flight, offset, 4) != index || !(end <= first <= last <= count) || success > 1 { return None; }
    if success == 0 && index != events - 1 { return None; }
    var b := ReadBatch(flight, offset + 29, p, index, counters);
    r := if b.None? then None else Some((b.value.0, b.value.1, (first, last)));
  }

  lemma {:induction false} ReadingStops(flight: Bytes, p: Profile, count: nat, events: nat, m: nat, n: nat)
    requires m <= n && ReadRecords(flight, p, count, events, m).None?
    ensures ReadRecords(flight, p, count, events, n).None?
    decreases n
  {
    hide RecordAt, Opened;
    if m < n { ReadingStops(flight, p, count, events, m, n - 1); }
  }
}
