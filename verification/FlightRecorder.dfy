/** What a recorder of the profile writes is accepted: the batch rules as statements
    about event lists, and a ring, a filter and a sink that always meet them. */
module FlightRecorder {
  import opened Basics
  import Scenario
  import opened FlightPayload
  import opened Flight

  // ---------- the event rules without a scan

  /** The rules that look at one event alone. */
  predicate Formed(p: Profile, e: Event) {
    && (e.attempt == 0 ==> p.version >= 5 && !CommitTail(e.kind))
    && e.attempt <= e.sequence
    && (e.generation == 0 ==> p.version == 8 && (e.kind == 39 || e.kind == 45))
    && (e.kind == 39 ==> e.generation == 0)
    && Selected(p.categories, Category(p.version, e.kind))
    && e.remount <= 1 && (e.kind == 6 ==> e.remount == 0)
    && ContextOk(p, e) && ObjectOk(p, e)
  }

  ghost predicate AllFormed(p: Profile, events: seq<Event>) { forall i :: 0 <= i < |events| ==> Formed(p, events[i]) }

  function Context(e: Event): (nat, nat, nat) { (e.operation, e.parent, e.method_) }

  /** A span has one context in a batch. */
  ghost predicate OneContext(p: Profile, events: seq<Event>) {
    p.version >= 5 ==> forall i, j :: 0 <= i < j < |events| && events[i].span == events[j].span != 0 ==>
      Context(events[i]) == Context(events[j])
  }

  /** Events that were overwritten all precede those that are left. */
  predicate LostFirst(previous: Counters, next: Counters, events: seq<Event>) {
    events != [] ==> events[0].sequence - previous.sequence - 1 >= next.lost - previous.lost
  }

  ghost predicate Listed(p: Profile, previous: Counters, next: Counters, events: seq<Event>) {
    && Sequenced(events, previous.sequence, next.sequence) && Attempted(events, previous.attempt, next.attempt)
    && AllFormed(p, events) && OneContext(p, events) && LostFirst(previous, next, events)
  }

  /** Where the scan of an accepted list stands. */
  ghost predicate Stands(p: Profile, previous: Counters, events: seq<Event>, s: Scan) {
    && s.cursor == (if events == [] then previous.sequence else events[|events| - 1].sequence)
    && previous.attempt <= s.observed
    && (forall i :: 0 <= i < |events| ==> events[i].attempt <= s.observed)
    && (s.observed == previous.attempt || exists i :: 0 <= i < |events| && events[i].attempt == s.observed)
    && (p.version >= 5 ==>
          && (forall i :: 0 <= i < |events| && events[i].span != 0 ==>
                events[i].span in s.contexts && s.contexts[events[i].span] == Context(events[i]))
          && (forall x :: x in s.contexts ==> x != 0 && exists i :: 0 <= i < |events| && events[i].span == x))
  }

  lemma SequenceExactly(p: Profile, previous: Counters, next: Counters, events: seq<Event>, s: Scan, e: Event)
    requires Stands(p, previous, events, s) && Sequenced(events, previous.sequence, next.sequence)
    ensures Sequenced(events + [e], previous.sequence, next.sequence) <==> s.cursor < e.sequence <= next.sequence
  {
    var all, n := events + [e], |events|;
    assert all[n] == e && forall i :: 0 <= i < n ==> all[i] == events[i];
    if Sequenced(all, previous.sequence, next.sequence) && n > 0 { assert all[n - 1].sequence < all[n].sequence; }
  }

  lemma AttemptExactly(p: Profile, previous: Counters, next: Counters, events: seq<Event>, s: Scan, e: Event)
    requires Stands(p, previous, events, s) && Attempted(events, previous.attempt, next.attempt)
    requires e.kind == 1 ==> e.attempt != 0
    ensures Attempted(events + [e], previous.attempt, next.attempt) <==>
      && (e.attempt != 0 ==> s.observed <= e.attempt <= next.attempt) && (e.kind == 1 ==> e.attempt != s.observed)
  {
    var all, n := events + [e], |events|;
    assert all[n] == e && forall i :: 0 <= i < n ==> all[i] == events[i];
    if Attempted(all, previous.attempt, next.attempt) && s.observed != previous.attempt {
      var i :| 0 <= i < n && events[i].attempt == s.observed;
      assert all[i].attempt == s.observed;
    }
  }

  lemma FormedExactly(p: Profile, events: seq<Event>, e: Event)
    ensures AllFormed(p, events + [e]) <==> AllFormed(p, events) && Formed(p, e)
  {
    hide Formed;
    var all, n := events + [e], |events|;
    assert all[n] == e && forall i :: 0 <= i < n ==> all[i] == events[i];
  }

  lemma ContextExactly(p: Profile, previous: Counters, events: seq<Event>, s: Scan, e: Event)
    requires Stands(p, previous, events, s) && OneContext(p, events)
    ensures OneContext(p, events + [e]) <==>
      !(p.version >= 5 && e.span in s.contexts && s.contexts[e.span] != Context(e))
  {
    var all, n := events + [e], |events|;
    assert all[n] == e && forall i :: 0 <= i < n ==> all[i] == events[i];
    if OneContext(p, all) && p.version >= 5 && e.span in s.contexts {
      var i :| 0 <= i < n && events[i].span == e.span;
      assert all[i].span == all[n].span;
    }
  }

  lemma IdentityExactly(p: Profile, next: Counters, cursor: nat, observed: nat, e: Event)
    ensures IdentityOk(p, next, cursor, observed, e) && ContextOk(p, e) && ObjectOk(p, e) <==>
      && Formed(p, e) && cursor < e.sequence <= next.sequence
      && (e.attempt != 0 ==> observed <= e.attempt <= next.attempt) && (e.kind == 1 ==> e.attempt != observed)
  {
    hide ContextOk, ObjectOk, Category;
  }

  lemma StandsOn(p: Profile, previous: Counters, events: seq<Event>, s: Scan, e: Event)
    requires Stands(p, previous, events, s)
    requires p.version >= 5 && e.span in s.contexts ==> s.contexts[e.span] == Context(e)
    ensures Stands(p, previous, events + [e],
      Scan(e.sequence, if e.attempt > s.observed then e.attempt else s.observed,
           if p.version >= 5 && e.span != 0 then s.contexts[e.span := Context(e)] else s.contexts))
  {
    var all, n := events + [e], |events|;
    assert all[n] == e && forall i :: 0 <= i < n ==> all[i] == events[i];
  }

  /** One step of the scan: the list stays in order, formed and of one context. */
  lemma StepExactly(p: Profile, previous: Counters, next: Counters, events: seq<Event>, s: Scan, e: Event)
    requires Stands(p, previous, events, s) && Listed(p, previous, next, events)
    ensures ScanStep(p, previous, next, s, |events|, e).Some? <==> Listed(p, previous, next, events + [e])
    ensures ScanStep(p, previous, next, s, |events|, e).Some? ==>
      Stands(p, previous, events + [e], ScanStep(p, previous, next, s, |events|, e).value)
  {
    IdentityExactly(p, next, s.cursor, s.observed, e);
    SequenceExactly(p, previous, next, events, s, e);
    assert Formed(p, e) && e.kind == 1 ==> e.attempt != 0;
    if e.kind == 1 ==> e.attempt != 0 { AttemptExactly(p, previous, next, events, s, e); }
    FormedExactly(p, events, e);
    ContextExactly(p, previous, events, s, e);
    assert (events + [e])[0] == if events == [] then e else events[0];
    hide Formed, AllFormed, Sequenced, Attempted, OneContext, Stands, IdentityOk, ContextOk, ObjectOk;
    if ScanStep(p, previous, next, s, |events|, e).Some? { StandsOn(p, previous, events, s, e); }
  }

  lemma ListedPrefix(p: Profile, previous: Counters, next: Counters, events: seq<Event>, n: nat)
    requires Listed(p, previous, next, events) && n <= |events|
    ensures Listed(p, previous, next, events[..n])
  {
    hide Formed;
    var some := events[..n];
    assert forall i :: 0 <= i < n ==> some[i] == events[i];
  }

  /** The scan accepts exactly the lists that are in order, formed, of one context
      for each span, and behind what was lost. */
  lemma {:induction false} ScanExactly(p: Profile, previous: Counters, next: Counters, events: seq<Event>)
    ensures ScanAll(p, previous, next, events).Some? <==> Listed(p, previous, next, events)
    ensures ScanAll(p, previous, next, events).Some? ==>
      Stands(p, previous, events, ScanAll(p, previous, next, events).value)
  {
    if events != [] {
      hide Listed, Stands, ScanStep;
      var n := |events| - 1;
      ScanExactly(p, previous, next, events[..n]);
      assert events == events[..n] + [events[n]];
      if Listed(p, previous, next, events) { ListedPrefix(p, previous, next, events, n); }
      var s := ScanAll(p, previous, next, events[..n]);
      if s.Some? { StepExactly(p, previous, next, events[..n], s.value, events[n]); }
    }
  }

  // ---------- a recorder

  /** The counters so far, the ring, and how many the sink took in this batch. */
  datatype Recorder = Recorder(counters: Counters, ring: seq<Event>, taken: nat)

  predicate Wanted(p: Profile, e: Event) { Selected(p.categories, Category(p.version, e.kind)) }

  /** Offer one wanted event to the sink. */
  function Offered(p: Profile, index: int, c: Counters, taken: nat): (Counters, nat) {
    if p.sink.None? then (c, taken)
    else if Disconnected(p.sink.value, index) then (c.(missed := c.missed + 1, closed := 1), taken)
    else if taken < p.sink.value.capacity then (c.(delivered := c.delivered + 1), taken + 1)
    else (c.(missed := c.missed + 1), taken)
  }

  /** Record one event: count it, drop it if its category is not wanted, otherwise
      offer it to the sink and put it in the ring over the oldest. */
  function Emit(p: Profile, index: int, r: Recorder, e: Event): Recorder {
    var c := r.counters.(sequence := r.counters.sequence + 1,
                         attempt := if e.kind == 1 then r.counters.attempt + 1 else r.counters.attempt);
    if !Wanted(p, e) then r.(counters := c.(filtered := c.filtered + 1)) else
      var (d, taken) := Offered(p, index, c, r.taken);
      if |r.ring| < p.capacity then Recorder(d, r.ring + [e], taken)
      else Recorder(d.(lost := d.lost + 1), (r.ring + [e])[1..], taken)
  }

  function EmitAll(p: Profile, index: int, start: Counters, events: seq<Event>): Recorder {
    if events == [] then Recorder(start, [], 0) else
      Emit(p, index, EmitAll(p, index, start, events[..|events| - 1]), events[|events| - 1])
  }

  /** An event as it is emitted: numbered next, BEGIN opening the next attempt, the
      rest of a commit within the current one, anything else outside attempts. */
  predicate Numbered(p: Profile, c: Counters, e: Event) {
    && e.sequence == c.sequence + 1
    && (e.kind == 1 ==> e.attempt == c.attempt + 1)
    && (e.kind != 1 && CommitTail(e.kind) ==> e.attempt == c.attempt > 0)
    && (!CommitTail(e.kind) ==> p.version >= 5 && e.attempt == 0)
    && (Wanted(p, e) ==> Formed(p, e))
  }

  ghost predicate Emitted(p: Profile, index: int, start: Counters, events: seq<Event>) {
    && OneContext(p, events)
    && forall i :: 0 <= i < |events| ==>
         Numbered(p, EmitAll(p, index, start, events[..i]).counters, events[i])
  }

  /** Where a recorder starts a batch. */
  predicate Fresh(p: Profile, c: Counters) {
    && c.attempt <= c.sequence && (p.version < 5 ==> (c.sequence == 0 <==> c.attempt == 0)) && c.closed <= 1
    && (p.sink.None? ==> c.delivered == 0 && c.missed == 0 && c.closed == 0)
  }

  function Count(p: Profile, events: seq<Event>): nat {
    if events == [] then 0 else
      Count(p, events[..|events| - 1]) + if Wanted(p, events[|events| - 1]) then 1 else 0
  }

  /** The counters after so many events, of which so many were wanted. */
  predicate Tallied(p: Profile, index: int, start: Counters, r: Recorder, n: nat, wanted: nat) {
    var c := r.counters;
    && wanted <= n && |r.ring| == Smaller(p.capacity, wanted)
    && c.sequence == start.sequence + n && c.filtered == start.filtered + n - wanted
    && c.lost == start.lost + wanted - |r.ring| && start.attempt <= c.attempt <= start.attempt + n
    && (p.sink.None? ==> c.delivered == start.delivered && c.missed == start.missed && c.closed == start.closed)
    && (p.sink.Some? ==>
          var gone := Disconnected(p.sink.value, index);
          && r.taken == (if gone then 0 else Smaller(p.sink.value.capacity, wanted))
          && c.delivered == start.delivered + r.taken && c.missed == start.missed + wanted - r.taken
          && c.closed == (if gone && wanted > 0 then 1 else start.closed))
  }

  lemma EmitTallies(p: Profile, index: int, start: Counters, r: Recorder, e: Event, n: nat, wanted: nat)
    requires Tallied(p, index, start, r, n, wanted)
    ensures Tallied(p, index, start, Emit(p, index, r, e), n + 1, wanted + if Wanted(p, e) then 1 else 0)
  {
    hide Wanted;
  }

  lemma {:induction false} AllTallied(p: Profile, index: int, start: Counters, events: seq<Event>)
    ensures Tallied(p, index, start, EmitAll(p, index, start, events), |events|, Count(p, events))
  {
    if events != [] {
      hide Tallied, Emit, Wanted;
      var n := |events| - 1;
      AllTallied(p, index, start, events[..n]);
      EmitTallies(p, index, start, EmitAll(p, index, start, events[..n]), events[n], n, Count(p, events[..n]));
    }
  }

  // ---------- what it writes is accepted

  /** What the ring holds of the events so far. */
  ghost predicate RingOk(p: Profile, start: Counters, r: Recorder, events: seq<Event>) {
    && Sequenced(r.ring, start.sequence, r.counters.sequence) && Attempted(r.ring, start.attempt, r.counters.attempt)
    && AllFormed(p, r.ring) && (forall e :: e in r.ring ==> e in events)
    && LostFirst(start, r.counters, r.ring)
    && start.sequence <= r.counters.sequence && start.attempt <= r.counters.attempt
    && start.lost <= r.counters.lost && r.counters.lost - start.lost <= r.counters.sequence - start.sequence
  }

  lemma Appended(p: Profile, start: Counters, c: Counters, ring: seq<Event>, e: Event, next: Counters)
    requires Sequenced(ring, start.sequence, c.sequence) && Attempted(ring, start.attempt, c.attempt)
    requires AllFormed(p, ring) && Formed(p, e) && Numbered(p, c, e)
    requires start.sequence <= c.sequence && start.attempt <= c.attempt
    requires next.sequence == c.sequence + 1 && next.attempt == if e.kind == 1 then c.attempt + 1 else c.attempt
    ensures Sequenced(ring + [e], start.sequence, next.sequence)
    ensures Attempted(ring + [e], start.attempt, next.attempt) && AllFormed(p, ring + [e])
  {
    hide Formed;
    FormedExactly(p, ring, e);
    var all, n := ring + [e], |ring|;
    assert all[n] == e && forall i :: 0 <= i < n ==> all[i] == ring[i];
  }

  lemma Dropped(p: Profile, ring: seq<Event>, low: nat, high: nat, floor: nat, top: nat)
    requires ring != [] && Sequenced(ring, low, high) && Attempted(ring, floor, top) && AllFormed(p, ring)
    ensures Sequenced(ring[1..], low, high) && Attempted(ring[1..], floor, top) && AllFormed(p, ring[1..])
  {
    hide Formed;
    var rest := ring[1..];
    assert forall i :: 0 <= i < |rest| ==> rest[i] == ring[i + 1];
  }

  lemma Widened(p: Profile, ring: seq<Event>, low: nat, high: nat, floor: nat, top: nat, higher: nat, above: nat)
    requires Sequenced(ring, low, high) && Attempted(ring, floor, top) && high <= higher && top <= above
    ensures Sequenced(ring, low, higher) && Attempted(ring, floor, above)
  {
  }

  lemma EmitShape(p: Profile, index: int, r: Recorder, e: Event)
    ensures var t := Emit(p, index, r, e);
      && t.counters.sequence == r.counters.sequence + 1
      && t.counters.attempt == (if e.kind == 1 then r.counters.attempt + 1 else r.counters.attempt)
      && t.counters.lost == r.counters.lost + (if Wanted(p, e) && |r.ring| >= p.capacity then 1 else 0)
      && t.ring == (if !Wanted(p, e) then r.ring else if |r.ring| < p.capacity then r.ring + [e]
                    else (r.ring + [e])[1..])
  {
    hide Wanted;
  }

  lemma FirstIsLater(start: Counters, c: Counters, ring: seq<Event>, e: Event)
    requires Sequenced(ring, start.sequence, c.sequence) && e.sequence == c.sequence + 1 && LostFirst(start, c, ring)
    requires start.lost <= c.lost && c.lost - start.lost <= c.sequence - start.sequence
    ensures LostFirst(start, c, ring + [e])
    ensures LostFirst(start, c.(lost := c.lost + 1), (ring + [e])[1..])
  {
    var all := ring + [e];
    assert all[0] == if ring == [] then e else ring[0];
    assert |all| > 1 ==> all[1..][0] == all[1] && all[1] == if |ring| == 1 then e else ring[1];
  }
  lemma Inside(ring: seq<Event>, events: seq<Event>, e: Event)
    requires forall x :: x in ring ==> x in events
    ensures forall x :: x in ring + [e] ==> x in events + [e]
    ensures forall x :: x in (ring + [e])[1..] ==> x in events + [e]
  {
  }

  lemma WantedKeepsRing(p: Profile, index: int, start: Counters, r: Recorder, events: seq<Event>, e: Event)
    requires RingOk(p, start, r, events) && Numbered(p, r.counters, e) && Wanted(p, e)
    ensures RingOk(p, start, Emit(p, index, r, e), events + [e])
  {
    var t, c := Emit(p, index, r, e), r.counters;
    EmitShape(p, index, r, e);
    var next := t.counters;
    hide Emit, Wanted;
    FirstIsLater(start, c, r.ring, e);
    hide Formed;
    Appended(p, start, c, r.ring, e, next);
    hide Sequenced, Attempted, AllFormed, Numbered;
    Dropped(p, r.ring + [e], start.sequence, next.sequence, start.attempt, next.attempt);
    Inside(r.ring, events, e);
  }

  lemma UnwantedKeepsRing(p: Profile, index: int, start: Counters, r: Recorder, events: seq<Event>, e: Event)
    requires RingOk(p, start, r, events) && !Wanted(p, e)
    ensures RingOk(p, start, Emit(p, index, r, e), events + [e])
  {
    EmitShape(p, index, r, e);
    hide Emit, Wanted, Formed, AllFormed;
    var next, c := Emit(p, index, r, e).counters, r.counters;
    Widened(p, r.ring, start.sequence, c.sequence, start.attempt, c.attempt, next.sequence, next.attempt);
    hide Sequenced, Attempted;
    assert forall x :: x in events ==> x in events + [e];
  }

  lemma EmittedPrefix(p: Profile, index: int, start: Counters, events: seq<Event>, n: nat)
    requires n < |events| && Emitted(p, index, start, events)
    ensures Emitted(p, index, start, events[..n])
    ensures Numbered(p, EmitAll(p, index, start, events[..n]).counters, events[n])
  {
    hide EmitAll, Numbered;
    var some := events[..n];
    assert forall i :: 0 <= i < n ==> some[i] == events[i] && some[..i] == events[..i];
  }

  lemma RingStarts(p: Profile, start: Counters)
    ensures RingOk(p, start, Recorder(start, [], 0), [])
  {
  }

  lemma {:induction false} RingIsOk(p: Profile, index: int, start: Counters, events: seq<Event>)
    requires Emitted(p, index, start, events)
    ensures RingOk(p, start, EmitAll(p, index, start, events), events)
  {
    hide RingOk, Emit, Wanted, Numbered, Emitted;
    if events == [] {
      RingStarts(p, start);
    } else {
      var n := |events| - 1;
      var r := EmitAll(p, index, start, events[..n]);
      EmittedPrefix(p, index, start, events, n);
      RingIsOk(p, index, start, events[..n]);
      assert events == events[..n] + [events[n]];
      if Wanted(p, events[n]) {
        WantedKeepsRing(p, index, start, r, events[..n], events[n]);
      } else {
        UnwantedKeepsRing(p, index, start, r, events[..n], events[n]);
      }
    }
  }

  lemma RingHasOneContext(p: Profile, ring: seq<Event>, events: seq<Event>)
    requires OneContext(p, events) && forall e :: e in ring ==> e in events
    ensures OneContext(p, ring)
  {
    if p.version >= 5 {
      forall i, j | 0 <= i < j < |ring| && ring[i].span == ring[j].span != 0
        ensures Context(ring[i]) == Context(ring[j])
      {
        assert ring[i] in events && ring[j] in events;
        var a :| 0 <= a < |events| && events[a] == ring[i];
        var b :| 0 <= b < |events| && events[b] == ring[j];
      }
    }
  }

  /** Before version 5 every event belongs to an attempt. */
  lemma AttemptsBegin(p: Profile, index: int, start: Counters, events: seq<Event>)
    requires p.version < 5 && events != [] && Emitted(p, index, start, events)
    ensures EmitAll(p, index, start, events).counters.attempt > 0
  {
    var n := |events| - 1;
    var r := EmitAll(p, index, start, events[..n]);
    assert Numbered(p, r.counters, events[n]);
    EmitShape(p, index, r, events[n]);
  }

  lemma TalliedIsHead(p: Profile, index: int, start: Counters, r: Recorder, n: nat, wanted: nat)
    requires Fresh(p, start) && Tallied(p, index, start, r, n, wanted)
    requires p.version < 5 && n > 0 ==> r.counters.attempt > 0
    ensures HeadOk(p, index, start, r.counters, |r.ring|) && Fresh(p, r.counters)
  {
    var c := r.counters;
    assert c.sequence - start.sequence - (c.filtered - start.filtered) == wanted;
    hide Disconnected;
  }

  lemma HeadIsOk(p: Profile, index: int, start: Counters, events: seq<Event>)
    requires Fresh(p, start) && Emitted(p, index, start, events)
    ensures var r := EmitAll(p, index, start, events);
      HeadOk(p, index, start, r.counters, |r.ring|) && Fresh(p, r.counters)
  {
    AllTallied(p, index, start, events);
    if p.version < 5 && events != [] { AttemptsBegin(p, index, start, events); }
    hide Emitted, EmitAll, Count, Tallied, HeadOk, Fresh;
    TalliedIsHead(p, index, start, EmitAll(p, index, start, events), |events|, Count(p, events));
  }

  /** Whatever is emitted in order, the batch of a recorder of that profile is accepted,
      and the next batch can start from its counters. */
  lemma RecorderIsAccepted(p: Profile, index: int, start: Counters, events: seq<Event>)
    requires p.version >= 4 && Fresh(p, start) && Emitted(p, index, start, events)
    ensures var r := EmitAll(p, index, start, events);
      Accepts(p, index, start, Batch(r.counters, r.ring)) && Fresh(p, r.counters)
  {
    var r := EmitAll(p, index, start, events);
    HeadIsOk(p, index, start, events);
    RingIsOk(p, index, start, events);
    RingHasOneContext(p, r.ring, events);
    hide Emitted, EmitAll, Sequenced, Attempted, AllFormed, OneContext, HeadOk, Fresh;
    ScanExactly(p, start, r.counters, r.ring);
  }

  // ---------- runs

  /** The batches of a recorder over one list of events after another. */
  function Recorded(p: Profile, index: int, start: Counters, lists: seq<seq<Event>>): (r: seq<Batch>)
    ensures |r| == |lists|
    decreases |lists|
  {
    if lists == [] then [] else
      var r := EmitAll(p, index, start, lists[0]);
      [Batch(r.counters, r.ring)] + Recorded(p, index + 1, r.counters, lists[1..])
  }

  ghost predicate AllEmitted(p: Profile, index: int, start: Counters, lists: seq<seq<Event>>)
    decreases |lists|
  {
    lists == [] || (
      && Emitted(p, index, start, lists[0])
      && AllEmitted(p, index + 1, EmitAll(p, index, start, lists[0]).counters, lists[1..]))
  }

  predicate Follows(p: Profile, index: int, start: Counters, batches: seq<Batch>, i: nat)
    requires i < |batches|
  {
    Accepts(p, index + i, if i == 0 then start else batches[i - 1].next, batches[i])
  }

  ghost predicate Continues(p: Profile, index: int, start: Counters, batches: seq<Batch>) {
    forall i: nat {:trigger Follows(p, index, start, batches, i)} ::
      i < |batches| ==> Follows(p, index, start, batches, i)
  }

  lemma {:induction false} RecordedContinues(p: Profile, index: int, start: Counters, lists: seq<seq<Event>>)
    requires p.version >= 4 && Fresh(p, start) && AllEmitted(p, index, start, lists)
    ensures Continues(p, index, start, Recorded(p, index, start, lists))
    decreases |lists|
  {
    hide Accepts, Fresh, Emitted, EmitAll;
    if lists != [] {
      var r := EmitAll(p, index, start, lists[0]);
      RecorderIsAccepted(p, index, start, lists[0]);
      RecordedContinues(p, index + 1, r.counters, lists[1..]);
      var all, rest := Recorded(p, index, start, lists), Recorded(p, index + 1, r.counters, lists[1..]);
      forall i: nat | i < |all| ensures Follows(p, index, start, all, i) {
        if i > 0 { assert Follows(p, index + 1, r.counters, rest, i - 1) && all[i] == rest[i - 1]; }
      }
    }
  }

  /** A whole recording, batch after batch, is an accepted chain. */
  lemma RecordingIsChain(p: Profile, first: int, lists: seq<seq<Event>>)
    requires p.version >= 4 && AllEmitted(p, first, START, lists)
    ensures Chain(p, first, Recorded(p, first, START, lists))
  {
    hide Accepts, AllEmitted, Recorded;
    RecordedContinues(p, first, START, lists);
    var batches := Recorded(p, first, START, lists);
    forall i: nat | i < |batches| ensures AcceptedAt(p, first, batches, i) {
      assert Follows(p, first, START, batches, i);
    }
  }
}
