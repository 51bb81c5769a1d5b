/** Publication of a replay bundle as durable steps, and reading one back after a crash. */
module Bundle {
  import opened Basics

  type Name = string
  type Artifacts = map<Name, Bytes>

  const MANIFEST: Name := "manifest.json"
  const PENDING: Name := "manifest.pending"
  const MANIFEST_BYTES := 65536

  /** The artifact roles in ascending order. */
  const ROLES: seq<Name> := [
    "actual.json", "block-io.afstrace", "expected.json", "fault-model.json", "flight-recorder.bin",
    "operations.afstrace", "result.img", "run.json", "start.img"]

  lemma RolesDiffer()
    ensures MANIFEST !in ROLES && PENDING !in ROLES && MANIFEST != PENDING
    ensures forall i, j :: 0 <= i < j < |ROLES| ==> ROLES[i] != ROLES[j]
  {
    assert |ROLES[0]| == 11 && |ROLES[1]| == 17 && |ROLES[2]| == 13 && |ROLES[3]| == 16 && |ROLES[4]| == 19;
    assert |ROLES[5]| == 19 && |ROLES[6]| == 10 && |ROLES[7]| == 8 && |ROLES[8]| == 9;
    assert ROLES[4][0] == 'f' && ROLES[5][0] == 'o';
    assert |MANIFEST| == 13 && MANIFEST[0] == 'm' && ROLES[2][0] == 'e';
    assert |PENDING| == 16 && PENDING[0] == 'm' && ROLES[3][0] == 'f';
  }

  // ---------- manifests

  /** One line of the manifest. */
  datatype Entry = Entry(name: Name, size: int, sha256: string)

  /** The manifest's encoding, its decoding with the shape checks, and the digest. */
  datatype Codec = Codec(encode: seq<Entry> -> Bytes, parse: Bytes -> Option<seq<Entry>>, sha256: Bytes -> string)

  predicate Digest(s: string) {
    |s| == 64 && forall c :: c in s ==> '0' <= c <= '9' || 'a' <= c <= 'f'
  }

  /** What encoding and digest promise for the manifests that are published. */
  ghost predicate Faithful(codec: Codec, entries: seq<Entry>) {
    && codec.parse(codec.encode(entries)) == Some(entries) && |codec.encode(entries)| <= MANIFEST_BYTES
    && forall data :: Digest(codec.sha256(data))
  }

  function Describe(codec: Codec, artifacts: Artifacts, names: seq<Name>): (r: seq<Entry>)
    requires forall n :: n in names ==> n in artifacts
    ensures |r| == |names|
    ensures forall i :: 0 <= i < |r| ==>
      r[i] == Entry(names[i], |artifacts[names[i]]|, codec.sha256(artifacts[names[i]]))
  {
    seq(|names|,
        i requires 0 <= i < |names| => Entry(names[i], |artifacts[names[i]]|, codec.sha256(artifacts[names[i]])))
  }

  function TotalSize(entries: seq<Entry>): int {
    if entries == [] then 0 else TotalSize(entries[..|entries| - 1]) + entries[|entries| - 1].size
  }

  // ---------- the disk

  /** A file's contents, and whether they survive a crash. */
  datatype Stored = Stored(data: Bytes, synced: bool)

  datatype Change = Bind(name: Name, id: nat) | Unbind(name: Name)

  /** The bundle directory: the names that survive, the changes that may, and
      whether its own name exists and survives in the parent. */
  datatype Disk = Disk(exists_: bool, anchored: bool, files: seq<Stored>, durable: map<Name, nat>, pending: seq<Change>)

  function Applied(names: map<Name, nat>, change: Change): map<Name, nat> {
    if change.Bind? then names[change.name := change.id] else names - {change.name}
  }

  /** The names after the changes that happened to reach the disk. */
  function Survive(names: map<Name, nat>, pending: seq<Change>, keep: seq<bool>): map<Name, nat>
    requires |keep| == |pending|
  {
    if pending == [] then names else
      var n := |pending| - 1;
      var before := Survive(names, pending[..n], keep[..n]);
      if keep[n] then Applied(before, pending[n]) else before
  }

  function Live(d: Disk): map<Name, nat> {
    Survive(d.durable, d.pending, seq(|d.pending|, _ => true))
  }

  /** Names refer to files. */
  predicate WellFormed(d: Disk) {
    && (forall n :: n in d.durable ==> d.durable[n] < |d.files|)
    && (forall c :: c in d.pending && c.Bind? ==> c.id < |d.files|)
  }

  /** The directory found after a crash: absent, or names with contents. */
  type Found = Option<map<Name, Bytes>>

  /** Any subset of the pending names survived, and a file that was not synced
      holds anything at all. */
  ghost predicate CrashesTo(d: Disk, keep: seq<bool>, found: Found) {
    && |keep| == |d.pending|
    && (!d.exists_ ==> found.None?)
    && (d.anchored && d.exists_ ==> found.Some?)
    && (found.Some? ==>
        var names := Survive(d.durable, d.pending, keep);
        && found.value.Keys == names.Keys
        && forall n :: n in names && names[n] < |d.files| && d.files[names[n]].synced ==>
             found.value[n] == d.files[names[n]].data)
  }

  // ---------- reading a bundle

  predicate EntryOk(e: Entry, fileBytes: int) {
    e.name in ROLES && 0 <= e.size <= fileBytes && Digest(e.sha256)
  }

  predicate EntriesOk(entries: seq<Entry>, fileBytes: int, totalBytes: int) {
    && |entries| == |ROLES|
    && (forall e :: e in entries ==> EntryOk(e, fileBytes))
    && (forall i, j :: 0 <= i < j < |entries| ==> entries[i].name != entries[j].name)
    && TotalSize(entries) <= totalBytes
  }

  predicate Matches(codec: Codec, names: map<Name, Bytes>, e: Entry) {
    e.name in names && |names[e.name]| == e.size && codec.sha256(names[e.name]) == e.sha256
  }

  /** What a bundle must be for its reading to succeed. */
  predicate Readable(codec: Codec, found: Found, fileBytes: int, totalBytes: int) {
    && fileBytes >= 0 && totalBytes >= 0
    && found.Some? && MANIFEST in found.value && |found.value[MANIFEST]| <= MANIFEST_BYTES
    && var entries := codec.parse(found.value[MANIFEST]);
       && entries.Some? && EntriesOk(entries.value, fileBytes, totalBytes)
       && forall e :: e in entries.value ==> Matches(codec, found.value, e)
  }

  lemma {:induction false} PartialTotals(entries: seq<Entry>, n: nat)
    requires n <= |entries| && forall e :: e in entries ==> e.size >= 0
    ensures TotalSize(entries[..n]) <= TotalSize(entries)
  {
    if n < |entries| {
      var m := |entries| - 1;
      PartialTotals(entries[..m], n);
      assert entries[..m][..n] == entries[..n];
      assert entries[m] in entries;
    } else {
      assert entries[..n] == entries;
    }
  }

  lemma TooLarge(entries: seq<Entry>, n: nat, fileBytes: int, totalBytes: int)
    requires n <= |entries| && TotalSize(entries[..n]) > totalBytes
    ensures !EntriesOk(entries, fileBytes, totalBytes)
  {
    if forall e :: e in entries ==> EntryOk(e, fileBytes) { PartialTotals(entries, n); }
  }

  /** The descriptor loop with its set of seen roles and running size. */
  method CheckEntries(entries: seq<Entry>, fileBytes: int, totalBytes: int) returns (ok: bool)
    requires totalBytes >= 0
    ensures ok == EntriesOk(entries, fileBytes, totalBytes)
  {
    hide EntryOk;
    if |entries| != |ROLES| { return false; }
    var seen: set<Name>, size, i := {}, 0, 0;
    while i < |entries|
      invariant i <= |entries| && size == TotalSize(entries[..i]) <= totalBytes
      invariant seen == set k | 0 <= k < i :: entries[k].name
      invariant forall e :: e in entries[..i] ==> EntryOk(e, fileBytes)
      invariant forall j, k :: 0 <= j < k < i ==> entries[j].name != entries[k].name
    {
      var e := entries[i];
      if !EntryOk(e, fileBytes) || e.name in seen { return false; }
      seen := seen + {e.name};
      assert entries[..i + 1][..i] == entries[..i];
      size := size + e.size;
      if size > totalBytes {
        TooLarge(entries, i + 1, fileBytes, totalBytes);
        return false;
      }
      i := i + 1;
    }
    assert entries[..i] == entries;
    ok := true;
  }

  /** Reads the manifest, then every artifact against its size and digest. */
  method ReadBundle(codec: Codec, found: Found, fileBytes: int, totalBytes: int) returns (r: Option<Artifacts>)
    ensures r.Some? <==> Readable(codec, found, fileBytes, totalBytes)
    ensures r.Some? ==> r.value.Keys == set n | n in ROLES
    ensures r.Some? ==> forall n :: n in r.value ==> n in found.value && r.value[n] == found.value[n]
  {
    if fileBytes < 0 || totalBytes < 0 || found.None? { return None; }
    if MANIFEST !in found.value || |found.value[MANIFEST]| > MANIFEST_BYTES { return None; }
    var parsed := codec.parse(found.value[MANIFEST]);
    if parsed.None? { return None; }
    var entries := parsed.value;
    var ok := CheckEntries(entries, fileBytes, totalBytes);
    if !ok { return None; }
    var captured: Artifacts, i := map[], 0;
    while i < |entries|
      invariant i <= |entries|
      invariant captured.Keys == set k | 0 <= k < i :: entries[k].name
      invariant forall n :: n in captured ==> n in found.value && captured[n] == found.value[n]
      invariant forall k :: 0 <= k < i ==> Matches(codec, found.value, entries[k])
    {
      var e := entries[i];
      if !Matches(codec, found.value, e) { return None; }
      captured := captured[e.name := found.value[e.name]];
      i := i + 1;
    }
    EveryRole(entries);
    r := Some(captured);
  }

  lemma EveryRole(entries: seq<Entry>)
    requires |entries| == |ROLES| && forall e :: e in entries ==> e.name in ROLES
    requires forall j, k :: 0 <= j < k < |entries| ==> entries[j].name != entries[k].name
    ensures (set k | 0 <= k < |entries| :: entries[k].name) == set n | n in ROLES
  {
    var names, roles := set k | 0 <= k < |entries| :: entries[k].name, set n | n in ROLES;
    NamesCount(entries);
    RolesCount();
    SubsetOfSize(names, roles);
  }

  lemma {:induction false} NamesCount(entries: seq<Entry>)
    requires forall j, k :: 0 <= j < k < |entries| ==> entries[j].name != entries[k].name
    ensures |set k | 0 <= k < |entries| :: entries[k].name| == |entries|
  {
    var names := set k | 0 <= k < |entries| :: entries[k].name;
    if entries == [] {
      assert names == {};
    } else {
      var n := |entries| - 1;
      NamesCount(entries[..n]);
      assert names == (set k | 0 <= k < n :: entries[..n][k].name) + {entries[n].name};
    }
  }

  lemma RolesCount()
    ensures |set n | n in ROLES| == |ROLES|
  {
    RolesDiffer();
    var entries := seq(|ROLES|, i requires 0 <= i < |ROLES| => Entry(ROLES[i], 0, ""));
    NamesCount(entries);
    var names := set k | 0 <= k < |entries| :: entries[k].name;
    forall n | n in ROLES ensures n in names {
      var k :| 0 <= k < |ROLES| && ROLES[k] == n;
      assert entries[k].name == n;
    }
    assert names == set n | n in ROLES;
  }

  lemma {:induction false} SubsetOfSize<T>(a: set<T>, b: set<T>)
    requires a <= b && |a| == |b|
    ensures a == b
  {
    if a != {} {
      var x :| x in a;
      SubsetOfSize(a - {x}, b - {x});
    } else {
      assert b == {};
    }
  }

  // ---------- steps of the protocol

  function Created(d: Disk, name: Name): Disk {
    d.(files := d.files + [Stored([], false)], pending := d.pending + [Bind(name, |d.files|)])
  }

  function Filled(d: Disk, id: nat, data: Bytes): Disk
    requires id < |d.files|
  {
    d.(files := d.files[id := Stored(data, false)])
  }

  function Flushed(d: Disk, id: nat): Disk
    requires id < |d.files|
  {
    d.(files := d.files[id := d.files[id].(synced := true)])
  }

  function Settled(d: Disk): Disk { d.(durable := Live(d), pending := []) }

  /** What happens to the disk at one moment. */
  datatype Act =
    | Make
    | Create(name: Name)
    | Fill(id: nat, data: Bytes)
    | Flush(id: nat)
    | Settle
    | Alter(change: Change)
    | Anchor

  function Performed(d: Disk, act: Act): Option<Disk> {
    match act
    case Make => if d.exists_ then None else Some(Disk(true, false, [], map[], []))
    case Create(name) => Some(Created(d, name))
    case Fill(id, data) => if id < |d.files| then Some(Filled(d, id, data)) else None
    case Flush(id) => if id < |d.files| then Some(Flushed(d, id)) else None
    case Settle => Some(Settled(d))
    case Alter(change) => Some(d.(pending := d.pending + [change]))
    case Anchor => Some(d.(anchored := true))
  }

  ghost predicate OneAct(d: Disk, e: Disk) { exists act :: Performed(d, act) == Some(e) }

  /** The disk before the state at a position of the history. */
  function Earlier(d: Disk, before: seq<Disk>, after: seq<Disk>, i: nat): Disk
    requires |before| <= i < |after|
  {
    if i == |before| then d else after[i - 1]
  }

  /** The history gained every state between the two disks, one act at a time. */
  ghost predicate Traced(d: Disk, before: seq<Disk>, e: Disk, after: seq<Disk>) {
    && before <= after
    && (if |after| == |before| then e == d else e == after[|after| - 1])
    && forall i: nat :: |before| <= i < |after| ==> OneAct(Earlier(d, before, after, i), after[i])
  }

  lemma TracedOnce(d: Disk, before: seq<Disk>, e: Disk, act: Act)
    requires Performed(d, act) == Some(e)
    ensures Traced(d, before, e, before + [e])
  {
    assert OneAct(d, e);
  }

  lemma TracedTwice(d: Disk, h: seq<Disk>, e: Disk, i: seq<Disk>, f: Disk, j: seq<Disk>)
    requires Traced(d, h, e, i) && Traced(e, i, f, j)
    ensures Traced(d, h, f, j)
  {
    hide OneAct;
    forall k: nat | |h| <= k < |j| ensures OneAct(Earlier(d, h, j, k), j[k]) {
      if k < |i| {
        assert OneAct(Earlier(d, h, i, k), i[k]);
        assert Earlier(d, h, i, k) == Earlier(d, h, j, k);
      } else {
        assert OneAct(Earlier(e, i, j, k), j[k]);
        assert Earlier(e, i, j, k) == Earlier(d, h, j, k);
      }
    }
  }

  class Filesystem {
    var disk: Disk
    /** Every state the disk has passed through. */
    ghost var history: seq<Disk>

    constructor (d: Disk)
      ensures disk == d && history == []
    {
      disk, history := d, [];
    }

    /** Makes the bundle directory, which must not exist. */
    method MakeDirectory() returns (ok: bool)
      modifies this
      ensures ok == !old(disk).exists_
      ensures !ok ==> disk == old(disk) && history == old(history)
      ensures ok ==> disk == Disk(true, false, [], map[], []) && history == old(history) + [disk]
      ensures Traced(old(disk), old(history), disk, history)
    {
      ok := !disk.exists_;
      if ok {
        disk := Disk(true, false, [], map[], []);
        history := history + [disk];
        TracedOnce(old(disk), old(history), disk, Make);
      }
    }

    /** Creates a file that must not exist, writes it and syncs it. */
    method WriteFile(name: Name, data: Bytes) returns (ok: bool)
      modifies this
      ensures ok == (name !in Live(old(disk)))
      ensures !ok ==> disk == old(disk) && history == old(history)
      ensures ok ==> var id := |old(disk).files|; var d := Created(old(disk), name);
        && disk == Flushed(Filled(d, id, data), id)
        && history == old(history) + [d, Filled(d, id, data), disk]
      ensures Traced(old(disk), old(history), disk, history)
    {
      ok := name !in Live(disk);
      if ok {
        var id := |disk.files|;
        disk := Created(disk, name);
        history := history + [disk];
        disk := Filled(disk, id, data);
        history := history + [disk];
        disk := Flushed(disk, id);
        history := history + [disk];
        WriteTraces(old(disk), old(history), name, data);
        assert history == old(history) + [Created(old(disk), name), Filled(Created(old(disk), name), id, data), disk];
      }
    }

    method SyncDirectory()
      modifies this
      ensures disk == Settled(old(disk)) && history == old(history) + [disk]
      ensures Traced(old(disk), old(history), disk, history)
    {
      disk := Settled(disk);
      history := history + [disk];
      TracedOnce(old(disk), old(history), disk, Settle);
    }

    /** Gives a file a second name, which must not exist. */
    method Link(from: Name, to: Name) returns (ok: bool)
      modifies this
      ensures ok == (from in Live(old(disk)) && to !in Live(old(disk)))
      ensures !ok ==> disk == old(disk) && history == old(history)
      ensures ok ==>
        && disk == old(disk).(pending := old(disk).pending + [Bind(to, Live(old(disk))[from])])
        && history == old(history) + [disk]
      ensures Traced(old(disk), old(history), disk, history)
    {
      var live := Live(disk);
      ok := from in live && to !in live;
      if ok {
        disk := disk.(pending := disk.pending + [Bind(to, live[from])]);
        history := history + [disk];
        TracedOnce(old(disk), old(history), disk, Alter(Bind(to, live[from])));
      }
    }

    method Unlink(name: Name) returns (ok: bool)
      modifies this
      ensures ok == (name in Live(old(disk)))
      ensures !ok ==> disk == old(disk) && history == old(history)
      ensures ok ==>
        disk == old(disk).(pending := old(disk).pending + [Unbind(name)]) && history == old(history) + [disk]
      ensures Traced(old(disk), old(history), disk, history)
    {
      ok := name in Live(disk);
      if ok {
        disk := disk.(pending := disk.pending + [Unbind(name)]);
        history := history + [disk];
        TracedOnce(old(disk), old(history), disk, Alter(Unbind(name)));
      }
    }

    method SyncParent()
      modifies this
      ensures disk == old(disk).(anchored := true) && history == old(history) + [disk]
      ensures Traced(old(disk), old(history), disk, history)
    {
      disk := disk.(anchored := true);
      history := history + [disk];
      TracedOnce(old(disk), old(history), disk, Anchor);
    }
  }

  lemma WriteTraces(d: Disk, h: seq<Disk>, name: Name, data: Bytes)
    ensures var id, c := |d.files|, Created(d, name);
      var e := Filled(c, id, data);
      Traced(d, h, Flushed(e, id), h + [c, e, Flushed(e, id)])
  {
    var id, c := |d.files|, Created(d, name);
    var e := Filled(c, id, data);
    var f := Flushed(e, id);
    TracedOnce(d, h, c, Create(name));
    TracedOnce(c, h + [c], e, Fill(id, data));
    TracedOnce(e, h + [c] + [e], f, Flush(id));
    hide Traced;
    TracedTwice(d, h, c, h + [c], e, h + [c] + [e]);
    TracedTwice(d, h, e, h + [c] + [e], f, h + [c] + [e] + [f]);
    assert h + [c, e, f] == h + [c] + [e] + [f];
  }

  // ---------- what survives

  lemma {:induction false} SurvivesUnnamed(names: map<Name, nat>, pending: seq<Change>, keep: seq<bool>, name: Name)
    requires |keep| == |pending| && forall c :: c in pending ==> c.name != name
    ensures var r := Survive(names, pending, keep);
      (name in r <==> name in names) && (name in r ==> r[name] == names[name])
  {
    if pending != [] {
      var n := |pending| - 1;
      assert pending[n] in pending;
      SurvivesUnnamed(names, pending[..n], keep[..n], name);
    }
  }

  lemma {:induction false} SurvivesFrom(names: map<Name, nat>, pending: seq<Change>, keep: seq<bool>, name: Name)
    requires |keep| == |pending| && name in Survive(names, pending, keep)
    ensures var id := Survive(names, pending, keep)[name];
      (name in names && names[name] == id) || Bind(name, id) in pending
  {
    if pending != [] {
      var n := |pending| - 1;
      assert pending[n] in pending && forall c :: c in pending[..n] ==> c in pending;
      if name in Survive(names, pending[..n], keep[..n]) { SurvivesFrom(names, pending[..n], keep[..n], name); }
    }
  }

  lemma LiveGrows(d: Disk, change: Change)
    ensures Live(d.(pending := d.pending + [change])) == Applied(Live(d), change)
  {
    var n, all := |d.pending|, d.pending + [change];
    assert all[..n] == d.pending;
    assert seq(n + 1, _ => true)[..n] == seq(n, _ => true);
  }

  // ---------- the invariant

  predicate Holds(d: Disk, id: nat, data: Bytes) {
    id < |d.files| && d.files[id] == Stored(data, true)
  }

  predicate NoManifest(d: Disk) {
    MANIFEST !in d.durable && forall c :: c in d.pending ==> c.name != MANIFEST
  }

  /** The artifacts survive whatever happens, and the manifest is only ever
      bound to the finished file. */
  predicate Sealed(d: Disk, artifacts: Artifacts, encoded: Bytes) {
    && (forall r :: r in ROLES ==> r in artifacts && r in d.durable && Holds(d, d.durable[r], artifacts[r]))
    && (forall c :: c in d.pending ==> c.name !in ROLES)
    && (MANIFEST in d.durable ==> Holds(d, d.durable[MANIFEST], encoded))
    && (forall c :: c in d.pending && c.name == MANIFEST ==> c.Bind? && Holds(d, c.id, encoded))
  }

  predicate Safe(d: Disk, artifacts: Artifacts, encoded: Bytes) {
    NoManifest(d) || Sealed(d, artifacts, encoded)
  }

  predicate Complete(d: Disk, artifacts: Artifacts, encoded: Bytes) {
    d.exists_ && d.anchored && d.pending == [] && Sealed(d, artifacts, encoded) && MANIFEST in d.durable
  }

  /** From a safe state no crash leaves a readable bundle with anything but the
      published artifacts. */
  lemma CrashIsAllOrNothing(codec: Codec, artifacts: Artifacts, encoded: Bytes, d: Disk, keep: seq<bool>, found: Found,
                            fileBytes: int, totalBytes: int)
    requires Safe(d, artifacts, encoded) && CrashesTo(d, keep, found)
    requires Readable(codec, found, fileBytes, totalBytes)
    ensures forall r :: r in ROLES ==> r in artifacts && r in found.value && found.value[r] == artifacts[r]
  {
    SurvivesFrom(d.durable, d.pending, keep, MANIFEST);
    forall r | r in ROLES ensures r in artifacts && r in found.value && found.value[r] == artifacts[r] {
      SurvivesUnnamed(d.durable, d.pending, keep, r);
    }
  }

  predicate Publishable(artifacts: Artifacts, fileBytes: int, totalBytes: int) {
    && artifacts.Keys == (set n | n in ROLES) && fileBytes >= 0 && totalBytes >= 0
    && (forall n :: n in artifacts ==> |artifacts[n]| <= fileBytes)
    && SizeOf(artifacts, ROLES) <= totalBytes
  }

  function SizeOf(artifacts: Artifacts, names: seq<Name>): nat
    requires forall n :: n in names ==> n in artifacts
  {
    if names == [] then 0 else SizeOf(artifacts, names[..|names| - 1]) + |artifacts[names[|names| - 1]]|
  }

  lemma {:induction false} SizesAgree(codec: Codec, artifacts: Artifacts, names: seq<Name>)
    requires forall n :: n in names ==> n in artifacts
    ensures TotalSize(Describe(codec, artifacts, names)) == SizeOf(artifacts, names)
  {
    if names != [] {
      var m := |names| - 1;
      SizesAgree(codec, artifacts, names[..m]);
      assert Describe(codec, artifacts, names)[..m] == Describe(codec, artifacts, names[..m]);
    }
  }

  /** After publication every crash leaves a readable bundle. */
  lemma CompleteIsReadable(
    codec: Codec, artifacts: Artifacts, d: Disk, keep: seq<bool>, found: Found, fileBytes: int, totalBytes: int)
    requires Publishable(artifacts, fileBytes, totalBytes) && Faithful(codec, Describe(codec, artifacts, ROLES))
    requires Complete(d, artifacts, codec.encode(Describe(codec, artifacts, ROLES))) && CrashesTo(d, keep, found)
    ensures Readable(codec, found, fileBytes, totalBytes)
  {
    var entries := Describe(codec, artifacts, ROLES);
    SizesAgree(codec, artifacts, ROLES);
    RolesDiffer();
    assert Survive(d.durable, d.pending, keep) == d.durable;
    assert MANIFEST in found.value && found.value[MANIFEST] == codec.encode(entries);
    forall e | e in entries ensures EntryOk(e, fileBytes) && Matches(codec, found.value, e) {
      var i :| 0 <= i < |entries| && entries[i] == e;
      assert ROLES[i] in ROLES;
    }
  }

  // ---------- publication

  function Binds(n: nat): seq<Change>
    requires n <= |ROLES|
  {
    seq(n, i requires 0 <= i < n => Bind(ROLES[i], i))
  }

  /** The directory after n artifacts have been written and synced. */
  ghost predicate Writing(d: Disk, artifacts: Artifacts, n: nat)
    requires n <= |ROLES| && forall r :: r in ROLES ==> r in artifacts
  {
    && d.exists_ && !d.anchored && d.durable == map[] && d.pending == Binds(n)
    && |d.files| == n && forall i :: 0 <= i < n ==> d.files[i] == Stored(artifacts[ROLES[i]], true)
  }

  lemma {:induction false} LiveWriting(d: Disk, n: nat)
    requires n <= |ROLES| && d.durable == map[] && d.pending == Binds(n)
    ensures forall i :: 0 <= i < n ==> ROLES[i] in Live(d) && Live(d)[ROLES[i]] == i
    ensures forall name :: name in Live(d) ==> name in ROLES[..n]
    decreases n
  {
    if n > 0 {
      hide Live, Survive;
      var before := d.(pending := Binds(n - 1));
      LiveWriting(before, n - 1);
      assert d.pending == before.pending + [Bind(ROLES[n - 1], n - 1)];
      LiveGrows(before, Bind(ROLES[n - 1], n - 1));
      assert d == before.(pending := before.pending + [Bind(ROLES[n - 1], n - 1)]);
      RolesDiffer();
      assert forall name :: name in ROLES[..n - 1] ==> name in ROLES[..n];
      assert ROLES[..n][n - 1] == ROLES[n - 1];
    }
  }

  lemma RoleIsNew(d: Disk, n: nat)
    requires n < |ROLES| && d.durable == map[] && d.pending == Binds(n)
    ensures ROLES[n] !in Live(d)
  {
    hide Live, Binds;
    LiveWriting(d, n);
    RolesDiffer();
  }

  lemma WritingIsSafe(d: Disk, n: nat, data: Bytes)
    requires n < |ROLES| && d.durable == map[] && d.pending == Binds(n) && |d.files| == n
    ensures var c := Created(d, ROLES[n]);
      NoManifest(c) && NoManifest(Filled(c, n, data)) && NoManifest(Flushed(Filled(c, n, data), n))
  {
    RolesDiffer();
    assert ROLES[n] in ROLES;
    assert forall c :: c in Binds(n) ==> c.name in ROLES;
  }

  lemma WritingGrows(d: Disk, artifacts: Artifacts, n: nat)
    requires n < |ROLES| && (forall r :: r in ROLES ==> r in artifacts) && Writing(d, artifacts, n)
    ensures Writing(Flushed(Filled(Created(d, ROLES[n]), n, artifacts[ROLES[n]]), n), artifacts, n + 1)
  {
    assert Binds(n + 1) == Binds(n) + [Bind(ROLES[n], n)];
  }

  /** The directory once its names are settled and before the manifest is written. */
  predicate Settling(d: Disk, artifacts: Artifacts, encoded: Bytes) {
    && d.exists_ && d.pending == [] && |d.files| == |ROLES|
    && Sealed(d, artifacts, encoded) && MANIFEST !in d.durable && PENDING !in d.durable
  }

  lemma WrittenSettles(d: Disk, artifacts: Artifacts, encoded: Bytes)
    requires (forall r :: r in ROLES ==> r in artifacts) && Writing(d, artifacts, |ROLES|)
    ensures Settling(Settled(d), artifacts, encoded)
  {
    RolesDiffer();
    LiveWriting(d, |ROLES|);
    assert ROLES[..|ROLES|] == ROLES;
  }

  /** The states that bind the manifest, in order. */
  function Pended(d: Disk, encoded: Bytes): Disk
    requires |d.files| == |ROLES|
  {
    Flushed(Filled(Created(d, PENDING), |ROLES|, encoded), |ROLES|)
  }

  lemma PendedIsSafe(d: Disk, artifacts: Artifacts, encoded: Bytes)
    requires Settling(d, artifacts, encoded)
    ensures var c := Created(d, PENDING);
      NoManifest(c) && NoManifest(Filled(c, |ROLES|, encoded)) && NoManifest(Pended(d, encoded))
    ensures Sealed(Pended(d, encoded), artifacts, encoded) && Holds(Pended(d, encoded), |ROLES|, encoded)
    ensures PENDING !in Live(d) && Live(Pended(d, encoded)) == d.durable[PENDING := |ROLES|]
  {
    RolesDiffer();
    assert Live(d) == d.durable;
    LiveGrows(d, Bind(PENDING, |ROLES|));
    var p := Pended(d, encoded);
    assert p.pending == [Bind(PENDING, |ROLES|)] && p.durable == d.durable;
    assert Live(p) == Live(d.(pending := d.pending + [Bind(PENDING, |ROLES|)]));
  }

  /** Binding and unbinding around a sealed directory keeps it sealed. */
  lemma SealedStays(d: Disk, artifacts: Artifacts, encoded: Bytes, change: Change)
    requires Sealed(d, artifacts, encoded) && change.name !in ROLES
    requires change.name == MANIFEST ==> change.Bind? && Holds(d, change.id, encoded)
    ensures Sealed(d.(pending := d.pending + [change]), artifacts, encoded)
  {
  }

  lemma SealedSettles(d: Disk, artifacts: Artifacts, encoded: Bytes)
    requires Sealed(d, artifacts, encoded)
    ensures Sealed(Settled(d), artifacts, encoded)
  {
    var keep := seq(|d.pending|, _ => true);
    forall r | r in ROLES ensures r in Live(d) && Live(d)[r] == d.durable[r] {
      SurvivesUnnamed(d.durable, d.pending, keep, r);
    }
    if MANIFEST in Live(d) { SurvivesFrom(d.durable, d.pending, keep, MANIFEST); }
  }

  method Publish(fs: Filesystem, codec: Codec, artifacts: Artifacts, fileBytes: int, totalBytes: int) returns (ok: bool)
    modifies fs
    ensures ok == (Publishable(artifacts, fileBytes, totalBytes) && !old(fs.disk).exists_)
    ensures !ok ==> fs.disk == old(fs.disk) && fs.history == old(fs.history)
    ensures ok ==>
      var encoded := codec.encode(Describe(codec, artifacts, ROLES));
      && Complete(fs.disk, artifacts, encoded)
      && Traced(old(fs.disk), old(fs.history), fs.disk, fs.history)
      && forall i :: |old(fs.history)| <= i < |fs.history| ==> Safe(fs.history[i], artifacts, encoded)
  {
    if !Publishable(artifacts, fileBytes, totalBytes) { return false; }
    hide *;
    ok := WriteBundle(fs, artifacts, codec.encode(Describe(codec, artifacts, ROLES)));
  }

  method WriteBundle(fs: Filesystem, artifacts: Artifacts, encoded: Bytes) returns (ok: bool)
    requires forall r :: r in ROLES ==> r in artifacts
    modifies fs
    ensures ok == !old(fs.disk).exists_
    ensures !ok ==> fs.disk == old(fs.disk) && fs.history == old(fs.history)
    ensures ok ==>
      && Complete(fs.disk, artifacts, encoded)
      && Traced(old(fs.disk), old(fs.history), fs.disk, fs.history)
      && forall i :: |old(fs.history)| <= i < |fs.history| ==> Safe(fs.history[i], artifacts, encoded)
  {
    hide Sealed, OneAct;
    ok := fs.MakeDirectory();
    if !ok { return; }
    ghost var d, h := fs.disk, fs.history;
    WriteArtifacts(fs, artifacts, encoded);
    TracedTwice(old(fs.disk), old(fs.history), d, h, fs.disk, fs.history);
    d, h := fs.disk, fs.history;
    WriteManifest(fs, artifacts, encoded);
    TracedTwice(old(fs.disk), old(fs.history), d, h, fs.disk, fs.history);
  }

  method WriteArtifacts(fs: Filesystem, artifacts: Artifacts, encoded: Bytes)
    requires (forall r :: r in ROLES ==> r in artifacts) && fs.disk == Disk(true, false, [], map[], [])
    modifies fs
    ensures Settling(fs.disk, artifacts, encoded) && Traced(old(fs.disk), old(fs.history), fs.disk, fs.history)
    ensures forall i :: |old(fs.history)| <= i < |fs.history| ==> Safe(fs.history[i], artifacts, encoded)
  {
    hide Sealed, NoManifest;
    var n := 0;
    while n < |ROLES|
      invariant n <= |ROLES| && Writing(fs.disk, artifacts, n)
      invariant Traced(old(fs.disk), old(fs.history), fs.disk, fs.history)
      invariant forall i :: |old(fs.history)| <= i < |fs.history| ==> Safe(fs.history[i], artifacts, encoded)
    {
      RoleIsNew(fs.disk, n);
      WritingIsSafe(fs.disk, n, artifacts[ROLES[n]]);
      WritingGrows(fs.disk, artifacts, n);
      ghost var d, h := fs.disk, fs.history;
      var ok := fs.WriteFile(ROLES[n], artifacts[ROLES[n]]);
      TracedTwice(old(fs.disk), old(fs.history), d, h, fs.disk, fs.history);
      n := n + 1;
    }
    WrittenSettles(fs.disk, artifacts, encoded);
    ghost var d, h := fs.disk, fs.history;
    fs.SyncDirectory();
    TracedTwice(old(fs.disk), old(fs.history), d, h, fs.disk, fs.history);
  }

  method WriteManifest(fs: Filesystem, artifacts: Artifacts, encoded: Bytes)
    requires Settling(fs.disk, artifacts, encoded)
    modifies fs
    ensures Complete(fs.disk, artifacts, encoded) && Traced(old(fs.disk), old(fs.history), fs.disk, fs.history)
    ensures forall i :: |old(fs.history)| <= i < |fs.history| ==> Safe(fs.history[i], artifacts, encoded)
  {
    hide Sealed, NoManifest, Live, OneAct;
    RolesDiffer();
    PendedIsSafe(fs.disk, artifacts, encoded);
    var ok := fs.WriteFile(PENDING, encoded);
    ghost var d, h := fs.disk, fs.history;
    SealedStays(d, artifacts, encoded, Bind(MANIFEST, |ROLES|));
    LiveGrows(d, Bind(MANIFEST, |ROLES|));
    ok := fs.Link(PENDING, MANIFEST);
    TracedTwice(old(fs.disk), old(fs.history), d, h, fs.disk, fs.history);
    d, h := fs.disk, fs.history;
    SealedStays(d, artifacts, encoded, Unbind(PENDING));
    LiveGrows(d, Unbind(PENDING));
    ok := fs.Unlink(PENDING);
    TracedTwice(old(fs.disk), old(fs.history), d, h, fs.disk, fs.history);
    Finish(fs, artifacts, encoded, old(fs.disk), old(fs.history));
  }

  /** Makes the names durable, then the directory's own. */
  method Finish(fs: Filesystem, artifacts: Artifacts, encoded: Bytes, ghost start: Disk, ghost before: seq<Disk>)
    requires Sealed(fs.disk, artifacts, encoded) && MANIFEST in Live(fs.disk) && fs.disk.exists_
    requires Traced(start, before, fs.disk, fs.history)
    requires forall i :: |before| <= i < |fs.history| ==> Safe(fs.history[i], artifacts, encoded)
    modifies fs
    ensures Complete(fs.disk, artifacts, encoded) && Traced(start, before, fs.disk, fs.history)
    ensures forall i :: |before| <= i < |fs.history| ==> Safe(fs.history[i], artifacts, encoded)
  {
    hide Sealed, NoManifest, Live, OneAct;
    ghost var d, h := fs.disk, fs.history;
    SealedSettles(d, artifacts, encoded);
    fs.SyncDirectory();
    TracedTwice(start, before, d, h, fs.disk, fs.history);
    d, h := fs.disk, fs.history;
    Anchoring(d, artifacts, encoded);
    fs.SyncParent();
    TracedTwice(start, before, d, h, fs.disk, fs.history);
  }

  lemma Anchoring(d: Disk, artifacts: Artifacts, encoded: Bytes)
    requires Sealed(d, artifacts, encoded)
    ensures Sealed(d.(anchored := true), artifacts, encoded)
  {
  }

  // ---------- publication, crash and reading

  /** Reading after a crash at any moment of a publication gives the published
      artifacts or nothing, and after its last act it gives them. */
  method ReadAfterCrash(codec: Codec, ghost artifacts: Artifacts, ghost d: Disk, ghost keep: seq<bool>, found: Found,
                        fileBytes: int, totalBytes: int)
    returns (r: Option<Artifacts>)
    requires Publishable(artifacts, fileBytes, totalBytes)
    requires Safe(d, artifacts, codec.encode(Describe(codec, artifacts, ROLES))) && CrashesTo(d, keep, found)
    ensures r.None? || r.value == artifacts
    ensures Complete(d, artifacts, codec.encode(Describe(codec, artifacts, ROLES))) ==>
      Faithful(codec, Describe(codec, artifacts, ROLES)) ==> r.Some?
  {
    hide Safe, Complete, Faithful, CrashesTo, Readable, Describe;
    r := ReadBundle(codec, found, fileBytes, totalBytes);
    ghost var encoded := codec.encode(Describe(codec, artifacts, ROLES));
    if r.Some? {
      CrashIsAllOrNothing(codec, artifacts, encoded, d, keep, found, fileBytes, totalBytes);
    } else if Complete(d, artifacts, encoded) && Faithful(codec, Describe(codec, artifacts, ROLES)) {
      CompleteIsReadable(codec, artifacts, d, keep, found, fileBytes, totalBytes);
    }
  }
}
