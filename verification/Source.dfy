/** The byte stream that identifies a source tree, and the paths and links it admits. */
module Source {
  import opened Basics
  import opened Text

  const SLASH: Byte := 0x2F

  // ---------- paths

  function Lower(b: Byte): Byte { if 65 <= b <= 90 then b + 32 else b }

  function LowerAll(s: Bytes): (r: Bytes)
    ensures |r| == |s| && forall i :: 0 <= i < |s| ==> r[i] == Lower(s[i])
  {
    seq(|s|, i requires 0 <= i < |s| => Lower(s[i]))
  }

  /** The bytes without trailing spaces and dots. */
  function Stripped(s: Bytes): Bytes {
    if s != [] && (s[|s| - 1] == 0x20 || s[|s| - 1] == 0x2E) then Stripped(s[..|s| - 1]) else s
  }

  const GIT: Bytes := [0x2E, 0x67, 0x69, 0x74]

  predicate Git(part: Bytes) { Stripped(LowerAll(part)) == GIT }

  predicate Blank(b: Byte) { b == 0x20 || b == 0x2E }

  lemma {:induction false} StrippedIs(s: Bytes, n: nat)
    requires n <= |s| && (forall i :: n <= i < |s| ==> Blank(s[i])) && (n > 0 ==> !Blank(s[n - 1]))
    ensures Stripped(s) == s[..n]
    decreases |s|
  {
    if n < |s| {
      assert Blank(s[|s| - 1]);
      StrippedIs(s[..|s| - 1], n);
      assert s[..|s| - 1][..n] == s[..n];
    } else {
      assert s[..n] == s;
    }
  }

  lemma {:induction false} StrippedShape(s: Bytes)
    ensures |Stripped(s)| <= |s| && Stripped(s) == s[..|Stripped(s)|]
    ensures forall i :: |Stripped(s)| <= i < |s| ==> Blank(s[i])
  {
    if s != [] && Blank(s[|s| - 1]) {
      StrippedShape(s[..|s| - 1]);
      assert s[..|s| - 1][..|Stripped(s)|] == s[..|Stripped(s)|];
    }
  }

  /** Git's own directory, in either case, whatever spaces and dots follow. */
  lemma GitIsExact(part: Bytes)
    ensures Git(part) <==>
      && |part| >= 4 && part[0] == 0x2E && part[1] in {0x47, 0x67} && part[2] in {0x49, 0x69} && part[3] in {0x54, 0x74}
      && forall i :: 4 <= i < |part| ==> Blank(part[i])
  {
    var s := LowerAll(part);
    StrippedShape(s);
    if Git(part) {
      assert |Stripped(s)| == 4 && s[0] == GIT[0] && s[1] == GIT[1] && s[2] == GIT[2] && s[3] == GIT[3];
      forall i | 4 <= i < |part| ensures Blank(part[i]) { assert Blank(s[i]); }
    } else if |part| >= 4 && s[..4] == GIT && forall i :: 4 <= i < |part| ==> Blank(part[i]) {
      StrippedIs(s, 4);
    }
  }

  predicate Here(part: Bytes) { part == [] || part == [0x2E] }
  predicate Up(part: Bytes) { part == [0x2E, 0x2E] }

  /** A component that names something below its directory and not Git's own. */
  predicate SafePart(part: Bytes) { !Here(part) && !Up(part) && !Git(part) }

  predicate SafeParts(parts: seq<Bytes>) { forall p :: p in parts ==> SafePart(p) }

  predicate PathOk(raw: Bytes) {
    raw != [] && |raw| <= 4096 && 0 !in raw && 0x5C !in raw && SafeParts(Split(raw, SLASH))
  }

  /** The path that a hexadecimal field names, when the field is canonical. */
  function PathBytes(field: string): Option<Bytes> {
    var raw := ParseHex(field);
    if raw.None? || Hex(raw.value) != field || !PathOk(raw.value) then None else raw
  }

  /** Every admitted path has exactly one field. */
  lemma PathFieldIsUnique(raw: Bytes, field: string)
    requires PathOk(raw)
    ensures PathBytes(field) == Some(raw) <==> field == Hex(raw)
  {
    hide PathOk;
    HexParses(raw);
  }

  // ---------- links

  /** Where a walk over components ends, if it never leaves the root. */
  function Walk(dir: seq<Bytes>, parts: seq<Bytes>): (r: Option<seq<Bytes>>) {
    if parts == [] then Some(dir) else
      var before := Walk(dir, parts[..|parts| - 1]);
      if before.None? then None else
        var part := parts[|parts| - 1];
        if Here(part) then before
        else if Up(part) then if before.value == [] then None else Some(before.value[..|before.value| - 1])
        else if Git(part) then None
        else Some(before.value + [part])
  }

  /** How deep a walk is after some components, counting up steps as negative. */
  function Depth(start: nat, parts: seq<Bytes>): int {
    if parts == [] then start else
      var last, before := parts[|parts| - 1], Depth(start, parts[..|parts| - 1]);
      if Here(last) then before else if Up(last) then before - 1 else before + 1
  }

  ghost predicate StaysInside(start: nat, parts: seq<Bytes>) {
    forall k: nat :: k <= |parts| ==> Depth(start, parts[..k]) >= 0
  }

  ghost predicate AvoidsGit(parts: seq<Bytes>) {
    forall k :: 0 <= k < |parts| ==> Here(parts[k]) || Up(parts[k]) || !Git(parts[k])
  }

  /** A walk succeeds exactly when it never climbs above the root and names
      nothing of Git's, and then ends at a safe place of that depth. */
  lemma {:induction false} WalkIsExact(dir: seq<Bytes>, parts: seq<Bytes>)
    requires SafeParts(dir)
    ensures Walk(dir, parts).Some? <==> StaysInside(|dir|, parts) && AvoidsGit(parts)
    ensures Walk(dir, parts).Some? ==>
      |Walk(dir, parts).value| == Depth(|dir|, parts) && SafeParts(Walk(dir, parts).value)
  {
    hide Git, Here, Up;
    if parts == [] {
      assert parts[..0] == parts;
    } else {
      var n := |parts| - 1;
      var before := parts[..n];
      WalkIsExact(dir, before);
      assert parts[..|parts|] == parts;
      assert forall k: nat :: k <= n ==> before[..k] == parts[..k];
      if Walk(dir, before).Some? { WalkStep(Walk(dir, before).value, parts[n]); }
      assert StaysInside(|dir|, parts) <==> StaysInside(|dir|, before) && Depth(|dir|, parts) >= 0 by {
        if StaysInside(|dir|, parts) {
          assert Depth(|dir|, parts[..|parts|]) >= 0;
          forall k: nat | k <= n ensures Depth(|dir|, before[..k]) >= 0 { assert Depth(|dir|, parts[..k]) >= 0; }
        }
        if StaysInside(|dir|, before) && Depth(|dir|, parts) >= 0 {
          forall k: nat | k <= |parts| ensures Depth(|dir|, parts[..k]) >= 0 {
            if k <= n { assert Depth(|dir|, before[..k]) >= 0; }
          }
        }
      }
      assert AvoidsGit(parts) <==> AvoidsGit(before) && (Here(parts[n]) || Up(parts[n]) || !Git(parts[n]));
    }
  }

  lemma WalkStep(stack: seq<Bytes>, part: Bytes)
    requires SafeParts(stack)
    ensures stack != [] ==> SafeParts(stack[..|stack| - 1])
    ensures SafePart(part) ==> SafeParts(stack + [part])
  {
    hide SafePart;
  }

  function Directory(path: Bytes): seq<Bytes> {
    var parts := Split(path, SLASH);
    parts[..|parts| - 1]
  }

  predicate TargetOk(target: Bytes) {
    target != [] && |target| <= 4096 && 0 !in target && target[0] != SLASH && 0x5C !in target
  }

  /** The component stack of a link's target, pushed and popped. */
  method SafeLink(path: Bytes, target: Bytes) returns (ok: bool)
    ensures ok <==> TargetOk(target) && Walk(Directory(path), Split(target, SLASH)).Some?
  {
    hide Git, Split;
    if !TargetOk(target) { return false; }
    var parts := Directory(path);
    var components := Split(target, SLASH);
    for i := 0 to |components|
      invariant Walk(Directory(path), components[..i]) == Some(parts)
    {
      var part := components[i];
      assert components[..i + 1][..i] == components[..i];
      if Here(part) {
      } else if Up(part) {
        if parts == [] {
          WalkFails(Directory(path), components, i + 1);
          return false;
        }
        parts := parts[..|parts| - 1];
      } else {
        if Git(part) {
          WalkFails(Directory(path), components, i + 1);
          return false;
        }
        parts := parts + [part];
      }
    }
    assert components[..|components|] == components;
    ok := true;
  }

  lemma {:induction false} WalkFails(dir: seq<Bytes>, parts: seq<Bytes>, n: nat)
    requires n <= |parts| && Walk(dir, parts[..n]).None?
    ensures Walk(dir, parts).None?
  {
    if n == |parts| {
      assert parts[..n] == parts;
    } else {
      var m := |parts| - 1;
      assert parts[..m][..n] == parts[..n];
      WalkFails(dir, parts[..m], n);
    }
  }

  /** An admitted link of an admitted path resolves inside the checkout. */
  lemma SafeLinkStaysInside(path: Bytes, target: Bytes)
    requires PathOk(path) && Walk(Directory(path), Split(target, SLASH)).Some?
    ensures StaysInside(|Directory(path)|, Split(target, SLASH))
    ensures SafeParts(Walk(Directory(path), Split(target, SLASH)).value)
  {
    hide Git, Walk, Split, SafePart;
    WalkIsExact(Directory(path), Split(target, SLASH));
  }

  // ---------- the identity stream

  /** One tracked path: missing, or a file or link with its mode and digest. */
  datatype Entry = Missing(path: Bytes) | Present(path: Bytes, link: bool, mode: nat, digest: Bytes)

  predicate EntryOk(e: Entry) {
    PathOk(e.path) && (e.Present? ==> e.mode <= 0x1FF && |e.digest| == 32)
  }

  function Little4Value(b: Bytes): nat
    requires |b| == 4
  {
    b[0] as int + 256 * b[1] as int + 65536 * b[2] as int + 16777216 * b[3] as int
  }

  /** Digits of a mode as bytes. */
  function Digits(n: nat): (r: Bytes)
    ensures r != [] && forall i :: 0 <= i < |r| ==> 48 <= r[i] <= 57
  {
    seq(|Decimal(n)|, i requires 0 <= i < |Decimal(n)| => Decimal(n)[i] as int)
  }

  function Chars(b: Bytes): string { seq(|b|, i requires 0 <= i < |b| => b[i] as char) }

  lemma DigitsParse(n: nat)
    ensures ParseDecimal(Chars(Digits(n))) == Some(n)
  {
    assert Chars(Digits(n)) == Decimal(n);
    DecimalParses(n);
  }

  const MISSING: Bytes := [109, 105, 115, 115, 105, 110, 103]
  const FILE: Bytes := [102, 105, 108, 101]
  const LINK: Bytes := [108, 105, 110, 107]

  /** What is hashed after the path. */
  function Tail(e: Entry): Bytes {
    if e.Missing? then MISSING else Digits(e.mode) + [0] + (if e.link then LINK else FILE) + e.digest
  }

  function Record(e: Entry): Bytes
    requires |e.path| <= 0xFFFFFFFF
  {
    Little4(|e.path|) + e.path + Tail(e)
  }

  /** A record spelled out: the length and the path, then a word for a missing path, or
      the mode in decimal, a zero, the kind's word and the digest. */
  lemma RecordIsSpelled(e: Entry)
    requires |e.path| <= 0xFFFFFFFF
    ensures var r, n := Record(e), |e.path| + 4;
      && |r| >= n && Little4Value(r[..4]) == |e.path| && r[4..n] == e.path
      && Chars(r[n..]) == if e.Missing? then "missing"
                          else Decimal(e.mode) + [0 as char] + (if e.link then "link" else "file") + Chars(e.digest)
  {
    hide Decimal, Little4;
    WordsAreSpelled();
    var r, n := Record(e), |e.path| + 4;
    assert r[..4] == Little4(|e.path|) && r[n..] == Tail(e);
    if e.Present? {
      hide Little4Value;
      TailIsSpelled(e);
    }
  }

  lemma WordsAreSpelled()
    ensures Chars(MISSING) == "missing" && Chars(FILE) == "file" && Chars(LINK) == "link" && Chars(GIT) == ".git"
  {
  }

  lemma CharsJoin(a: Bytes, b: Bytes)
    ensures Chars(a + b) == Chars(a) + Chars(b)
  {
  }

  lemma TailIsSpelled(e: Entry)
    requires e.Present?
    ensures Chars(Tail(e)) == Decimal(e.mode) + [0 as char] + (if e.link then "link" else "file") + Chars(e.digest)
  {
    hide Decimal;
    WordsAreSpelled();
    var word := if e.link then LINK else FILE;
    assert Chars(Digits(e.mode)) == Decimal(e.mode) && Chars([0]) == [0 as char];
    hide Chars, Digits;
    CharsJoin(Digits(e.mode), [0]);
    CharsJoin(Digits(e.mode) + [0], word);
    CharsJoin(Digits(e.mode) + [0] + word, e.digest);
  }

  predicate AllOk(entries: seq<Entry>) { forall i :: 0 <= i < |entries| ==> EntryOk(entries[i]) }

  predicate PathsOk(entries: seq<Entry>) { forall i :: 0 <= i < |entries| ==> PathOk(entries[i].path) }

  function Preimage(entries: seq<Entry>): Bytes
    requires PathsOk(entries)
  {
    if entries == [] then [] else Record(entries[0]) + Preimage(entries[1..])
  }

  // ---------- decoding the stream

  /** Mode, kind and digest, or the missing mark, and how many bytes they take. */
  function ReadTail(path: Bytes, s: Bytes): (r: Option<(Entry, nat)>)
    ensures r.Some? ==> 0 < r.value.1 <= |s|
  {
    if |s| >= 7 && s[..7] == MISSING then Some((Missing(path), 7)) else
      var n := Head(s, 0);
      if n + 37 > |s| then None else
        var mode, kind, digest := ParseDecimal(Chars(s[..n])), s[n + 1..n + 5], s[n + 5..n + 37];
        if mode.None? || (kind != FILE && kind != LINK) then None
        else Some((Present(path, kind == LINK, mode.value, digest), n + 37))
  }

  function ReadEntry(s: Bytes): (r: Option<(Entry, nat)>)
    ensures r.Some? ==> 0 < r.value.1 <= |s|
  {
    if |s| < 4 then None else
      var n := Little4Value(s[..4]);
      if n + 4 > |s| then None else
        var tail := ReadTail(s[4..n + 4], s[n + 4..]);
        if tail.None? then None else Some((tail.value.0, n + 4 + tail.value.1))
  }

  function ReadAll(s: Bytes): Option<seq<Entry>>
    decreases |s|
  {
    if s == [] then Some([]) else
      var first := ReadEntry(s);
      if first.None? then None else
        var rest := ReadAll(s[first.value.1..]);
        if rest.None? then None else Some([first.value.0] + rest.value)
  }

  lemma TailReads(e: Entry, rest: Bytes)
    requires EntryOk(e)
    ensures ReadTail(e.path, Tail(e) + rest) == Some((e, |Tail(e)|))
  {
    hide PathOk, ParseDecimal, Chars, Digits;
    var s := Tail(e) + rest;
    if e.Missing? {
      assert s[..7] == MISSING;
    } else {
      var d := Digits(e.mode);
      var kind := if e.link then LINK else FILE;
      var after := kind + e.digest + rest;
      assert s == d + [0] + after;
      assert s[0] == d[0] && s[..7][0] == d[0];
      assert 0 !in d;
      HeadOfJoined(d, after, 0);
      assert s[..|d|] == d;
      assert s[|d| + 1..|d| + 5] == kind && s[|d| + 5..|d| + 37] == e.digest;
      DigitsParse(e.mode);
      assert LINK[0] != FILE[0];
    }
  }

  lemma EntryReads(e: Entry, rest: Bytes)
    requires EntryOk(e)
    ensures ReadEntry(Record(e) + rest) == Some((e, |Record(e)|))
  {
    hide ReadTail, Tail, Little4;
    assert |e.path| <= 4096;
    hide PathOk;
    var s, n := Record(e) + rest, |e.path|;
    assert s[..4] == Little4(n);
    assert s[4..n + 4] == e.path;
    assert s[n + 4..] == Tail(e) + rest;
    TailReads(e, rest);
  }

  /** The stream is uniquely decodable. */
  lemma {:induction false} PreimageReads(entries: seq<Entry>)
    requires AllOk(entries)
    ensures ReadAll(Preimage(entries)) == Some(entries)
  {
    hide ReadEntry, Record, PathOk;
    if entries != [] {
      var rest := Preimage(entries[1..]);
      assert EntryOk(entries[0]);
      RecordIsLong(entries[0]);
      EntryReads(entries[0], rest);
      PreimageReads(entries[1..]);
      var s := Record(entries[0]) + rest;
      assert s[|Record(entries[0])|..] == rest;
      assert entries == [entries[0]] + entries[1..];
    }
  }

  lemma RecordIsLong(e: Entry)
    requires PathOk(e.path)
    ensures |e.path| <= 0xFFFFFFFF && |Record(e)| > 0
  {
  }

  /** So different trees have different preimages. */
  lemma PreimageIsInjective(a: seq<Entry>, b: seq<Entry>)
    requires AllOk(a) && AllOk(b) && Preimage(a) == Preimage(b)
    ensures a == b
  {
    hide Preimage, ReadAll, PathOk;
    PreimageReads(a);
    PreimageReads(b);
  }

  // ---------- two ways to hash a tree

  /** What lies at a path of the working tree. */
  datatype Node = Nothing | File(mode: nat, content: Bytes) | Link(mode: nat, target: Bytes) | Other(mode: nat)

  /** The entry that scanning records for a path, unless it refuses. */
  function Scanned(sha: Bytes -> Bytes, path: Bytes, node: Node): Option<Entry> {
    if !PathOk(path) then None
    else if node.Nothing? then Some(Missing(path))
    else if node.mode > 0x1FF || node.Other? then None
    else if node.File? then Some(Present(path, false, node.mode, sha(node.content)))
    else if !TargetOk(node.target) || Walk(Directory(path), Split(node.target, SLASH)).None? then None
    else Some(Present(path, true, node.mode, sha(node.target)))
  }

  function Scan(sha: Bytes -> Bytes, paths: seq<Bytes>, tree: Bytes -> Node): Option<seq<Entry>> {
    if paths == [] then Some([]) else
      var first, rest := Scanned(sha, paths[0], tree(paths[0])), Scan(sha, paths[1..], tree);
      if first.None? || rest.None? then None else Some([first.value] + rest.value)
  }

  /** The stream that the runner's own identity feeds for a path. */
  function Observed(sha: Bytes -> Bytes, path: Bytes, node: Node): Option<Bytes> {
    if |path| > 0xFFFFFFFF || node.Other? then None else
      var head := Little4(|path|) + path;
      if node.Nothing? then Some(head + MISSING)
      else if node.Link? then Some(head + Digits(node.mode) + [0] + LINK + sha(node.target))
      else Some(head + Digits(node.mode) + [0] + FILE + sha(node.content))
  }

  function ObservedAll(sha: Bytes -> Bytes, paths: seq<Bytes>, tree: Bytes -> Node): Option<Bytes> {
    if paths == [] then Some([]) else
      var first, rest := Observed(sha, paths[0], tree(paths[0])), ObservedAll(sha, paths[1..], tree);
      if first.None? || rest.None? then None else Some(first.value + rest.value)
  }

  ghost predicate DigestSize(sha: Bytes -> Bytes) { forall b :: |sha(b)| == 32 }

  /** On any tree that scanning admits both identities hash the same stream. */
  lemma {:induction false} IdentitiesAgree(sha: Bytes -> Bytes, paths: seq<Bytes>, tree: Bytes -> Node)
    requires DigestSize(sha) && Scan(sha, paths, tree).Some?
    ensures AllOk(Scan(sha, paths, tree).value)
    ensures ObservedAll(sha, paths, tree) == Some(Preimage(Scan(sha, paths, tree).value))
  {
    hide Scanned, Observed, Record, PathOk;
    if paths != [] {
      EntriesAgree(sha, paths[0], tree(paths[0]));
      IdentitiesAgree(sha, paths[1..], tree);
      var all := Scan(sha, paths, tree).value;
      assert all[1..] == Scan(sha, paths[1..], tree).value;
    }
  }

  lemma EntriesAgree(sha: Bytes -> Bytes, path: Bytes, node: Node)
    requires DigestSize(sha) && Scanned(sha, path, node).Some?
    ensures var e := Scanned(sha, path, node).value;
      EntryOk(e) && |e.path| <= 0xFFFFFFFF && Observed(sha, path, node) == Some(Record(e))
  {
    assert |path| <= 4096;
    hide PathOk, TargetOk, Walk, Little4;
    var e := Scanned(sha, path, node).value;
    var head := Little4(|path|) + path;
    assert Record(e) == head + Tail(e);
    if node.Link? {
      assert head + Digits(node.mode) + [0] + LINK + sha(node.target) == head + Tail(e);
    } else if node.File? {
      assert head + Digits(node.mode) + [0] + FILE + sha(node.content) == head + Tail(e);
    }
  }

  /** The hashing loop: each entry's path is admitted again and its record fed. */
  method Identity(entries: seq<Entry>) returns (stream: Option<Bytes>)
    ensures stream.Some? <==> PathsOk(entries)
    ensures stream.Some? ==> stream.value == Preimage(entries)
  {
    hide PathOk, Record;
    var fed := [];
    for i := 0 to |entries|
      invariant PathsOk(entries[..i]) && fed == Preimage(entries[..i])
    {
      if !PathOk(entries[i].path) { return None; }
      RecordIsLong(entries[i]);
      PreimageGrows(entries[..i], entries[i]);
      assert entries[..i + 1] == entries[..i] + [entries[i]];
      fed := fed + Record(entries[i]);
    }
    assert entries[..|entries|] == entries;
    stream := Some(fed);
  }

  lemma {:induction false} PreimageGrows(entries: seq<Entry>, e: Entry)
    requires PathsOk(entries) && PathOk(e.path)
    ensures PathsOk(entries + [e]) && |e.path| <= 0xFFFFFFFF && Preimage(entries + [e]) == Preimage(entries) + Record(e)
  {
    RecordIsLong(e);
    hide Record, PathOk;
    if entries == [] {
      assert entries + [e] == [e];
      assert [e][1..] == [];
    } else {
      PreimageGrows(entries[1..], e);
      assert (entries + [e])[1..] == entries[1..] + [e];
    }
  }
}
