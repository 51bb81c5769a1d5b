/** The fixed payload area of a version 8 flight event. */
module FlightPayload {
  import opened Basics

  const PAYLOAD_BYTES := 49

  /** The payload class of a kind of event. */
  function PayloadTag(kind: nat): nat {
    if 23 <= kind <= 26 then 1
    else if 27 <= kind <= 31 then 2
    else if 32 <= kind <= 38 then 3
    else if 39 <= kind <= 45 then 4
    else if 46 <= kind <= 50 then 5
    else if 51 <= kind <= 55 then 6
    else if 56 <= kind <= 58 then 7
    else if 61 <= kind <= 64 then 8
    else 0
  }

  /** A tag, four enumeration bytes, one 32-bit and five 64-bit fields. */
  datatype Payload = Payload(tag: nat, enums: seq<nat>, region: nat, words: seq<nat>)

  function PayloadOf(blob: Bytes): (f: Payload)
    requires |blob| == PAYLOAD_BYTES
    ensures |f.enums| == 4 && |f.words| == 5
  {
    Payload(blob[0], [blob[1], blob[2], blob[3], blob[4]], Word(blob, 5, 4),
            [Word(blob, 9, 8), Word(blob, 17, 8), Word(blob, 25, 8), Word(blob, 33, 8), Word(blob, 41, 8)])
  }

  /** How many enumeration bytes and 64-bit fields a class names, and whether it
      names the 32-bit field. */
  function NamedEnums(tag: nat): (n: nat)
    ensures n <= 4
  {
    if tag == 4 then 4 else if tag == 6 then 3 else if tag == 5 || tag == 7 || tag == 8 then 1 else 0
  }

  function NamedWords(tag: nat): (n: nat)
    ensures n <= 5
  {
    if tag == 0 then 0 else if tag == 4 then 1 else if tag == 1 || tag == 5 then 2 else if tag == 7 then 4 else 3
  }

  predicate NamesRegion(tag: nat) { tag == 4 || tag == 6 || tag == 7 }

  predicate AllZero(values: seq<nat>) { forall i :: 0 <= i < |values| ==> values[i] == 0 }

  predicate MountOk(kind: nat, f: Payload, generation: nat)
    requires |f.enums| == 4 && |f.words| == 5
  {
    var mode, stage, slot, damaged := f.enums[0], f.enums[1], f.enums[2], f.enums[3];
    && mode <= 3 && 1 <= stage <= 6 && slot <= 1 && damaged <= 1
    && (kind == 39 ==> stage == 1) && (kind == 40 ==> stage == 3) && (41 <= kind <= 44 ==> stage == 6)
    && (damaged != 0 ==> kind == 42) && (f.region != 0 ==> 41 <= kind <= 44)
    && (generation == 0 ==> slot == 0 && damaged == 0 && f.region == 0 && f.words[0] == 0)
  }

  predicate FormatOk(kind: nat, f: Payload)
    requires |f.enums| == 4 && |f.words| == 5
  {
    && 1 <= f.enums[0] <= 5 && f.words[0] != 0
    && (kind == 46 ==> f.enums[0] == 1) && (47 <= kind <= 49 ==> f.enums[0] == kind - 44)
    && (f.words[1] != 0 <==> kind == 48 || kind == 49)
  }

  predicate VerifyOk(kind: nat, f: Payload)
    requires |f.enums| == 4 && |f.words| == 5
  {
    var scope, phase, finding := f.enums[0], f.enums[1], f.enums[2];
    && 1 <= scope <= 3 && phase <= 16 && finding <= 11
    && (phase != 0 <==> kind == 52 || kind == 53 || kind == 55) && (finding != 0 <==> kind == 53)
    && (f.words[0] != 0 ==> kind == 53 || kind == 54)
    && (kind == 51 || kind == 54 ==> f.region == 0 && f.words[1] == 0 && f.words[2] == 0)
  }

  /** A payload carries the tag of its kind, values in the domain of its class, and
      zero in every field the class does not name. */
  predicate Describes(kind: nat, f: Payload, generation: nat)
    requires |f.enums| == 4 && |f.words| == 5
  {
    && f.tag == PayloadTag(kind)
    && AllZero(f.enums[NamedEnums(f.tag)..]) && AllZero(f.words[NamedWords(f.tag)..])
    && (!NamesRegion(f.tag) ==> f.region == 0)
    && (f.tag == 4 ==> MountOk(kind, f, generation))
    && (f.tag == 5 ==> FormatOk(kind, f))
    && (f.tag == 6 ==> VerifyOk(kind, f))
    && (f.tag == 7 ==> 1 <= f.enums[0] <= 3)
    && (f.tag == 8 ==> 1 <= f.enums[0] <= 4 && (f.enums[0] != 4 ==> f.words[1] != 0))
  }

  predicate PayloadOk(kind: nat, blob: Bytes, generation: nat) {
    |blob| == PAYLOAD_BYTES && Describes(kind, PayloadOf(blob), generation)
  }

  // ---------- nothing else can be in a payload

  lemma {:induction false} WordIsInjective(a: Bytes, b: Bytes, at: nat, n: nat)
    requires at + n <= |a| && at + n <= |b| && Word(a, at, n) == Word(b, at, n)
    ensures a[at..at + n] == b[at..at + n]
    decreases n
  {
    if n > 0 {
      assert a[at] == b[at];
      WordIsInjective(a, b, at + 1, n - 1);
      assert a[at..at + n] == [a[at]] + a[at + 1..at + 1 + (n - 1)];
      assert b[at..at + n] == [b[at]] + b[at + 1..at + 1 + (n - 1)];
    }
  }

  lemma PayloadIsInjective(a: Bytes, b: Bytes)
    requires |a| == PAYLOAD_BYTES == |b| && PayloadOf(a) == PayloadOf(b)
    ensures a == b
  {
    hide Word;
    var f, g := PayloadOf(a), PayloadOf(b);
    assert f.enums[0] == g.enums[0] && f.enums[1] == g.enums[1] && f.enums[2] == g.enums[2] && f.enums[3] == g.enums[3];
    assert forall i :: 0 <= i < 5 ==> f.words[i] == g.words[i];
    WordIsInjective(a, b, 5, 4);
    WordIsInjective(a, b, 9, 8);
    WordIsInjective(a, b, 17, 8);
    WordIsInjective(a, b, 25, 8);
    WordIsInjective(a, b, 33, 8);
    WordIsInjective(a, b, 41, 8);
    assert a == a[..5] + a[5..9] + a[9..17] + a[17..25] + a[25..33] + a[33..41] + a[41..49];
    assert b == b[..5] + b[5..9] + b[9..17] + b[17..25] + b[25..33] + b[33..41] + b[41..49];
  }

  /** Two accepted payloads of a kind that agree on the fields its class names are
      the same bytes. */
  lemma PayloadIsCanonical(kind: nat, a: Bytes, b: Bytes, g: nat, h: nat)
    requires PayloadOk(kind, a, g) && PayloadOk(kind, b, h)
    requires var x, y, tag := PayloadOf(a), PayloadOf(b), PayloadTag(kind);
      && x.enums[..NamedEnums(tag)] == y.enums[..NamedEnums(tag)]
      && x.words[..NamedWords(tag)] == y.words[..NamedWords(tag)]
      && (NamesRegion(tag) ==> x.region == y.region)
    ensures a == b
  {
    hide PayloadOf, MountOk, FormatOk, VerifyOk;
    var x, y, tag := PayloadOf(a), PayloadOf(b), PayloadTag(kind);
    SplitsAlike(x.enums, y.enums, NamedEnums(tag));
    SplitsAlike(x.words, y.words, NamedWords(tag));
    PayloadIsInjective(a, b);
  }

  lemma SplitsAlike(a: seq<nat>, b: seq<nat>, n: nat)
    requires n <= |a| == |b| && a[..n] == b[..n] && AllZero(a[n..]) && AllZero(b[n..])
    ensures a == b
  {
    assert a[n..] == b[n..];
    assert a == a[..n] + a[n..] && b == b[..n] + b[n..];
  }
}
