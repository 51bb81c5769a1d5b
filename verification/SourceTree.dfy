/** The inventory of a source package: which lists of entries make a tree. */
module SourceTree {
  import opened Basics
  import opened Text
  import opened Ordering
  import opened Source

  lemma {:induction false} JoinSplit(s: Bytes, sep: Byte)
    ensures Lacks(Split(s, sep), sep) && Join(Split(s, sep), sep) == s
    decreases |s|
  {
    var n := Head(s, sep);
    if n == |s| {
      assert s[..n] == s;
    } else {
      var rest := Split(s[n + 1..], sep);
      JoinSplit(s[n + 1..], sep);
      JoinsFirst(s[..n], rest, sep);
      assert s == s[..n] + [sep] + s[n + 1..];
    }
  }

  lemma JoinsFirst(a: Bytes, rest: seq<Bytes>, sep: Byte)
    requires rest != [] && sep !in a && Lacks(rest, sep)
    ensures Lacks([a] + rest, sep) && Join([a] + rest, sep) == a + [sep] + Join(rest, sep)
  {
    assert ([a] + rest)[1..] == rest;
  }

  // ---------- the rules

  function Parts(e: Entry): seq<Bytes> { Split(e.path, SLASH) }

  /** What a link entry must lead to: a target that stays in the checkout. */
  predicate ContentOk(e: Entry, blobs: map<Bytes, Bytes>) {
    e.Present? ==>
      && e.mode <= 0x1FF && e.digest in blobs
      && (e.link ==> TargetOk(blobs[e.digest]) && Walk(Directory(e.path), Split(blobs[e.digest], SLASH)).Some?)
  }

  predicate ContentsOk(entries: seq<Entry>, blobs: map<Bytes, Bytes>) {
    forall i :: 0 <= i < |entries| ==> ContentOk(entries[i], blobs)
  }

  /** Paths are listed in ascending order, each once. */
  predicate Listed(entries: seq<Entry>) {
    forall i, j :: 0 <= i < j < |entries| ==> Before(entries[i].path, entries[j].path)
  }

  predicate Holds(entries: seq<Entry>, path: Bytes) { exists i :: 0 <= i < |entries| && entries[i].path == path }

  /** No ancestor of the path is itself listed. */
  predicate Rooted(entries: seq<Entry>, e: Entry) {
    forall n :: 1 <= n < |Parts(e)| ==> !Holds(entries, Join(Parts(e)[..n], SLASH))
  }

  predicate AllRooted(entries: seq<Entry>) { forall i :: 0 <= i < |entries| ==> Rooted(entries, entries[i]) }

  predicate Admitted(entries: seq<Entry>, blobs: map<Bytes, Bytes>) {
    PathsOk(entries) && ContentsOk(entries, blobs) && Listed(entries) && AllRooted(entries)
  }

  // ---------- the loops

  /** Order is checked from neighbour to neighbour. */
  lemma {:induction false} NeighboursAscend(entries: seq<Entry>, i: nat, j: nat)
    requires i < j < |entries| && forall k :: 0 < k < |entries| ==> Before(entries[k - 1].path, entries[k].path)
    ensures Before(entries[i].path, entries[j].path)
    decreases j
  {
    hide Before;
    if i + 1 < j {
      NeighboursAscend(entries, i, j - 1);
      BeforeIsTransitive(entries[i].path, entries[j - 1].path, entries[j].path);
    }
  }

  method CheckEntries(entries: seq<Entry>, blobs: map<Bytes, Bytes>) returns (ok: bool)
    ensures ok <==> PathsOk(entries) && ContentsOk(entries, blobs)
  {
    hide PathOk, TargetOk, Walk, Directory, Split;
    for i := 0 to |entries|
      invariant PathsOk(entries[..i]) && ContentsOk(entries[..i], blobs)
    {
      var e := entries[i];
      assert entries[..i + 1] == entries[..i] + [e];
      if e.Present? && (e.mode > 0x1FF || e.digest !in blobs) {
        assert !ContentOk(entries[i], blobs);
        return false;
      }
      if !PathOk(e.path) { return false; }
      if e.Present? && e.link {
        var safe := SafeLink(e.path, blobs[e.digest]);
        if !safe {
          assert !ContentOk(entries[i], blobs);
          return false;
        }
      }
    }
    assert entries[..|entries|] == entries;
    ok := true;
  }

  method CheckOrder(entries: seq<Entry>) returns (ok: bool)
    ensures ok <==> Listed(entries)
  {
    hide Before;
    var i := 1;
    while i < |entries|
      invariant forall k :: 0 < k < i && k < |entries| ==> Before(entries[k - 1].path, entries[k].path)
    {
      if !Before(entries[i - 1].path, entries[i].path) { return false; }
      i := i + 1;
    }
    forall i, j | 0 <= i < j < |entries| ensures Before(entries[i].path, entries[j].path) {
      NeighboursAscend(entries, i, j);
    }
    ok := true;
  }

  method CheckAncestors(entries: seq<Entry>) returns (ok: bool)
    ensures ok <==> AllRooted(entries)
  {
    hide Split, Join;
    var paths := set i | 0 <= i < |entries| :: entries[i].path;
    for i := 0 to |entries|
      invariant forall k :: 0 <= k < i ==> Rooted(entries, entries[k])
    {
      var parts := Parts(entries[i]);
      for n := 1 to |parts|
        invariant forall m :: 1 <= m < n ==> !Holds(entries, Join(parts[..m], SLASH))
      {
        if Join(parts[..n], SLASH) in paths {
          assert Holds(entries, Join(parts[..n], SLASH));
          assert !Rooted(entries, entries[i]);
          return false;
        }
      }
    }
    ok := true;
  }

  /** Admission of the inventory. */
  method Admit(entries: seq<Entry>, blobs: map<Bytes, Bytes>) returns (ok: bool)
    ensures ok <==> Admitted(entries, blobs)
  {
    hide PathsOk, ContentsOk, Listed, AllRooted;
    ok := CheckEntries(entries, blobs);
    if ok { ok := CheckOrder(entries); }
    if ok { ok := CheckAncestors(entries); }
  }

  // ---------- what the rules achieve

  /** Entry e is reached through entry d, or is the same path. */
  predicate Through(d: Entry, e: Entry) { Parts(d) <= Parts(e) }

  /** The rules keep every path apart from every other: no entry lies below a listed
      file or link, and no path is listed twice. */
  lemma AdmittedIsApart(entries: seq<Entry>, blobs: map<Bytes, Bytes>, i: nat, j: nat)
    requires Admitted(entries, blobs) && i < |entries| && j < |entries| && i != j
    ensures !Through(entries[i], entries[j])
  {
    hide PathsOk, ContentsOk, Split, Join, Before;
    var d, e := entries[i], entries[j];
    if Through(d, e) {
      JoinSplit(d.path, SLASH);
      JoinSplit(e.path, SLASH);
      var n := |Parts(d)|;
      assert Parts(e)[..n] == Parts(d);
      if n == |Parts(e)| {
        assert Parts(d) == Parts(e);
        BeforeIsTotal(d.path, e.path);
      }
    }
  }

  /** And that is all they ask of the order's set of paths: paths that are apart pass. */
  lemma ApartIsRooted(entries: seq<Entry>)
    requires forall i, j :: 0 <= i < |entries| && 0 <= j < |entries| && i != j ==> !Through(entries[i], entries[j])
    ensures AllRooted(entries)
  {
    hide Split, Join;
    forall i, n | 0 <= i < |entries| && 1 <= n < |Parts(entries[i])|
      ensures !Holds(entries, Join(Parts(entries[i])[..n], SLASH))
    {
      var parts := Parts(entries[i]);
      if k :| 0 <= k < |entries| && entries[k].path == Join(parts[..n], SLASH) {
        JoinSplit(entries[i].path, SLASH);
        SplitJoin(parts[..n], SLASH);
      }
    }
  }

  /** So a package that is admitted restores inside its checkout: no directory on
      the way to an entry is a listed link, and every link ends inside. */
  lemma AdmittedIsContained(entries: seq<Entry>, blobs: map<Bytes, Bytes>, i: nat)
    requires Admitted(entries, blobs) && i < |entries|
    ensures SafeParts(Parts(entries[i]))
    ensures forall n :: 1 <= n < |Parts(entries[i])| ==> !Holds(entries, Join(Parts(entries[i])[..n], SLASH))
    ensures var e := entries[i];
      e.Present? && e.link ==>
        StaysInside(|Directory(e.path)|, Split(blobs[e.digest], SLASH)) &&
        SafeParts(Walk(Directory(e.path), Split(blobs[e.digest], SLASH)).value)
  {
    hide Split, Join, Before, Walk, Directory, SafePart, StaysInside, TargetOk;
    var e := entries[i];
    assert ContentOk(e, blobs) && PathOk(e.path) && Rooted(entries, e);
    if e.Present? && e.link { SafeLinkStaysInside(e.path, blobs[e.digest]); }
  }
}
