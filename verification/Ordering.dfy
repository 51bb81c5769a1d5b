/** Lexicographic order on names and on paths, and sorting of labels by path. */
module Ordering {
  import opened Basics
  import opened Scenario
  import opened Namespace

  predicate Before(a: Bytes, b: Bytes) {
    if b == [] then false else if a == [] then true else a[0] < b[0] || (a[0] == b[0] && Before(a[1..], b[1..]))
  }

  predicate PathBefore(p: seq<Name>, q: seq<Name>) {
    if q == [] then false else if p == [] then true else
      Before(p[0], q[0]) || (p[0] == q[0] && PathBefore(p[1..], q[1..]))
  }

  lemma {:induction false} BeforeIsTotal(a: Bytes, b: Bytes)
    ensures Before(a, b) || Before(b, a) || a == b
    ensures !(Before(a, b) && Before(b, a)) && !Before(a, a)
  {
    if a != [] { BeforeIsTotal(a[1..], a[1..]); }
    if a != [] && b != [] {
      BeforeIsTotal(a[1..], b[1..]);
      assert a == [a[0]] + a[1..] && b == [b[0]] + b[1..];
    }
  }

  lemma {:induction false} BeforeIsTransitive(a: Bytes, b: Bytes, c: Bytes)
    requires Before(a, b) && Before(b, c)
    ensures Before(a, c)
  {
    if a != [] && a[0] == b[0] && b[0] == c[0] { BeforeIsTransitive(a[1..], b[1..], c[1..]); }
  }

  lemma {:induction false} PathBeforeIsTotal(p: seq<Name>, q: seq<Name>)
    ensures PathBefore(p, q) || PathBefore(q, p) || p == q
    ensures !(PathBefore(p, q) && PathBefore(q, p)) && !PathBefore(p, p)
  {
    if p != [] {
      BeforeIsTotal(p[0], p[0]);
      PathBeforeIsTotal(p[1..], p[1..]);
    }
    if p != [] && q != [] {
      BeforeIsTotal(p[0], q[0]);
      PathBeforeIsTotal(p[1..], q[1..]);
      assert p == [p[0]] + p[1..] && q == [q[0]] + q[1..];
    }
  }

  lemma {:induction false} PathBeforeIsTransitive(p: seq<Name>, q: seq<Name>, r: seq<Name>)
    requires PathBefore(p, q) && PathBefore(q, r)
    ensures PathBefore(p, r)
  {
    if p != [] {
      BeforeIsTotal(p[0], p[0]);
      if p[0] == q[0] && q[0] == r[0] {
        PathBeforeIsTransitive(p[1..], q[1..], r[1..]);
      } else if Before(p[0], q[0]) && Before(q[0], r[0]) {
        BeforeIsTransitive(p[0], q[0], r[0]);
      }
    }
  }

  /** The paths of the labels strictly ascend. */
  ghost predicate Ascends(names: Names, labels: seq<Label>)
    requires forall l :: l in labels ==> Rooted(names, l)
  {
    forall i, j :: 0 <= i < j < |labels| ==> PathBefore(Path(names, labels[i]), Path(names, labels[j]))
  }

  ghost predicate IsFirst(names: Names, labels: set<Label>, l: Label)
    requires forall k :: k in labels ==> Rooted(names, k)
  {
    l in labels && forall k :: k in labels && k != l ==> PathBefore(Path(names, l), Path(names, k))
  }

  lemma {:induction false} FirstExists(names: Names, labels: set<Label>)
    requires Tree(names) && labels <= names.Keys && labels != {}
    ensures exists l :: IsFirst(names, labels, l)
  {
    var a :| a in labels;
    var rest := labels - {a};
    if rest == {} {
      assert labels == {a};
      assert IsFirst(names, labels, a);
    } else {
      FirstExists(names, rest);
      var m :| IsFirst(names, rest, m);
      PathsDiffer(names, a, m);
      PathBeforeIsTotal(Path(names, a), Path(names, m));
      var least := if PathBefore(Path(names, a), Path(names, m)) then a else m;
      forall k | k in labels && k != least ensures PathBefore(Path(names, least), Path(names, k)) {
        if least == a && k != m {
          assert k in rest;
          PathBeforeIsTransitive(Path(names, a), Path(names, m), Path(names, k));
        }
      }
      assert IsFirst(names, labels, least);
    }
  }

  /** The labels sorted by path. */
  ghost function SortByPath(names: Names, labels: set<Label>): (r: seq<Label>)
    requires Tree(names) && labels <= names.Keys
    ensures forall l :: l in r <==> l in labels
  {
    if labels == {} then [] else
      FirstExists(names, labels);
      var l :| IsFirst(names, labels, l);
      [l] + SortByPath(names, labels - {l})
  }

  lemma {:induction false} SortAscends(names: Names, labels: set<Label>)
    requires Tree(names) && labels <= names.Keys
    ensures Ascends(names, SortByPath(names, labels))
  {
    if labels != {} {
      var r := SortByPath(names, labels);
      var rest := labels - {r[0]};
      SortAscends(names, rest);
      assert r[1..] == SortByPath(names, rest);
      forall i, j | 0 <= i < j < |r| ensures PathBefore(Path(names, r[i]), Path(names, r[j])) {
        assert r[j] == r[1..][j - 1];
        if i > 0 { assert r[i] == r[1..][i - 1]; } else { assert r[j] in rest; }
      }
    }
  }

  /** A set of labels has one ascending enumeration. */
  lemma {:induction false} AscendingIsUnique(names: Names, a: seq<Label>, b: seq<Label>)
    requires Tree(names)
    requires forall l :: l in a ==> l in names
    requires forall l :: l in a <==> l in b
    requires Ascends(names, a) && Ascends(names, b)
    ensures a == b
    decreases |a|
  {
    assert b != [] ==> b[0] in b;
    if a != [] {
      assert a[0] in a && a[0] in b && b != [];
      assert b[0] in a;
      var i :| 0 <= i < |b| && b[i] == a[0];
      var j :| 0 <= j < |a| && a[j] == b[0];
      PathBeforeIsTotal(Path(names, a[0]), Path(names, b[0]));
      assert i == 0;
      TailOfAscending(names, a);
      TailOfAscending(names, b);
      AscendingIsUnique(names, a[1..], b[1..]);
      assert a == [a[0]] + a[1..] && b == [b[0]] + b[1..];
    }
  }

  lemma TailOfAscending(names: Names, a: seq<Label>)
    requires forall l :: l in a ==> Rooted(names, l)
    requires Ascends(names, a) && a != []
    ensures forall l :: l in a[1..] <==> l in a && l != a[0]
    ensures Ascends(names, a[1..])
  {
    assert a == [a[0]] + a[1..];
    forall i | 0 < i < |a| ensures a[i] != a[0] {
      PathBeforeIsTotal(Path(names, a[0]), Path(names, a[0]));
    }
  }
}
