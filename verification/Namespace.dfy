/** The tree that labels form through their parents. */
module Namespace {
  import opened Basics
  import opened Scenario

  datatype Entry = Entry(id: nat, parent: Option<Label>, name: Name)
  type Names = map<Label, Entry>

  /** l reaches the root after exactly n steps to a parent. */
  ghost predicate AtDepth(names: Names, l: Label, n: nat)
    decreases n
  {
    l in names && if n == 0 then l == ROOT else
      l != ROOT && names[l].parent.Some? && AtDepth(names, names[l].parent.value, n - 1)
  }

  ghost predicate Rooted(names: Names, l: Label) {
    exists n :: AtDepth(names, l, n)
  }

  lemma {:induction false} DepthIsUnique(names: Names, l: Label, m: nat, n: nat)
    requires AtDepth(names, l, m) && AtDepth(names, l, n)
    ensures m == n
    decreases m
  {
    if m > 0 && n > 0 {
      DepthIsUnique(names, names[l].parent.value, m - 1, n - 1);
    }
  }

  ghost function Depth(names: Names, l: Label): nat
    requires Rooted(names, l)
  {
    var n :| AtDepth(names, l, n); n
  }

  /** The parent of a rooted label is rooted one level higher. */
  lemma ParentIsRooted(names: Names, l: Label)
    requires Rooted(names, l) && l != ROOT
    ensures names[l].parent.Some? && Rooted(names, names[l].parent.value)
    ensures Depth(names, l) == Depth(names, names[l].parent.value) + 1
  {
    var n := Depth(names, l);
    var p := names[l].parent.value;
    assert AtDepth(names, p, n - 1);
    DepthIsUnique(names, p, n - 1, Depth(names, p));
  }

  /** Names from the root down to l. */
  function Path(names: Names, l: Label): seq<Name>
    requires Rooted(names, l)
    decreases Depth(names, l)
  {
    if l == ROOT then [] else
      ParentIsRooted(names, l);
      Path(names, names[l].parent.value) + [names[l].name]
  }

  /** `ancestor` is l or lies on the way from l to the root. */
  ghost predicate Reaches(names: Names, ancestor: Label, l: Label)
    requires Rooted(names, l)
    decreases Depth(names, l)
  {
    l == ancestor || (l != ROOT && (ParentIsRooted(names, l); Reaches(names, ancestor, names[l].parent.value)))
  }

  /** No two labels share a parent and a name. */
  ghost predicate SiblingsDiffer(names: Names) {
    forall k, l :: k in names && l in names && k != l ==>
      names[k].parent != names[l].parent || names[k].name != names[l].name
  }

  ghost predicate Tree(names: Names) {
    && ROOT in names && names[ROOT] == Entry(1, None, [])
    && (forall l {:trigger Rooted(names, l)} :: l in names ==> Rooted(names, l))
    && SiblingsDiffer(names)
  }

  ghost predicate Vacant(names: Names, parent: Label, name: Name) {
    forall l :: l in names ==> names[l].parent != Some(parent) || names[l].name != name
  }

  ghost predicate Childless(names: Names, l: Label) {
    forall k :: k in names ==> names[k].parent != Some(l)
  }

  /** Distinct labels have distinct paths. */
  lemma {:induction false} PathsDiffer(names: Names, k: Label, l: Label)
    requires Tree(names) && k in names && l in names && k != l
    ensures Path(names, k) != Path(names, l)
    decreases Depth(names, k)
  {
    if k != ROOT && l != ROOT {
      ParentIsRooted(names, k);
      ParentIsRooted(names, l);
      var p, q := names[k].parent.value, names[l].parent.value;
      if p != q { PathsDiffer(names, p, q); }
      AppendIsInjective(Path(names, p), names[k].name, Path(names, q), names[l].name);
    }
  }

  lemma AppendIsInjective(a: seq<Name>, x: Name, b: seq<Name>, y: Name)
    ensures a + [x] == b + [y] ==> a == b && x == y
  {
    var c, d := a + [x], b + [y];
    assert c == d ==> c[..|c| - 1] == d[..|d| - 1] && c[|c| - 1] == d[|d| - 1];
    assert a == c[..|c| - 1] && b == d[..|d| - 1];
  }

  // ---------- what the three ways of changing the map keep

  lemma {:induction false} DepthAfterInsert(names: Names, l: Label, e: Entry, k: Label, n: nat)
    requires l !in names && AtDepth(names, k, n)
    ensures AtDepth(names[l := e], k, n)
    decreases n
  {
    if n > 0 { DepthAfterInsert(names, l, e, names[k].parent.value, n - 1); }
  }

  lemma InsertKeepsTree(names: Names, l: Label, e: Entry)
    requires Tree(names) && l !in names
    requires e.parent.Some? && e.parent.value in names && Vacant(names, e.parent.value, e.name)
    ensures Tree(names[l := e])
  {
    var after := names[l := e];
    forall k | k in after ensures Rooted(after, k) {
      var p := if k == l then e.parent.value else k;
      var n := Depth(names, p);
      DepthAfterInsert(names, l, e, p, n);
      if k == l { assert AtDepth(after, l, n + 1); }
    }
  }

  lemma {:induction false} DepthAfterRemove(names: Names, l: Label, k: Label, n: nat)
    requires k != l && Childless(names, l) && AtDepth(names, k, n)
    ensures AtDepth(names - {l}, k, n)
    decreases n
  {
    if n > 0 { DepthAfterRemove(names, l, names[k].parent.value, n - 1); }
  }

  lemma RemoveKeepsTree(names: Names, l: Label)
    requires Tree(names) && l != ROOT && Childless(names, l)
    ensures Tree(names - {l})
  {
    var after := names - {l};
    forall k | k in after ensures Rooted(after, k) {
      DepthAfterRemove(names, l, k, Depth(names, k));
    }
  }

  /** A chain that avoids l is untouched when l moves. */
  lemma {:induction false} DepthBesideMove(names: Names, l: Label, e: Entry, k: Label, n: nat)
    requires AtDepth(names, k, n) && l in names && Rooted(names, k) && !Reaches(names, l, k)
    ensures AtDepth(names[l := e], k, n)
    decreases n
  {
    if n > 0 {
      ParentIsRooted(names, k);
      DepthBesideMove(names, l, e, names[k].parent.value, n - 1);
    }
  }

  lemma {:induction false} RootedAfterMove(names: Names, l: Label, e: Entry, k: Label, n: nat)
    requires AtDepth(names, k, n) && l != ROOT && Rooted(names[l := e], l)
    ensures Rooted(names[l := e], k)
    decreases n
  {
    var after := names[l := e];
    if n == 0 {
      assert AtDepth(after, k, 0);
    } else if k != l {
      RootedAfterMove(names, l, e, names[k].parent.value, n - 1);
      var m: nat :| AtDepth(after, names[k].parent.value, m);
      assert AtDepth(after, k, m + 1);
    }
  }

  /** A label may move below any parent that does not itself lie below it. */
  lemma MoveKeepsTree(names: Names, l: Label, e: Entry)
    requires Tree(names) && l in names && l != ROOT
    requires e.parent.Some? && e.parent.value in names && Vacant(names, e.parent.value, e.name)
    requires !Reaches(names, l, e.parent.value)
    ensures Tree(names[l := e])
  {
    var after := names[l := e];
    var p := e.parent.value;
    DepthBesideMove(names, l, e, p, Depth(names, p));
    assert AtDepth(after, l, Depth(names, p) + 1);
    forall k | k in after ensures Rooted(after, k) {
      RootedAfterMove(names, l, e, k, Depth(names, k));
    }
  }

  /** Nothing but l itself lies below a label without children. */
  lemma {:induction false} ChildlessIsNotReached(names: Names, l: Label, k: Label)
    requires Tree(names) && k in names && k != l && Childless(names, l)
    ensures !Reaches(names, l, k)
    decreases Depth(names, k)
  {
    if k != ROOT {
      ParentIsRooted(names, k);
      assert names[k].parent.value in names;
      ChildlessIsNotReached(names, l, names[k].parent.value);
    }
  }
}
