/** The linked projection of a volume and the check that admits it. */
module Linked {
  import opened Basics
  import opened Scenario
  import opened Namespace
  import opened Ordering
  import opened Oracle
  import opened OracleInvariant
  import opened OracleSteps
  import Coverage

  datatype Body =
    | LinkedDirectory
    | LinkedSymlink(target: Bytes)
    | LinkedFile(alias: nat, policy: bool, data: Bytes, alloc: seq<Coverage.Range>)

  datatype Row = Row(path: seq<Name>, links: nat, protection: nat, body: Body)

  const LIMIT := 0x1_0000_0000

  // ---------- admission of an observed row

  /** The first row of the object that row e names. */
  predicate AgreesWith(first: Row, e: Row)
    requires e.body.LinkedFile?
  {
    && first.body.LinkedFile? && first.links == e.links && first.protection == e.protection
    && first.body == e.body
  }

  /** What `linked_entry` accepts after the rows already read. */
  predicate Admits(previous: seq<Row>, e: Row) {
    && 1 <= e.links < LIMIT && e.protection < LIMIT
    && (previous != [] ==> PathBefore(previous[|previous| - 1].path, e.path))
    && (e.body.LinkedFile? ==>
          && e.body.alias <= |previous|
          && (e.body.alias < |previous| ==> AgreesWith(previous[e.body.alias], e))
          && Coverage.Observable(e.body.alloc))
    && (e.body.LinkedSymlink? ==> e.body.target != [])
  }

  ghost predicate AllAdmitted(rows: seq<Row>) {
    forall i :: 0 <= i < |rows| ==> Admits(rows[..i], rows[i])
  }

  // ---------- the projection

  ghost function Labels(s: Volume): seq<Label>
    requires Tree(s.names)
  {
    SortByPath(s.names, s.names.Keys - {ROOT})
  }

  /** The least position that names the object of position i. */
  ghost function FirstIndex(s: Volume, labels: seq<Label>, i: nat): (j: nat)
    requires i < |labels| && forall l :: l in labels ==> l in s.names
    ensures j <= i && s.names[labels[j]].id == s.names[labels[i]].id
    ensures forall k :: 0 <= k < j ==> s.names[labels[k]].id != s.names[labels[i]].id
  {
    if forall k :: 0 <= k < i ==> s.names[labels[k]].id != s.names[labels[i]].id then i else
      var k :| 0 <= k < i && s.names[labels[k]].id == s.names[labels[i]].id;
      FirstIndex(s, labels, k)
  }

  ghost function RowOf(s: Volume, labels: seq<Label>, i: nat): Row
    requires i < |labels| && AllBound(s, labels)
  {
    assert labels[i] in labels;
    var n := NodeOf(s, labels[i]);
    Row(Path(s.names, labels[i]), n.links, n.protection,
        match n.content
        case Directory => LinkedDirectory
        case Symlink(target) => LinkedSymlink(target)
        case Regular(f, policy) => LinkedFile(FirstIndex(s, labels, i), policy, f.data, Coverage.Of(f.blocks)))
  }

  ghost function Rows(s: Volume, labels: seq<Label>): (r: seq<Row>)
    requires AllBound(s, labels)
    ensures |r| == |labels| && forall i :: 0 <= i < |r| ==> r[i] == RowOf(s, labels, i)
  {
    seq(|labels|, i requires 0 <= i < |labels| => RowOf(s, labels, i))
  }

  /** One row for each bound label but the root, in path order. */
  ghost function Projection(s: Volume): seq<Row>
    requires Good(s)
  {
    LabelsAreBound(s);
    Rows(s, Labels(s))
  }

  lemma LabelsAreBound(s: Volume)
    requires Good(s)
    ensures AllBound(s, Labels(s)) && Ascends(s.names, Labels(s))
    ensures forall l :: l in Labels(s) <==> l in s.names && l != ROOT
  {
    forall l | l in Labels(s) ensures Named(s, l) { assert Bound(s, l); }
    SortAscends(s.names, s.names.Keys - {ROOT});
  }

  /** The values fit the fields of the wire format. */
  ghost predicate Fits(n: Node) {
    && n.links < LIMIT && n.protection < LIMIT
    && (n.content.Regular? ==> |Coverage.Of(n.content.file.blocks)| <= Coverage.MAX_RANGES)
    && (n.content.Symlink? ==> n.content.target != [])
  }

  /** The first index of an object is its own first index. */
  lemma FirstIndexIsFixed(s: Volume, labels: seq<Label>, i: nat)
    requires i < |labels| && forall l :: l in labels ==> l in s.names
    ensures FirstIndex(s, labels, FirstIndex(s, labels, i)) == FirstIndex(s, labels, i)
  {
  }

  /** Two positions have the same first index exactly when they name the same object. */
  lemma FirstIndexIdentifies(s: Volume, labels: seq<Label>, i: nat, j: nat)
    requires i < |labels| && j < |labels| && forall l :: l in labels ==> l in s.names
    ensures FirstIndex(s, labels, i) == FirstIndex(s, labels, j) <==> s.names[labels[i]].id == s.names[labels[j]].id
  {
  }

  /** A map from each file met before position i to its first position. */
  ghost predicate FirstMap(s: Volume, labels: seq<Label>, i: nat, first: map<nat, nat>)
    requires i <= |labels| && AllBound(s, labels)
  {
    && (forall id :: id in first ==>
          && first[id] < i && s.names[labels[first[id]]].id == id && FirstIndex(s, labels, first[id]) == first[id])
    && (forall k: nat :: k < i && NodeOf(s, labels[k]).content.Regular? ==> s.names[labels[k]].id in first)
  }

  lemma FirstMapFinds(s: Volume, labels: seq<Label>, i: nat, first: map<nat, nat>)
    requires i < |labels| && AllBound(s, labels) && FirstMap(s, labels, i, first)
    requires labels[i] in labels && s.names[labels[i]].id in first
    ensures FirstMap(s, labels, i + 1, first) && first[s.names[labels[i]].id] == FirstIndex(s, labels, i)
  {
    FirstIndexIdentifies(s, labels, i, first[s.names[labels[i]].id]);
  }

  lemma FirstMapAdds(s: Volume, labels: seq<Label>, i: nat, first: map<nat, nat>)
    requires i < |labels| && AllBound(s, labels) && FirstMap(s, labels, i, first)
    requires labels[i] in labels && s.names[labels[i]].id !in first && NodeOf(s, labels[i]).content.Regular?
    ensures FirstMap(s, labels, i + 1, first[s.names[labels[i]].id := i]) && FirstIndex(s, labels, i) == i
  {
    forall k: nat | k < i ensures s.names[labels[k]].id != s.names[labels[i]].id { assert labels[k] in labels; }
  }

  lemma RowIsAdmitted(s: Volume, labels: seq<Label>, i: nat)
    requires AllBound(s, labels) && i < |labels| && Ascends(s.names, labels)
    requires labels[i] in labels && Fits(NodeOf(s, labels[i])) && NodeOf(s, labels[i]).links >= 1
    ensures Admits(Rows(s, labels)[..i], Rows(s, labels)[i])
  {
    var n := NodeOf(s, labels[i]);
    if n.content.Regular? {
      Coverage.OfIsCanonical(n.content.file.blocks);
      var a := FirstIndex(s, labels, i);
      FirstIndexIsFixed(s, labels, i);
      assert labels[a] in labels && NodeOf(s, labels[a]) == n;
    }
  }

  /** The projection of any sound volume passes the admission of observed rows. */
  lemma ProjectionIsAdmitted(s: Volume)
    requires Good(s) && forall id :: id in s.objects ==> Fits(s.objects[id])
    ensures AllAdmitted(Projection(s))
  {
    var labels := Labels(s);
    LabelsAreBound(s);
    forall i | 0 <= i < |labels| ensures Admits(Projection(s)[..i], Projection(s)[i]) {
      assert labels[i] in labels && Counted(s, s.names[labels[i]].id);
      RowIsAdmitted(s, labels, i);
    }
  }

  // ---------- what the rows show

  /** What a row says about the object of a label; the alias is stated below. */
  ghost predicate RowShows(s: Volume, l: Label, row: Row)
    requires Named(s, l) && Rooted(s.names, l)
  {
    var n := NodeOf(s, l);
    && row.path == Path(s.names, l) && row.links == n.links && row.protection == n.protection
    && (n.content.Directory? <==> row.body.LinkedDirectory?)
    && (n.content.Symlink? ==> row.body == LinkedSymlink(n.content.target))
    && (n.content.Regular? ==>
          && row.body.LinkedFile? && row.body.policy == n.content.policy && row.body.data == n.content.file.data
          && Coverage.Maximal(row.body.alloc) && Coverage.Denotes(row.body.alloc, n.content.file.blocks))
  }

  ghost predicate HasRow(s: Volume, l: Label, rows: seq<Row>)
    requires Named(s, l) && Rooted(s.names, l)
  {
    exists row :: row in rows && RowShows(s, l, row)
  }

  ghost predicate IsRow(s: Volume, row: Row)
    requires Good(s)
  {
    exists l :: l in s.names && l != ROOT && Named(s, l) && RowShows(s, l, row)
  }

  lemma RowIsShown(s: Volume, labels: seq<Label>, i: nat)
    requires AllBound(s, labels) && i < |labels| && labels[i] in labels
    ensures RowShows(s, labels[i], RowOf(s, labels, i))
  {
    var n := NodeOf(s, labels[i]);
    if n.content.Regular? { Coverage.OfIsCanonical(n.content.file.blocks); }
  }

  /** The projection shows every label but the root, once, in path order, and nothing else. */
  lemma ProjectionShows(s: Volume)
    requires Good(s)
    ensures forall l :: l in s.names && l != ROOT ==> Named(s, l) && HasRow(s, l, Projection(s))
    ensures forall row :: row in Projection(s) ==> IsRow(s, row)
    ensures forall i, j :: 0 <= i < j < |Projection(s)| ==> PathBefore(Projection(s)[i].path, Projection(s)[j].path)
  {
    var labels, rows := Labels(s), Projection(s);
    LabelsAreBound(s);
    hide Good, RowShows, RowOf, Path, Labels;
    forall i | 0 <= i < |labels| ensures labels[i] in labels && RowShows(s, labels[i], rows[i]) {
      assert labels[i] in labels;
      RowIsShown(s, labels, i);
    }
    forall l | l in s.names && l != ROOT ensures Named(s, l) && HasRow(s, l, rows) {
      assert l in labels;
      var i :| 0 <= i < |labels| && labels[i] == l;
      assert rows[i] in rows;
    }
    forall row | row in rows ensures IsRow(s, row) {
      var i :| 0 <= i < |rows| && rows[i] == row;
      assert labels[i] in labels;
    }
    forall i, j | 0 <= i < j < |rows| ensures PathBefore(rows[i].path, rows[j].path) {
      RowPath(s, labels[i], rows[i]);
      RowPath(s, labels[j], rows[j]);
    }
  }

  lemma RowPath(s: Volume, l: Label, row: Row)
    requires Named(s, l) && Rooted(s.names, l) && RowShows(s, l, row)
    ensures row.path == Path(s.names, l)
  {
  }

  // ---------- link counts are alias counts

  /** Positions whose row carries the alias a. */
  ghost function Holders(rows: seq<Row>, a: nat): set<nat> {
    set i: nat | i < |rows| && rows[i].body.LinkedFile? && rows[i].body.alias == a
  }

  lemma {:induction false} ImageSize(labels: seq<Label>, at: set<nat>, image: set<Label>)
    requires forall i :: i in at ==> i < |labels| && labels[i] in image
    requires forall l :: l in image ==> exists i :: i in at && labels[i] == l
    requires forall i, j :: 0 <= i < j < |labels| ==> labels[i] != labels[j]
    ensures |at| == |image|
    decreases at
  {
    if at == {} {
      assert image == {};
    } else {
      var i :| i in at;
      forall l | l in image - {labels[i]} ensures exists j :: j in at - {i} && labels[j] == l {
        var j :| j in at && labels[j] == l;
        assert j in at - {i};
      }
      ImageSize(labels, at - {i}, image - {labels[i]});
    }
  }

  lemma AscendingIsDistinct(names: Names, labels: seq<Label>, i: nat, j: nat)
    requires (forall l :: l in labels ==> Rooted(names, l)) && Ascends(names, labels) && i < j < |labels|
    ensures labels[i] != labels[j]
  {
    PathBeforeIsTotal(Path(names, labels[i]), Path(names, labels[j]));
  }

  /** The positions that carry the alias of row i are those of the names of its object. */
  lemma HoldersAreNames(s: Volume, labels: seq<Label>, i: nat)
    requires AllBound(s, labels) && i < |labels| && Ascends(s.names, labels) && Rows(s, labels)[i].body.LinkedFile?
    requires forall l :: l in s.names && s.names[l].id == s.names[labels[i]].id ==> l in labels
    ensures |Holders(Rows(s, labels), Rows(s, labels)[i].body.alias)| == |NamesOf(s.names, s.names[labels[i]].id)|
  {
    var rows := Rows(s, labels);
    var id := s.names[labels[i]].id;
    var at := Holders(rows, rows[i].body.alias);
    forall j | j in at ensures labels[j] in NamesOf(s.names, id) {
      assert labels[j] in labels;
      FirstIndexIdentifies(s, labels, i, j);
    }
    forall l | l in NamesOf(s.names, id) ensures exists j :: j in at && labels[j] == l {
      var j: nat :| j < |labels| && labels[j] == l;
      FirstIndexIdentifies(s, labels, i, j);
      assert NodeOf(s, labels[j]) == NodeOf(s, labels[i]);
      assert j in at;
    }
    forall j, k | 0 <= j < k < |labels| ensures labels[j] != labels[k] { AscendingIsDistinct(s.names, labels, j, k); }
    ImageSize(labels, at, NamesOf(s.names, id));
  }

  /** In the projection of a sound volume the alias of a file is its own alias,
      is the first position of its object, and occurs once for each link. */
  lemma AliasesCountLinks(s: Volume, i: nat)
    requires Good(s) && i < |Projection(s)| && Projection(s)[i].body.LinkedFile?
    ensures var rows := Projection(s); var a := rows[i].body.alias;
      && a <= i && rows[a].body.LinkedFile? && rows[a].body.alias == a
      && rows[i].links == |Holders(rows, a)|
  {
    var labels := Labels(s);
    LabelsAreBound(s);
    assert labels[i] in labels;
    FirstIndexIsFixed(s, labels, i);
    FileIsNotRoot(s, labels[i]);
    HoldersAreNames(s, labels, i);
    LinksAreNames(s, labels[i]);
  }

  lemma FileIsNotRoot(s: Volume, l: Label)
    requires NamesBound(s) && ROOT in s.names && Named(s, l) && NodeOf(s, l).content.Regular?
    ensures s.names[ROOT].id != s.names[l].id
  {
    assert Bound(s, ROOT);
  }

  /** Every link of a named object is a name. */
  lemma LinksAreNames(s: Volume, l: Label)
    requires LinksCounted(s) && LabelsSpent(s) && Named(s, l)
    ensures NodeOf(s, l).links == |NamesOf(s.names, s.names[l].id)|
  {
    assert Counted(s, s.names[l].id);
    NamedIsNotOrphaned(s, l);
    assert OrphansOf(s.orphaned, s.names[l].id) == {};
  }

  // ---------- the loop that reads the rows

  /** Rows are read one by one; the first that contradicts the rows before it refuses all. */
  method ReadRows(rows: seq<Row>) returns (ok: bool)
    ensures ok <==> AllAdmitted(rows)
  {
    var entries: seq<Row> := [];
    for i := 0 to |rows|
      invariant entries == rows[..i]
      invariant forall k :: 0 <= k < i ==> Admits(rows[..k], rows[k])
    {
      var e := rows[i];
      assert rows[..i + 1][..i] == rows[..i];
      if e.links < 1 || e.links >= LIMIT || e.protection >= LIMIT { assert !Admits(rows[..i], e); return false; }
      if entries != [] && !PathBefore(entries[|entries| - 1].path, e.path) {
        assert !Admits(rows[..i], e);
        return false;
      }
      match e.body {
        case LinkedDirectory =>
        case LinkedSymlink(target) =>
          if target == [] { assert !Admits(rows[..i], e); return false; }
        case LinkedFile(alias, policy, data, alloc) =>
          if alias > |entries| { assert !Admits(rows[..i], e); return false; }
          var ranges := Coverage.ObservedAllocation(alloc);
          if ranges.None? { assert !Admits(rows[..i], e); return false; }
          var first := if alias != |entries| then entries[alias] else e;
          if !first.body.LinkedFile? || first.body != e.body || first.links != e.links
             || first.protection != e.protection {
            assert !Admits(rows[..i], e);
            return false;
          }
      }
      entries := entries + [e];
    }
    return true;
  }
}
