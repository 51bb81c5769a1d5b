/** Compilation of an admitted scenario to the runner's line protocol, and the
    decoder that shows nothing is lost. */
module Compile {
  import opened Basics
  import opened Scenario
  import opened Admission
  import opened Text

  // ---------- batch members

  function MemberParts(item: Item): (r: seq<string>)
    ensures r != []
  {
    match item
    case ItemCreate(tag, parent, name, data) => ["create", tag, parent, Hex(name), Data(data)]
    case ItemDelete(tag) => ["delete", tag]
    case ItemRename(tag, parent, name) => ["rename", tag, parent, Hex(name)]
    case ItemReplace(tag, victim, parent, name) => ["replace", tag, victim, parent, Hex(name)]
  }

  function Member(item: Item): string { Join(MemberParts(item), ':') }

  function Members(items: seq<Item>): (r: seq<string>)
    ensures |r| == |items|
  {
    if items == [] then [] else [Member(items[0])] + Members(items[1..])
  }

  function ParseMember(f: seq<string>): Option<Item> {
    if |f| == 2 && f[0] == "delete" then Some(ItemDelete(f[1]))
    else if |f| == 4 && f[0] == "rename" then
      var n := ParseHex(f[3]);
      if n.None? then None else Some(ItemRename(f[1], f[2], n.value))
    else if |f| == 5 && f[0] == "create" then
      var n, d := ParseHex(f[3]), ParseData(f[4]);
      if n.None? || d.None? then None else Some(ItemCreate(f[1], f[2], n.value, d.value))
    else if |f| == 5 && f[0] == "replace" then
      var n := ParseHex(f[4]);
      if n.None? then None else Some(ItemReplace(f[1], f[2], f[3], n.value))
    else None
  }

  function ParseMembers(parts: seq<string>): Option<seq<Item>> {
    if parts == [] then Some([]) else
      var first, rest := ParseMember(Split(parts[0], ':')), ParseMembers(parts[1..]);
      if first.None? || rest.None? then None else Some([first.value] + rest.value)
  }

  function ItemLabels(item: Item): set<Label> {
    match item
    case ItemCreate(tag, parent, _, _) => {tag, parent}
    case ItemDelete(tag) => {tag}
    case ItemRename(tag, parent, _) => {tag, parent}
    case ItemReplace(tag, victim, parent, _) => {tag, victim, parent}
  }

  predicate PlainItem(item: Item) { forall l :: l in ItemLabels(item) ==> LabelOk(l) }

  predicate Separator(c: char) { c == ' ' || c == '\n' || c == ',' || c == ':' }

  lemma LabelLacks(l: Label, c: char)
    requires LabelOk(l) && Separator(c)
    ensures c !in l
  {
  }

  lemma NumberLacks(n: nat, c: char)
    requires Separator(c)
    ensures c !in Decimal(n)
  {
  }

  lemma BytesLack(b: Bytes, c: char)
    requires Separator(c)
    ensures c !in Hex(b) && c !in Data(b)
  {
    hide LabelOk;
  }

  lemma PartsLack(item: Item, c: char)
    requires PlainItem(item) && Separator(c)
    ensures Lacks(MemberParts(item), c)
  {
    forall l | l in ItemLabels(item) ensures c !in l { LabelLacks(l, c); }
    hide Hex, Data, LabelOk;
    match item {
      case ItemCreate(_, _, name, data) => BytesLack(name, c); BytesLack(data, c);
      case ItemDelete(_) =>
      case ItemRename(_, _, name) => BytesLack(name, c);
      case ItemReplace(_, _, _, name) => BytesLack(name, c);
    }
  }

  lemma MemberParses(item: Item)
    requires PlainItem(item)
    ensures ParseMember(Split(Member(item), ':')) == Some(item)
  {
    PartsLack(item, ':');
    SplitJoin(MemberParts(item), ':');
    hide Split, Join, Hex, ParseHex, Data, ParseData;
    match item {
      case ItemCreate(_, _, name, data) => HexParses(name); DataParses(data);
      case ItemDelete(_) =>
      case ItemRename(_, _, name) => HexParses(name);
      case ItemReplace(_, _, _, name) => HexParses(name);
    }
  }

  predicate PlainItems(items: seq<Item>) { forall i :: 0 <= i < |items| ==> PlainItem(items[i]) }

  lemma {:induction false} MembersParse(items: seq<Item>)
    requires PlainItems(items)
    ensures ParseMembers(Members(items)) == Some(items)
  {
    hide Split, Member, ParseMember, PlainItem;
    if items != [] {
      MemberParses(items[0]);
      MembersParse(items[1..]);
      assert Members(items)[1..] == Members(items[1..]);
      assert items == [items[0]] + items[1..];
    }
  }

  lemma {:induction false} MembersLack(items: seq<Item>, c: char)
    requires PlainItems(items) && Separator(c) && c != ':'
    ensures Lacks(Members(items), c)
  {
    hide Join, PlainItem, MemberParts, Separator;
    if items != [] {
      PartsLack(items[0], c);
      JoinLacks(MemberParts(items[0]), ':', c);
      MembersLack(items[1..], c);
    }
  }

  function ItemsText(items: seq<Item>): string { Join(Members(items), ',') }

  lemma ItemsParse(items: seq<Item>)
    requires items != [] && PlainItems(items)
    ensures ParseMembers(Split(ItemsText(items), ',')) == Some(items)
  {
    hide Split, Join, ParseMembers, Members, PlainItems;
    MembersLack(items, ',');
    SplitJoin(Members(items), ',');
    MembersParse(items);
  }

  lemma ItemsLack(items: seq<Item>, c: char)
    requires items != [] && PlainItems(items) && (c == ' ' || c == '\n')
    ensures c !in ItemsText(items)
  {
    hide Join, Members, PlainItems;
    MembersLack(items, c);
    JoinLacks(Members(items), ',', c);
  }

  // ---------- operations

  function ActionVerb(a: Action): string {
    match a
    case ViewCreate => "snapshot_create"
    case ViewOpen => "snapshot_open"
    case ViewClose => "snapshot_close"
    case ViewDelete => "snapshot_delete"
    case ViewInspect => "snapshot_inspect"
  }

  function ClassName(c: FaultClass): string {
    match c
    case FaultWrite => "write"
    case FaultFlush => "flush"
    case FaultRead => "read"
  }

  predicate Bare(op: Operation) {
    || op.Sync? || op.Remount? || op.WindowFsync? || op.WindowCommit? || op.Verify? || op.RemountRefused?
    || op.ReclaimStep? || op.SnapshotMaintenanceStep?
  }

  predicate Single(op: Operation) {
    || op.Unlink? || op.Rmdir? || op.UnlinkSymlink? || op.OrphanFile? || op.CleanupOrphan? || op.Snapshot? || op.Batch?
    || op.WindowBatch?
  }

  predicate Pairs(op: Operation) {
    || (op.Truncate? && op.budget.None?) || op.WindowTruncate? || op.SetProtection? || op.SetDataPolicy? || op.Fault?
  }

  predicate Triples(op: Operation) {
    || op.Mkdir? || op.Rename? || op.WindowWrite? || op.Corrupt?
    || (op.Write? && op.budget.None?) || (op.Preallocate? && op.budget.None?)
  }

  predicate Quads(op: Operation) {
    op.Create? || op.Link? || op.CloneFile? || op.Symlink? || op.RenameReplace? || (op.Truncate? && op.budget.Some?)
  }

  function BareFields(op: Operation): (r: seq<string>)
    requires Bare(op)
    ensures |r| == 1
  {
    if op.Sync? then ["sync"]
    else if op.Remount? then ["remount"]
    else if op.WindowFsync? then ["window_fsync"]
    else if op.WindowCommit? then ["window_commit"]
    else if op.Verify? then ["verify"]
    else if op.RemountRefused? then ["remount_refused"]
    else if op.ReclaimStep? then ["reclaim_step"]
    else ["snapshot_maintenance_step"]
  }

  function SingleFields(op: Operation): (r: seq<string>)
    requires Single(op)
    ensures |r| == 2
  {
    if op.Unlink? then ["unlink", op.tag]
    else if op.Rmdir? then ["rmdir", op.tag]
    else if op.UnlinkSymlink? then ["unlink_symlink", op.tag]
    else if op.OrphanFile? then ["orphan_file", op.tag]
    else if op.CleanupOrphan? then ["cleanup_orphan", op.tag]
    else if op.Snapshot? then [ActionVerb(op.action), op.tag]
    else if op.Batch? then ["batch", ItemsText(op.items)]
    else ["window_batch", ItemsText(op.items)]
  }

  function PairFields(op: Operation): (r: seq<string>)
    requires Pairs(op)
    ensures |r| == 3
  {
    if op.Truncate? then ["truncate", op.tag, Decimal(op.size)]
    else if op.WindowTruncate? then ["window_truncate", op.tag, Decimal(op.size)]
    else if op.SetProtection? then ["set_protection", op.tag, Decimal(op.protection)]
    else if op.SetDataPolicy? then ["set_data_policy", op.tag, if op.policy then "1" else "0"]
    else [if op.format then "format_fault" else "fault", ClassName(op.class_), Decimal(op.index)]
  }

  function TripleFields(op: Operation): (r: seq<string>)
    requires Triples(op)
    ensures |r| == 4
  {
    if op.Mkdir? then ["mkdir", op.tag, op.parent, Hex(op.name)]
    else if op.Rename? then ["rename", op.tag, op.parent, Hex(op.name)]
    else if op.WindowWrite? then ["window_write", op.tag, Decimal(op.offset), Data(op.data)]
    else if op.Write? then ["write", op.tag, Decimal(op.offset), Data(op.data)]
    else if op.Preallocate? then ["preallocate", op.tag, Decimal(op.offset), Decimal(op.length)]
    else [if op.reseal then "reseal" else "corrupt", Decimal(op.lba), Decimal(op.offset), Decimal(op.value)]
  }

  function QuadFields(op: Operation): (r: seq<string>)
    requires Quads(op)
    ensures |r| == 5
  {
    if op.Create? then ["create", op.tag, op.parent, Hex(op.name), Data(op.data)]
    else if op.Link? then ["link", op.tag, op.source, op.parent, Hex(op.name)]
    else if op.CloneFile? then ["clone_file", op.tag, op.source, op.parent, Hex(op.name)]
    else if op.Symlink? then ["symlink", op.tag, op.parent, Hex(op.name), Hex(op.target)]
    else if op.RenameReplace? then
      [if op.orphan then "rename_replace_orphan" else "rename_replace", op.tag, op.victim, op.parent, Hex(op.name)]
    else [ "truncate_bounded", op.tag, Decimal(op.size), Decimal(op.budget.value.maxBlocks),
          Decimal(op.budget.value.maxRecords)]
  }

  predicate Long(op: Operation) { !Bare(op) && !Single(op) && !Pairs(op) && !Triples(op) && !Quads(op) }

  function LongFields(op: Operation): (r: seq<string>)
    requires Long(op)
    ensures |r| == 6
  {
    if op.Write? then
      [ "write_bounded", op.tag, Decimal(op.offset), Data(op.data), Decimal(op.budget.value.maxBlocks),
       Decimal(op.budget.value.maxRecords)]
    else if op.Preallocate? then
      [ "preallocate_bounded", op.tag, Decimal(op.offset), Decimal(op.length), Decimal(op.budget.value.maxBlocks),
       Decimal(op.budget.value.maxRecords)]
    else if op.CloneRange? then
      [ "clone_range", op.source, Decimal(op.sourceOffset), op.destination, Decimal(op.destinationOffset),
       Decimal(op.length)]
    else
      [ "restore_metadata", op.tag, Decimal(op.protection), Decimal(op.created), Decimal(op.modified),
       Decimal(op.changed)]
  }

  /** The fields of an operation's line. */
  function Fields(op: Operation): (r: seq<string>)
    ensures r != []
  {
    if Bare(op) then BareFields(op)
    else if Single(op) then SingleFields(op)
    else if Pairs(op) then PairFields(op)
    else if Triples(op) then TripleFields(op)
    else if Quads(op) then QuadFields(op)
    else LongFields(op)
  }

  // ---------- the decoder

  function ParseBare(f: seq<string>): Option<Operation>
    requires |f| == 1
  {
    if f[0] == "sync" then Some(Sync)
    else if f[0] == "remount" then Some(Remount)
    else if f[0] == "window_fsync" then Some(WindowFsync)
    else if f[0] == "window_commit" then Some(WindowCommit)
    else if f[0] == "verify" then Some(Verify)
    else if f[0] == "remount_refused" then Some(RemountRefused)
    else if f[0] == "reclaim_step" then Some(ReclaimStep)
    else if f[0] == "snapshot_maintenance_step" then Some(SnapshotMaintenanceStep)
    else None
  }

  function ParseAction(s: string): Option<Action> {
    if s == "snapshot_create" then Some(ViewCreate)
    else if s == "snapshot_open" then Some(ViewOpen)
    else if s == "snapshot_close" then Some(ViewClose)
    else if s == "snapshot_delete" then Some(ViewDelete)
    else if s == "snapshot_inspect" then Some(ViewInspect)
    else None
  }

  function ParseSingle(f: seq<string>): Option<Operation>
    requires |f| == 2
  {
    if f[0] == "unlink" then Some(Unlink(f[1]))
    else if f[0] == "rmdir" then Some(Rmdir(f[1]))
    else if f[0] == "unlink_symlink" then Some(UnlinkSymlink(f[1]))
    else if f[0] == "orphan_file" then Some(OrphanFile(f[1]))
    else if f[0] == "cleanup_orphan" then Some(CleanupOrphan(f[1]))
    else if ParseAction(f[0]).Some? then Some(Snapshot(ParseAction(f[0]).value, f[1]))
    else if f[0] == "batch" || f[0] == "window_batch" then
      var items := ParseMembers(Split(f[1], ','));
      if items.None? then None else if f[0] == "batch" then Some(Batch(items.value)) else Some(WindowBatch(items.value))
    else None
  }

  function ParseClass(s: string): Option<FaultClass> {
    if s == "write" then Some(FaultWrite) else if s == "flush" then Some(FaultFlush)
    else if s == "read" then Some(FaultRead) else None
  }

  function ParsePair(f: seq<string>): Option<Operation>
    requires |f| == 3
  {
    var n := ParseDecimal(f[2]);
    if n.None? then None
    else if f[0] == "truncate" then Some(Truncate(f[1], n.value, None))
    else if f[0] == "window_truncate" then Some(WindowTruncate(f[1], n.value))
    else if f[0] == "set_protection" then Some(SetProtection(f[1], n.value))
    else if f[0] == "set_data_policy" then Some(SetDataPolicy(f[1], n.value == 1))
    else if ParseClass(f[1]).None? then None
    else if f[0] == "fault" then Some(Fault(false, ParseClass(f[1]).value, n.value))
    else if f[0] == "format_fault" then Some(Fault(true, ParseClass(f[1]).value, n.value))
    else None
  }

  function ParseTriple(f: seq<string>): Option<Operation>
    requires |f| == 4
  {
    if f[0] == "mkdir" || f[0] == "rename" then
      var n := ParseHex(f[3]);
      if n.None? then None else if f[0] == "mkdir" then Some(Mkdir(f[1], f[2], n.value))
      else Some(Rename(f[1], f[2], n.value))
    else if f[0] == "write" || f[0] == "window_write" then
      var n, d := ParseDecimal(f[2]), ParseData(f[3]);
      if n.None? || d.None? then None
      else if f[0] == "write" then Some(Write(f[1], n.value, d.value, None))
      else Some(WindowWrite(f[1], n.value, d.value))
    else if f[0] == "preallocate" then
      var n, m := ParseDecimal(f[2]), ParseDecimal(f[3]);
      if n.None? || m.None? then None else Some(Preallocate(f[1], n.value, m.value, None))
    else if f[0] == "corrupt" || f[0] == "reseal" then
      var a, b, c := ParseDecimal(f[1]), ParseDecimal(f[2]), ParseDecimal(f[3]);
      if a.None? || b.None? || c.None? then None else Some(Corrupt(f[0] == "reseal", a.value, b.value, c.value))
    else None
  }

  function ParseQuad(f: seq<string>): Option<Operation>
    requires |f| == 5
  {
    if f[0] == "truncate_bounded" then
      var a, b, c := ParseDecimal(f[2]), ParseDecimal(f[3]), ParseDecimal(f[4]);
      if a.None? || b.None? || c.None? then None else Some(Truncate(f[1], a.value, Some(Budget(b.value, c.value))))
    else if f[0] == "create" then
      var n, d := ParseHex(f[3]), ParseData(f[4]);
      if n.None? || d.None? then None else Some(Create(f[1], f[2], n.value, d.value))
    else if f[0] == "symlink" then
      var n, t := ParseHex(f[3]), ParseHex(f[4]);
      if n.None? || t.None? then None else Some(Symlink(f[1], f[2], n.value, t.value))
    else
      var n := ParseHex(f[4]);
      if n.None? then None
      else if f[0] == "link" then Some(Link(f[1], f[2], f[3], n.value))
      else if f[0] == "clone_file" then Some(CloneFile(f[1], f[2], f[3], n.value))
      else if f[0] == "rename_replace" then Some(RenameReplace(f[1], f[2], f[3], n.value, false))
      else if f[0] == "rename_replace_orphan" then Some(RenameReplace(f[1], f[2], f[3], n.value, true))
      else None
  }

  function ParseLong(f: seq<string>): Option<Operation>
    requires |f| == 6
  {
    var a, b, c, d := ParseDecimal(f[2]), ParseDecimal(f[3]), ParseDecimal(f[4]), ParseDecimal(f[5]);
    if a.None? || c.None? || d.None? then None
    else if f[0] == "write_bounded" then
      var data := ParseData(f[3]);
      if data.None? then None else Some(Write(f[1], a.value, data.value, Some(Budget(c.value, d.value))))
    else if f[0] == "clone_range" then Some(CloneRange(f[1], a.value, f[3], c.value, d.value))
    else if b.None? then None
    else if f[0] == "preallocate_bounded" then Some(Preallocate(f[1], a.value, b.value, Some(Budget(c.value, d.value))))
    else if f[0] == "restore_metadata" then Some(RestoreMetadata(f[1], a.value, b.value, c.value, d.value))
    else None
  }

  function ParseFields(f: seq<string>): Option<Operation> {
    if |f| == 1 then ParseBare(f)
    else if |f| == 2 then ParseSingle(f)
    else if |f| == 3 then ParsePair(f)
    else if |f| == 4 then ParseTriple(f)
    else if |f| == 5 then ParseQuad(f)
    else if |f| == 6 then ParseLong(f)
    else None
  }

  // ---------- operations come back

  lemma BareParses(op: Operation)
    requires Bare(op)
    ensures ParseBare(BareFields(op)) == Some(op)
  {
  }

  lemma SingleParses(op: Operation)
    requires Single(op) && (op.Batch? || op.WindowBatch? ==> op.items != [] && PlainItems(op.items))
    ensures ParseSingle(SingleFields(op)) == Some(op)
  {
    hide ItemsText, ParseMembers, Split, PlainItems;
    if op.Batch? || op.WindowBatch? { ItemsParse(op.items); }
  }

  lemma FlagsParse()
    ensures ParseDecimal("1") == Some(1) && ParseDecimal("0") == Some(0)
  {
  }

  lemma PairParses(op: Operation)
    requires Pairs(op)
    ensures ParsePair(PairFields(op)) == Some(op)
  {
    hide Decimal, ParseDecimal;
    FlagsParse();
    if op.Truncate? || op.WindowTruncate? { DecimalParses(op.size); }
    if op.SetProtection? { DecimalParses(op.protection); }
    if op.Fault? { DecimalParses(op.index); }
  }

  lemma TripleParses(op: Operation)
    requires Triples(op)
    ensures ParseTriple(TripleFields(op)) == Some(op)
  {
    hide Decimal, ParseDecimal, Hex, ParseHex, Data, ParseData;
    if op.Mkdir? || op.Rename? {
      HexParses(op.name);
    } else if op.Write? || op.WindowWrite? {
      DecimalParses(op.offset);
      DataParses(op.data);
    } else if op.Preallocate? {
      DecimalParses(op.offset);
      DecimalParses(op.length);
    } else {
      DecimalParses(op.lba);
      DecimalParses(op.offset);
      DecimalParses(op.value);
    }
  }

  lemma QuadParses(op: Operation)
    requires Quads(op)
    ensures ParseQuad(QuadFields(op)) == Some(op)
  {
    hide Decimal, ParseDecimal, Hex, ParseHex, Data, ParseData;
    if op.Truncate? {
      DecimalParses(op.size);
      DecimalParses(op.budget.value.maxBlocks);
      DecimalParses(op.budget.value.maxRecords);
    } else {
      HexParses(op.name);
      if op.Create? { DataParses(op.data); }
      if op.Symlink? { HexParses(op.target); }
    }
  }

  lemma LongParses(op: Operation)
    requires Long(op)
    ensures ParseLong(LongFields(op)) == Some(op)
  {
    hide Decimal, ParseDecimal, Hex, ParseHex, Data, ParseData;
    if op.Write? || op.Preallocate? {
      DecimalParses(op.offset);
      DecimalParses(op.budget.value.maxBlocks);
      DecimalParses(op.budget.value.maxRecords);
      if op.Write? { DataParses(op.data); } else { DecimalParses(op.length); }
    } else if op.CloneRange? {
      DecimalParses(op.sourceOffset);
      DecimalParses(op.destinationOffset);
      DecimalParses(op.length);
    } else {
      DecimalParses(op.protection);
      DecimalParses(op.created);
      DecimalParses(op.modified);
      DecimalParses(op.changed);
    }
  }

  predicate Tagged(op: Operation) {
    !Bare(op) && !op.Batch? && !op.WindowBatch? && !op.Fault? && !op.Corrupt? && !op.CloneRange?
  }

  predicate Placed(op: Operation) {
    op.Mkdir? || op.Create? || op.Rename? || op.Link? || op.CloneFile? || op.Symlink? || op.RenameReplace?
  }

  /** Every label an operation names is an admitted label. */
  predicate Plain(op: Operation) {
    && (Tagged(op) ==> LabelOk(op.tag))
    && (Placed(op) ==> LabelOk(op.parent))
    && (op.Link? || op.CloneFile? || op.CloneRange? ==> LabelOk(op.source))
    && (op.CloneRange? ==> LabelOk(op.destination))
    && (op.RenameReplace? ==> LabelOk(op.victim))
    && (op.Batch? || op.WindowBatch? ==> op.items != [] && PlainItems(op.items))
  }

  lemma FieldsParse(op: Operation)
    requires Plain(op)
    ensures ParseFields(Fields(op)) == Some(op)
  {
    hide PlainItems, LabelOk, BareFields, SingleFields, PairFields, TripleFields, QuadFields, LongFields;
    hide ParseBare, ParseSingle, ParsePair, ParseTriple, ParseQuad, ParseLong;
    if Bare(op) { BareParses(op); }
    else if Single(op) { SingleParses(op); }
    else if Pairs(op) { PairParses(op); }
    else if Triples(op) { TripleParses(op); }
    else if Quads(op) { QuadParses(op); }
    else { LongParses(op); }
  }

  predicate Blank(c: char) { c == ' ' || c == '\n' }

  lemma BareLacks(op: Operation, c: char)
    requires Bare(op) && Blank(c)
    ensures Lacks(BareFields(op), c)
  {
  }

  lemma VerbLacks(a: Action, c: char)
    requires Blank(c)
    ensures c !in ActionVerb(a)
  {
  }

  lemma TwoLack(a: string, b: string, c: char)
    requires c !in a && c !in b
    ensures Lacks([a, b], c)
  {
  }

  lemma ThreeLack(a: string, b: string, d: string, c: char)
    requires c !in a && c !in b && c !in d
    ensures Lacks([a, b, d], c)
  {
  }

  lemma FourLack(a: string, b: string, d: string, e: string, c: char)
    requires c !in a && c !in b && c !in d && c !in e
    ensures Lacks([a, b, d, e], c)
  {
  }

  lemma SingleLacks(op: Operation, c: char)
    requires Single(op) && Plain(op) && Blank(c)
    ensures Lacks(SingleFields(op), c)
  {
    hide ItemsText, PlainItems, LabelOk, ActionVerb, Lacks;
    var f := SingleFields(op);
    if op.Batch? || op.WindowBatch? { ItemsLack(op.items, c); } else { LabelLacks(op.tag, c); }
    if op.Snapshot? { VerbLacks(op.action, c); }
    hide Plain;
    TwoLack(f[0], f[1], c);
    assert f == [f[0], f[1]];
  }

  lemma PairLacks(op: Operation, c: char)
    requires Pairs(op) && Plain(op) && Blank(c)
    ensures Lacks(PairFields(op), c)
  {
    hide LabelOk, Decimal, PlainItems, Lacks;
    var f := PairFields(op);
    if Tagged(op) { LabelLacks(op.tag, c); }
    if op.Truncate? || op.WindowTruncate? { NumberLacks(op.size, c); }
    if op.SetProtection? { NumberLacks(op.protection, c); }
    if op.Fault? { NumberLacks(op.index, c); }
    hide Plain;
    ThreeLack(f[0], f[1], f[2], c);
    assert f == [f[0], f[1], f[2]];
  }

  lemma TripleLacks(op: Operation, c: char)
    requires Triples(op) && Plain(op) && Blank(c)
    ensures Lacks(TripleFields(op), c)
  {
    hide LabelOk, Decimal, Hex, Data, PlainItems, Lacks;
    var f := TripleFields(op);
    if Tagged(op) { LabelLacks(op.tag, c); }
    if Placed(op) { LabelLacks(op.parent, c); BytesLack(op.name, c); }
    if op.Write? || op.WindowWrite? { NumberLacks(op.offset, c); BytesLack(op.data, c); }
    if op.Preallocate? { NumberLacks(op.offset, c); NumberLacks(op.length, c); }
    if op.Corrupt? { NumberLacks(op.lba, c); NumberLacks(op.offset, c); NumberLacks(op.value, c); }
    hide Plain;
    FourLack(f[0], f[1], f[2], f[3], c);
    assert f == [f[0], f[1], f[2], f[3]];
  }

  lemma FiveLack(a: string, b: string, d: string, e: string, f: string, c: char)
    requires c !in a && c !in b && c !in d && c !in e && c !in f
    ensures Lacks([a, b, d, e, f], c)
  {
  }

  lemma QuadLacks(op: Operation, c: char)
    requires Quads(op) && Plain(op) && Blank(c)
    ensures Lacks(QuadFields(op), c)
  {
    hide LabelOk, Decimal, Hex, Data, PlainItems, Lacks;
    var f := QuadFields(op);
    LabelLacks(op.tag, c);
    if op.Truncate? {
      NumberLacks(op.size, c);
      NumberLacks(op.budget.value.maxBlocks, c);
      NumberLacks(op.budget.value.maxRecords, c);
    } else {
      LabelLacks(op.parent, c);
      BytesLack(op.name, c);
      if op.Create? { BytesLack(op.data, c); }
      if op.Symlink? { BytesLack(op.target, c); }
      if op.Link? || op.CloneFile? { LabelLacks(op.source, c); }
      if op.RenameReplace? { LabelLacks(op.victim, c); }
    }
    hide Plain;
    FiveLack(f[0], f[1], f[2], f[3], f[4], c);
    assert f == [f[0], f[1], f[2], f[3], f[4]];
  }

  lemma SixLack(a: string, b: string, d: string, e: string, f: string, g: string, c: char)
    requires c !in a && c !in b && c !in d && c !in e && c !in f && c !in g
    ensures Lacks([a, b, d, e, f, g], c)
  {
  }

  lemma LongLacks(op: Operation, c: char)
    requires Long(op) && Plain(op) && Blank(c)
    ensures Lacks(LongFields(op), c)
  {
    hide LabelOk, Decimal, Hex, Data, PlainItems, Lacks;
    var f := LongFields(op);
    if op.Write? || op.Preallocate? {
      LabelLacks(op.tag, c);
      NumberLacks(op.offset, c);
      NumberLacks(op.budget.value.maxBlocks, c);
      NumberLacks(op.budget.value.maxRecords, c);
      if op.Write? { BytesLack(op.data, c); } else { NumberLacks(op.length, c); }
    } else if op.CloneRange? {
      LabelLacks(op.source, c);
      LabelLacks(op.destination, c);
      NumberLacks(op.sourceOffset, c);
      NumberLacks(op.destinationOffset, c);
      NumberLacks(op.length, c);
    } else {
      LabelLacks(op.tag, c);
      NumberLacks(op.protection, c);
      NumberLacks(op.created, c);
      NumberLacks(op.modified, c);
      NumberLacks(op.changed, c);
    }
    hide Plain;
    SixLack(f[0], f[1], f[2], f[3], f[4], f[5], c);
    assert f == [f[0], f[1], f[2], f[3], f[4], f[5]];
  }

  lemma FieldsLack(op: Operation, c: char)
    requires Plain(op) && Blank(c)
    ensures Lacks(Fields(op), c)
  {
    hide PlainItems, LabelOk, BareFields, SingleFields, PairFields, TripleFields, QuadFields, LongFields, Blank, Lacks;
    if Bare(op) { BareLacks(op, c); }
    else if Single(op) { SingleLacks(op, c); }
    else if Pairs(op) { PairLacks(op, c); }
    else if Triples(op) { TripleLacks(op, c); }
    else if Quads(op) { QuadLacks(op, c); }
    else { LongLacks(op, c); }
  }

  function Line(op: Operation): string { Join(Fields(op), ' ') }

  function ParseLine(s: string): Option<Operation> { ParseFields(Split(s, ' ')) }

  lemma LineParses(op: Operation)
    requires Plain(op)
    ensures ParseLine(Line(op)) == Some(op) && '\n' !in Line(op)
  {
    hide Fields, ParseFields, Join, Split;
    FieldsLack(op, ' ');
    FieldsLack(op, '\n');
    SplitJoin(Fields(op), ' ');
    JoinLacks(Fields(op), ' ', '\n');
    FieldsParse(op);
  }

  // ---------- admitted operations are plain

  predicate LedgerOk(a: Ledger) { forall l :: l in a.labels ==> LabelOk(l) }

  lemma RootIsLabel()
    ensures LabelOk(ROOT)
  {
    assert ROOT == "root";
  }

  lemma ItemIsPlain(b: BatchLedger, item: Item)
    requires LedgerOk(b.ledger) && AdmitItem(b, item).Some?
    ensures PlainItem(item) && LedgerOk(AdmitItem(b, item).value.ledger)
  {
    hide LabelOk, NameOk;
  }

  lemma {:induction false} ItemsArePlain(b: BatchLedger, items: seq<Item>)
    requires LedgerOk(b.ledger) && AdmitItems(b, items).Some?
    ensures PlainItems(items) && LedgerOk(AdmitItems(b, items).value.ledger)
    decreases |items|
  {
    hide LabelOk, AdmitItem, PlainItem, LedgerOk;
    if items != [] {
      ItemIsPlain(b, items[0]);
      ItemsArePlain(AdmitItem(b, items[0]).value, items[1..]);
      assert items == [items[0]] + items[1..];
    }
  }

  lemma BatchIsPlain(a: Ledger, items: seq<Item>)
    requires LedgerOk(a) && AdmitBatch(a, items).Some?
    ensures items != [] && PlainItems(items) && LedgerOk(AdmitBatch(a, items).value)
  {
    hide LabelOk, PlainItems, AdmitItems;
    ItemsArePlain(BatchLedger(a, {}), items);
  }

  lemma LabelsArePlain(a: Ledger, op: Operation, index: nat)
    requires LedgerOk(a) && FieldsOk(op, index) && AdmitLabels(a, op).Some?
    ensures Plain(op) && LedgerOk(AdmitLabels(a, op).value)
  {
    hide LabelOk, NameOk, TargetOk, BudgetOk, RangeOk, PlainItems, AdmitBatch;
    if op.Batch? || op.WindowBatch? {
      BatchIsPlain(a, op.items);
    }
  }

  lemma {:induction false} AdmittedIsPlain(version: nat, index: nat, a: Ledger, ops: seq<Operation>)
    requires LedgerOk(a) && AdmitFrom(version, index, a, ops).Some?
    ensures forall i :: 0 <= i < |ops| ==> Plain(ops[i])
    decreases |ops|
  {
    hide AdmitLabels, KnownAt, FieldsOk, PayloadOf, Plain, LedgerOk;
    if ops != [] {
      LabelsArePlain(a, ops[0], index);
      var next := AdmitOperation(version, index, a, ops[0]).value;
      assert LedgerOk(next) by { SameLabels(AdmitLabels(a, ops[0]).value, next); }
      AdmittedIsPlain(version, index + 1, next, ops[1..]);
      assert forall i :: 0 < i < |ops| ==> ops[i] == ops[1..][i - 1];
    }
  }

  lemma SameLabels(a: Ledger, b: Ledger)
    requires LedgerOk(a) && a.labels == b.labels
    ensures LedgerOk(b)
  {
  }

  // ---------- the header

  datatype Pages = Limited(n: nat) | Unlimited
  datatype Selection = Selection(categories: nat, sink: Option<Sink>)
  datatype Limits = Limits(maxEditRecords: nat, maxViews: nat, reclaimRecords: nat)
  datatype Policies = Policies(dataPolicy: bool, orphanExtents: nat)

  /** Volume and profile; later versions carry more of it. */
  datatype Header = Header(version: nat, blockSize: nat, blocks: nat, regionSize: nat, logSlots: nat,
                           pages: Option<Pages>, capacity: Option<nat>, selection: Option<Selection>,
                           limits: Option<Limits>, policies: Option<Policies>)

  predicate PowerOfTwo(n: nat) {
    n == 64 || n == 128 || n == 256 || n == 512 || n == 1024 || n == 2048 || n == 4096 || n == 8192 || n == 16384
  }

  predicate VolumeOk(h: Header) {
    && h.blockSize == 4096 && PowerOfTwo(h.regionSize) && 64 <= h.blocks <= 65536 && h.regionSize <= h.blocks
    && 8 <= h.logSlots <= 64
  }

  function Categories(version: nat): nat {
    if version == 8 then 32767 else if version >= 6 then 127 else if version == 5 then 63 else 15
  }

  predicate SelectionOk(s: Selection, version: nat) {
    && s.categories <= Categories(version)
    && (s.sink.Some? ==> 1 <= s.sink.value.capacity <= 256)
    && (s.sink.Some? && s.sink.value.disconnectBefore.Some? ==> s.sink.value.disconnectBefore.value <= MAX_OPS)
  }

  predicate LimitsOk(m: Limits) {
    1 <= m.maxEditRecords <= 4096 && 1 <= m.maxViews <= 16 && 1 <= m.reclaimRecords <= 4096
  }

  predicate HeaderOk(h: Header) {
    && 1 <= h.version <= 9 && VolumeOk(h)
    && (h.pages.Some? <==> h.version >= 2) && (h.pages.Some? && h.pages.value.Limited? ==> h.pages.value.n in {2, 4, 8})
    && (h.capacity.Some? <==> h.version >= 3) && (h.capacity.Some? ==> 1 <= h.capacity.value <= 256)
    && (h.selection.Some? <==> h.version >= 4) && (h.selection.Some? ==> SelectionOk(h.selection.value, h.version))
    && (h.limits.Some? <==> h.version >= 7) && (h.limits.Some? ==> LimitsOk(h.limits.value))
    && (h.policies.Some? <==> h.version >= 9) && (h.policies.Some? ==> 1 <= h.policies.value.orphanExtents <= 64)
  }

  function PagesText(p: Pages): string { if p.Unlimited? then "unlimited" else Decimal(p.n) }

  function ParsePages(s: string): Option<Pages> {
    if s == "unlimited" then Some(Unlimited) else
      var n := ParseDecimal(s);
      if n.None? then None else Some(Limited(n.value))
  }

  function DisconnectText(d: Option<nat>): string { if d.None? then "none" else Decimal(d.value) }

  function ParseDisconnect(s: string): Option<Option<nat>> {
    if s == "none" then Some(None) else
      var n := ParseDecimal(s);
      if n.None? then None else Some(Some(n.value))
  }

  function SelectionFields(s: Selection): (r: seq<string>)
    ensures |r| == 3
  {
    if s.sink.None? then [Decimal(s.categories), Decimal(0), "none"]
    else [Decimal(s.categories), Decimal(s.sink.value.capacity), DisconnectText(s.sink.value.disconnectBefore)]
  }

  function ParseSelection(f: seq<string>): Option<Selection>
    requires |f| == 3
  {
    var a, b, d := ParseDecimal(f[0]), ParseDecimal(f[1]), ParseDisconnect(f[2]);
    if a.None? || b.None? || d.None? then None
    else Some(Selection(a.value, if b.value == 0 then None else Some(Sink(b.value, d.value))))
  }

  function LimitFields(m: Limits): (r: seq<string>)
    ensures |r| == 3
  {
    [Decimal(m.maxEditRecords), Decimal(m.maxViews), Decimal(m.reclaimRecords)]
  }

  function ParseLimits(f: seq<string>): Option<Limits>
    requires |f| == 3
  {
    var a, b, c := ParseDecimal(f[0]), ParseDecimal(f[1]), ParseDecimal(f[2]);
    if a.None? || b.None? || c.None? then None else Some(Limits(a.value, b.value, c.value))
  }

  function PolicyFields(p: Policies): (r: seq<string>)
    ensures |r| == 2
  {
    [if p.dataPolicy then "1" else "0", Decimal(p.orphanExtents)]
  }

  function ParsePolicies(f: seq<string>): Option<Policies>
    requires |f| == 2
  {
    var n := ParseDecimal(f[1]);
    if n.None? then None else Some(Policies(f[0] == "1", n.value))
  }

  function VolumeFields(h: Header): (r: seq<string>)
    ensures |r| == 5
  {
    ["format", Decimal(h.blockSize), Decimal(h.blocks), Decimal(h.regionSize), Decimal(h.logSlots)]
  }

  function HeaderFields(h: Header): (r: seq<string>)
    ensures |r| >= 5
  {
    VolumeFields(h)
    + (if h.pages.Some? then [PagesText(h.pages.value)] else [])
    + (if h.capacity.Some? then [Decimal(h.capacity.value)] else [])
    + (if h.selection.Some? then SelectionFields(h.selection.value) else [])
    + (if h.limits.Some? then LimitFields(h.limits.value) else [])
    + (if h.policies.Some? then PolicyFields(h.policies.value) else [])
  }

  /** Fields of a header line of that version. */
  function FieldCount(version: nat): nat {
    if version >= 9 then 15 else if version >= 7 then 13 else if version >= 4 then 10 else if version == 3 then 7
    else if version == 2 then 6 else 5
  }

  function ParseHeader(version: nat, f: seq<string>): Option<Header> {
    if |f| != FieldCount(version) then None else
      var a, b, c, d := ParseDecimal(f[1]), ParseDecimal(f[2]), ParseDecimal(f[3]), ParseDecimal(f[4]);
      var pages := if version >= 2 then ParsePages(f[5]) else None;
      var capacity := if version >= 3 then ParseDecimal(f[6]) else None;
      var selection := if version >= 4 then ParseSelection(f[7..10]) else None;
      var limits := if version >= 7 then ParseLimits(f[10..13]) else None;
      var policies := if version >= 9 then ParsePolicies(f[13..15]) else None;
      if a.None? || b.None? || c.None? || d.None? then None
      else Some(Header(version, a.value, b.value, c.value, d.value, pages, capacity, selection, limits, policies))
  }

  lemma PagesParse(p: Pages)
    ensures ParsePages(PagesText(p)) == Some(p)
  {
    if p.Limited? {
      DecimalParses(p.n);
      assert "unlimited"[0] == 'u';
    }
  }

  lemma SelectionParses(s: Selection, version: nat)
    requires SelectionOk(s, version)
    ensures ParseSelection(SelectionFields(s)) == Some(s)
  {
    DecimalParses(s.categories);
    DecimalParses(0);
    if s.sink.Some? {
      DecimalParses(s.sink.value.capacity);
      if s.sink.value.disconnectBefore.Some? {
        DecimalParses(s.sink.value.disconnectBefore.value);
        assert "none"[0] == 'n';
      }
    }
  }

  lemma LimitsParse(m: Limits)
    ensures ParseLimits(LimitFields(m)) == Some(m)
  {
    DecimalParses(m.maxEditRecords);
    DecimalParses(m.maxViews);
    DecimalParses(m.reclaimRecords);
  }

  lemma PoliciesParse(p: Policies)
    ensures ParsePolicies(PolicyFields(p)) == Some(p)
  {
    DecimalParses(p.orphanExtents);
  }

  lemma HeaderParses(h: Header)
    requires HeaderOk(h)
    ensures ParseHeader(h.version, HeaderFields(h)) == Some(h)
  {
    hide Decimal, ParseDecimal, PagesText, ParsePages, SelectionFields, ParseSelection, LimitFields, ParseLimits,
      PolicyFields, ParsePolicies;
    hide VolumeOk, SelectionOk, LimitsOk;
    var f := HeaderFields(h);
    DecimalParses(h.blockSize);
    DecimalParses(h.blocks);
    DecimalParses(h.regionSize);
    DecimalParses(h.logSlots);
    if h.pages.Some? { PagesParse(h.pages.value); }
    if h.capacity.Some? { DecimalParses(h.capacity.value); }
    var limits := if h.limits.Some? then LimitFields(h.limits.value) else [];
    var policies := if h.policies.Some? then PolicyFields(h.policies.value) else [];
    if h.selection.Some? {
      SelectionParses(h.selection.value, h.version);
      var base := VolumeFields(h) + [PagesText(h.pages.value)] + [Decimal(h.capacity.value)];
      var selection := SelectionFields(h.selection.value);
      assert f == base + selection + limits + policies;
      Middle(base, selection, limits + policies);
      assert f == base + selection + (limits + policies);
      if h.limits.Some? {
        LimitsParse(h.limits.value);
        Middle(base + selection, limits, policies);
        if h.policies.Some? {
          PoliciesParse(h.policies.value);
          Middle(base + selection + limits, policies, []);
          assert f == base + selection + limits + policies + [];
        }
      }
    }
  }

  lemma Middle<T>(a: seq<T>, b: seq<T>, c: seq<T>)
    ensures (a + b + c)[|a|..|a| + |b|] == b
  {
  }

  lemma SelectionLacks(s: Selection, c: char)
    requires Blank(c)
    ensures Lacks(SelectionFields(s), c)
  {
    hide Decimal;
    NumberLacks(s.categories, c);
    NumberLacks(0, c);
    if s.sink.Some? {
      NumberLacks(s.sink.value.capacity, c);
      if s.sink.value.disconnectBefore.Some? { NumberLacks(s.sink.value.disconnectBefore.value, c); }
    }
  }

  lemma VolumeLacks(h: Header, c: char)
    requires Blank(c)
    ensures Lacks(VolumeFields(h), c)
  {
    hide Decimal;
    NumberLacks(h.blockSize, c);
    NumberLacks(h.blocks, c);
    NumberLacks(h.regionSize, c);
    NumberLacks(h.logSlots, c);
  }

  lemma HeaderLacks(h: Header, c: char)
    requires Blank(c)
    ensures Lacks(HeaderFields(h), c)
  {
    hide Decimal, SelectionFields, VolumeFields;
    VolumeLacks(h, c);
    if h.pages.Some? && h.pages.value.Limited? { NumberLacks(h.pages.value.n, c); }
    if h.capacity.Some? { NumberLacks(h.capacity.value, c); }
    if h.selection.Some? { SelectionLacks(h.selection.value, c); }
    if h.limits.Some? {
      NumberLacks(h.limits.value.maxEditRecords, c);
      NumberLacks(h.limits.value.maxViews, c);
      NumberLacks(h.limits.value.reclaimRecords, c);
    }
    if h.policies.Some? { NumberLacks(h.policies.value.orphanExtents, c); }
  }

  // ---------- the whole program

  function Magic(version: nat): string
    requires version < 10
  {
    "AFSPSC0" + [DigitOf(version)]
  }

  function ParseMagic(s: string): Option<nat> {
    if |s| == 8 && s[..7] == "AFSPSC0" then DigitValue(s[7]) else None
  }

  function Lines(ops: seq<Operation>): (r: seq<string>)
    ensures |r| == |ops|
  {
    if ops == [] then [] else Lines(ops[..|ops| - 1]) + [Line(ops[|ops| - 1])]
  }

  function ParseLines(lines: seq<string>): Option<seq<Operation>> {
    if lines == [] then Some([]) else
      var rest, last := ParseLines(lines[..|lines| - 1]), ParseLine(lines[|lines| - 1]);
      if rest.None? || last.None? then None else Some(rest.value + [last.value])
  }

  /** The text given to the runner. */
  function Compiled(h: Header, ops: seq<Operation>): string
    requires h.version < 10
  {
    Join([Magic(h.version), Join(HeaderFields(h), ' ')] + Lines(ops), '\n') + "\n"
  }

  function Decoded(text: string): Option<(Header, seq<Operation>)> {
    if text == "" || text[|text| - 1] != '\n' then None else
      var lines := Split(text[..|text| - 1], '\n');
      if |lines| < 2 then None else
        var version, ops := ParseMagic(lines[0]), ParseLines(lines[2..]);
        if version.None? || ops.None? then None else
          var header := ParseHeader(version.value, Split(lines[1], ' '));
          if header.None? then None else Some((header.value, ops.value))
  }

  predicate AllPlain(ops: seq<Operation>) { forall i :: 0 <= i < |ops| ==> Plain(ops[i]) }

  lemma {:induction false} LinesParse(ops: seq<Operation>)
    requires AllPlain(ops)
    ensures ParseLines(Lines(ops)) == Some(ops) && Lacks(Lines(ops), '\n')
  {
    hide Line, ParseLine, Plain;
    if ops != [] {
      var n := |ops| - 1;
      LinesParse(ops[..n]);
      LineParses(ops[n]);
      assert Lines(ops)[..n] == Lines(ops[..n]);
      assert ops == ops[..n] + [ops[n]];
    }
  }

  lemma MagicParses(version: nat)
    requires version < 10
    ensures ParseMagic(Magic(version)) == Some(version) && '\n' !in Magic(version)
  {
    assert Magic(version)[..7] == "AFSPSC0";
  }

  /** Everything but the expected state comes back from the compiled text. */
  lemma PlainCompiles(h: Header, ops: seq<Operation>)
    requires HeaderOk(h) && AllPlain(ops)
    ensures Decoded(Compiled(h, ops)) == Some((h, ops))
  {
    hide Join, Split, HeaderFields, ParseHeader, Magic, ParseMagic, Lines, ParseLines, Plain;
    var line := Join(HeaderFields(h), ' ');
    var lines := [Magic(h.version), line] + Lines(ops);
    HeaderLacks(h, ' ');
    HeaderLacks(h, '\n');
    SplitJoin(HeaderFields(h), ' ');
    JoinLacks(HeaderFields(h), ' ', '\n');
    HeaderParses(h);
    LinesParse(ops);
    MagicParses(h.version);
    SplitJoin(lines, '\n');
    var text := Compiled(h, ops);
    assert text[..|text| - 1] == Join(lines, '\n');
    assert lines[2..] == Lines(ops);
  }

  /** Every admitted scenario is recovered from its compiled text. */
  lemma CompiledDecodes(h: Header, ops: seq<Operation>)
    requires HeaderOk(h) && AdmitAll(h.version, ops).Some?
    ensures Decoded(Compiled(h, ops)) == Some((h, ops))
  {
    hide Plain, AdmitFrom, HeaderOk, LabelOk;
    RootIsLabel();
    AdmittedIsPlain(h.version, 0, Empty(), ops);
    PlainCompiles(h, ops);
  }

  /** Two admitted scenarios with equal text differ at most in expected state. */
  lemma CompiledIsInjective(h: Header, ops: seq<Operation>, g: Header, others: seq<Operation>)
    requires HeaderOk(h) && AdmitAll(h.version, ops).Some? && HeaderOk(g) && AdmitAll(g.version, others).Some?
    requires Compiled(h, ops) == Compiled(g, others)
    ensures h == g && ops == others
  {
    hide Plain, AdmitFrom, HeaderOk, Compiled, Decoded;
    CompiledDecodes(h, ops);
    CompiledDecodes(g, others);
  }

  // ---------- the compiler's loops

  method CompileItems(items: seq<Item>) returns (text: string)
    ensures text == ItemsText(items)
  {
    hide Member;
    var members := [];
    for i := 0 to |items|
      invariant members == Members(items[..i])
    {
      MembersGrow(items[..i], items[i]);
      assert items[..i + 1] == items[..i] + [items[i]];
      members := members + [Member(items[i])];
    }
    assert items[..|items|] == items;
    text := Join(members, ',');
  }

  lemma {:induction false} MembersGrow(items: seq<Item>, item: Item)
    ensures Members(items + [item]) == Members(items) + [Member(item)]
  {
    hide Member;
    if items != [] {
      MembersGrow(items[1..], item);
      assert (items + [item])[1..] == items[1..] + [item];
    } else {
      assert items + [item] == [item];
    }
  }

  method CompileLine(op: Operation) returns (line: string)
    ensures line == Line(op)
  {
    hide ItemsText, Join;
    if op.Batch? || op.WindowBatch? {
      var text := CompileItems(op.items);
      line := Join([if op.Batch? then "batch" else "window_batch", text], ' ');
    } else {
      line := Join(Fields(op), ' ');
    }
  }

  /** Compiles an admitted scenario line by line. */
  method CompileCommands(h: Header, ops: seq<Operation>) returns (text: string)
    requires HeaderOk(h) && AdmitAll(h.version, ops).Some?
    ensures Decoded(text) == Some((h, ops))
  {
    hide Line, Plain, AdmitFrom, Decoded, HeaderFields;
    CompiledDecodes(h, ops);
    var lines := [Magic(h.version), Join(HeaderFields(h), ' ')];
    ghost var head := lines;
    for i := 0 to |ops|
      invariant lines == head + Lines(ops[..i])
    {
      var line := CompileLine(ops[i]);
      assert ops[..i + 1][..i] == ops[..i];
      lines := lines + [line];
    }
    assert ops[..|ops|] == ops;
    text := Join(lines, '\n') + "\n";
  }
}
