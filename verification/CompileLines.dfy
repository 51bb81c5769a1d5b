/** The spelling of the runner's protocol: what each compiled line reads, keyword by keyword and field by field. */
module CompileLines {
  import opened Basics
  import opened Scenario
  import opened Text
  import opened Compile

  // ---------- lines of two to six fields

  lemma Join2(a: string, b: string, sep: char)
    ensures Join([a, b], sep) == a + [sep] + b
  {
    assert [a, b][1..] == [b];
  }

  lemma Join3(a: string, b: string, c: string, sep: char)
    ensures Join([a, b, c], sep) == a + [sep] + b + [sep] + c
  {
    assert [a, b, c][1..] == [b, c];
    Join2(b, c, sep);
  }

  lemma Join4(a: string, b: string, c: string, d: string, sep: char)
    ensures Join([a, b, c, d], sep) == a + [sep] + b + [sep] + c + [sep] + d
  {
    assert [a, b, c, d][1..] == [b, c, d];
    Join3(b, c, d, sep);
  }

  lemma Join5(a: string, b: string, c: string, d: string, e: string, sep: char)
    ensures Join([a, b, c, d, e], sep) == a + [sep] + b + [sep] + c + [sep] + d + [sep] + e
  {
    assert [a, b, c, d, e][1..] == [b, c, d, e];
    Join4(b, c, d, e, sep);
  }

  lemma Join6(a: string, b: string, c: string, d: string, e: string, f: string, sep: char)
    ensures Join([a, b, c, d, e, f], sep) == a + [sep] + b + [sep] + c + [sep] + d + [sep] + e + [sep] + f
  {
    assert [a, b, c, d, e, f][1..] == [b, c, d, e, f];
    Join5(b, c, d, e, f, sep);
  }

  // ---------- operations

  lemma BareLines()
    ensures Line(Sync) == "sync" && Line(Remount) == "remount" && Line(RemountRefused) == "remount_refused"
    ensures Line(WindowFsync) == "window_fsync" && Line(WindowCommit) == "window_commit" && Line(Verify) == "verify"
    ensures Line(ReclaimStep) == "reclaim_step"
    ensures Line(SnapshotMaintenanceStep) == "snapshot_maintenance_step"
  {
  }

  lemma SingleLines(tag: Label)
    ensures Line(Unlink(tag)) == "unlink" + " " + tag
    ensures Line(Rmdir(tag)) == "rmdir" + " " + tag
    ensures Line(UnlinkSymlink(tag)) == "unlink_symlink" + " " + tag
    ensures Line(OrphanFile(tag)) == "orphan_file" + " " + tag
    ensures Line(CleanupOrphan(tag)) == "cleanup_orphan" + " " + tag
  {
    hide Join;
    Join2("unlink", tag, ' ');
    Join2("rmdir", tag, ' ');
    Join2("unlink_symlink", tag, ' ');
    Join2("orphan_file", tag, ' ');
    Join2("cleanup_orphan", tag, ' ');
  }

  lemma ViewLines(tag: Label)
    ensures Line(Snapshot(ViewCreate, tag)) == "snapshot_create" + " " + tag
    ensures Line(Snapshot(ViewOpen, tag)) == "snapshot_open" + " " + tag
    ensures Line(Snapshot(ViewClose, tag)) == "snapshot_close" + " " + tag
    ensures Line(Snapshot(ViewDelete, tag)) == "snapshot_delete" + " " + tag
    ensures Line(Snapshot(ViewInspect, tag)) == "snapshot_inspect" + " " + tag
  {
    hide Join;
    Join2("snapshot_create", tag, ' ');
    Join2("snapshot_open", tag, ' ');
    Join2("snapshot_close", tag, ' ');
    Join2("snapshot_delete", tag, ' ');
    Join2("snapshot_inspect", tag, ' ');
  }

  lemma PairLines(tag: Label, n: nat)
    ensures Line(Truncate(tag, n, None)) == "truncate" + " " + tag + " " + Decimal(n)
    ensures Line(WindowTruncate(tag, n)) == "window_truncate" + " " + tag + " " + Decimal(n)
    ensures Line(SetProtection(tag, n)) == "set_protection" + " " + tag + " " + Decimal(n)
    ensures Line(SetDataPolicy(tag, true)) == "set_data_policy" + " " + tag + " " + "1"
    ensures Line(SetDataPolicy(tag, false)) == "set_data_policy" + " " + tag + " " + "0"
  {
    hide Join, Decimal;
    Join3("truncate", tag, Decimal(n), ' ');
    Join3("window_truncate", tag, Decimal(n), ' ');
    Join3("set_protection", tag, Decimal(n), ' ');
    Join3("set_data_policy", tag, "1", ' ');
    Join3("set_data_policy", tag, "0", ' ');
  }

  lemma FaultLines(n: nat)
    ensures Line(Fault(false, FaultWrite, n)) == "fault" + " " + "write" + " " + Decimal(n)
    ensures Line(Fault(false, FaultFlush, n)) == "fault" + " " + "flush" + " " + Decimal(n)
    ensures Line(Fault(false, FaultRead, n)) == "fault" + " " + "read" + " " + Decimal(n)
  {
    hide Join, Decimal;
    Join3("fault", "write", Decimal(n), ' ');
    Join3("fault", "flush", Decimal(n), ' ');
    Join3("fault", "read", Decimal(n), ' ');
  }

  lemma FormatFaultLines(n: nat)
    ensures Line(Fault(true, FaultWrite, n)) == "format_fault" + " " + "write" + " " + Decimal(n)
    ensures Line(Fault(true, FaultFlush, n)) == "format_fault" + " " + "flush" + " " + Decimal(n)
    ensures Line(Fault(true, FaultRead, n)) == "format_fault" + " " + "read" + " " + Decimal(n)
  {
    hide Join, Decimal;
    Join3("format_fault", "write", Decimal(n), ' ');
    Join3("format_fault", "flush", Decimal(n), ' ');
    Join3("format_fault", "read", Decimal(n), ' ');
  }

  lemma CorruptLines(lba: nat, offset: nat, value: nat)
    ensures Line(Corrupt(false, lba, offset, value))
         == "corrupt" + " " + Decimal(lba) + " " + Decimal(offset) + " " + Decimal(value)
    ensures Line(Corrupt(true, lba, offset, value))
         == "reseal" + " " + Decimal(lba) + " " + Decimal(offset) + " " + Decimal(value)
  {
    hide Join, Decimal;
    Join4("corrupt", Decimal(lba), Decimal(offset), Decimal(value), ' ');
    Join4("reseal", Decimal(lba), Decimal(offset), Decimal(value), ' ');
  }

  lemma TripleLines(tag: Label, parent: Label, name: Name, offset: nat, data: Bytes, length: nat)
    ensures Line(Mkdir(tag, parent, name)) == "mkdir" + " " + tag + " " + parent + " " + Hex(name)
    ensures Line(Rename(tag, parent, name)) == "rename" + " " + tag + " " + parent + " " + Hex(name)
    ensures Line(Write(tag, offset, data, None)) == "write" + " " + tag + " " + Decimal(offset) + " " + Data(data)
    ensures Line(WindowWrite(tag, offset, data))
         == "window_write" + " " + tag + " " + Decimal(offset) + " " + Data(data)
    ensures Line(Preallocate(tag, offset, length, None))
         == "preallocate" + " " + tag + " " + Decimal(offset) + " " + Decimal(length)
  {
    hide Join, Decimal, Hex, Data;
    Join4("mkdir", tag, parent, Hex(name), ' ');
    Join4("rename", tag, parent, Hex(name), ' ');
    Join4("write", tag, Decimal(offset), Data(data), ' ');
    Join4("window_write", tag, Decimal(offset), Data(data), ' ');
    Join4("preallocate", tag, Decimal(offset), Decimal(length), ' ');
  }

  lemma NamingLines(tag: Label, other: Label, parent: Label, name: Name, data: Bytes)
    ensures Line(Create(tag, parent, name, data))
         == "create" + " " + tag + " " + parent + " " + Hex(name) + " " + Data(data)
    ensures Line(Symlink(tag, parent, name, data))
         == "symlink" + " " + tag + " " + parent + " " + Hex(name) + " " + Hex(data)
    ensures Line(Link(tag, other, parent, name))
         == "link" + " " + tag + " " + other + " " + parent + " " + Hex(name)
    ensures Line(CloneFile(tag, other, parent, name))
         == "clone_file" + " " + tag + " " + other + " " + parent + " " + Hex(name)
    ensures Line(RenameReplace(tag, other, parent, name, false))
         == "rename_replace" + " " + tag + " " + other + " " + parent + " " + Hex(name)
    ensures Line(RenameReplace(tag, other, parent, name, true))
         == "rename_replace_orphan" + " " + tag + " " + other + " " + parent + " " + Hex(name)
  {
    hide Join, Hex, Data;
    Join5("create", tag, parent, Hex(name), Data(data), ' ');
    Join5("symlink", tag, parent, Hex(name), Hex(data), ' ');
    Join5("link", tag, other, parent, Hex(name), ' ');
    Join5("clone_file", tag, other, parent, Hex(name), ' ');
    Join5("rename_replace", tag, other, parent, Hex(name), ' ');
    Join5("rename_replace_orphan", tag, other, parent, Hex(name), ' ');
  }

  /** Bounded forms end with the budget, blocks before records. */
  lemma BoundedLines(tag: Label, n: nat, data: Bytes, length: nat, b: Budget)
    ensures Line(Truncate(tag, n, Some(b)))
         == "truncate_bounded" + " " + tag + " " + Decimal(n) + " " + Decimal(b.maxBlocks) + " "
            + Decimal(b.maxRecords)
    ensures Line(Write(tag, n, data, Some(b)))
         == "write_bounded" + " " + tag + " " + Decimal(n) + " " + Data(data) + " " + Decimal(b.maxBlocks) + " "
            + Decimal(b.maxRecords)
    ensures Line(Preallocate(tag, n, length, Some(b)))
         == "preallocate_bounded" + " " + tag + " " + Decimal(n) + " " + Decimal(length) + " "
            + Decimal(b.maxBlocks) + " " + Decimal(b.maxRecords)
  {
    hide Join, Decimal, Data;
    Join5("truncate_bounded", tag, Decimal(n), Decimal(b.maxBlocks), Decimal(b.maxRecords), ' ');
    Join6("write_bounded", tag, Decimal(n), Data(data), Decimal(b.maxBlocks), Decimal(b.maxRecords), ' ');
    Join6("preallocate_bounded", tag, Decimal(n), Decimal(length), Decimal(b.maxBlocks), Decimal(b.maxRecords), ' ');
  }

  lemma LongLines(tag: Label, other: Label, a: nat, b: nat, c: nat, d: nat)
    ensures Line(CloneRange(tag, a, other, b, c))
         == "clone_range" + " " + tag + " " + Decimal(a) + " " + other + " " + Decimal(b) + " " + Decimal(c)
    ensures Line(RestoreMetadata(tag, a, b, c, d))
         == "restore_metadata" + " " + tag + " " + Decimal(a) + " " + Decimal(b) + " " + Decimal(c) + " "
            + Decimal(d)
  {
    hide Join, Decimal;
    Join6("clone_range", tag, Decimal(a), other, Decimal(b), Decimal(c), ' ');
    Join6("restore_metadata", tag, Decimal(a), Decimal(b), Decimal(c), Decimal(d), ' ');
  }

  // ---------- batches

  lemma MemberLines(tag: Label, victim: Label, parent: Label, name: Name, data: Bytes)
    ensures Member(ItemCreate(tag, parent, name, data))
         == "create" + ":" + tag + ":" + parent + ":" + Hex(name) + ":" + Data(data)
    ensures Member(ItemDelete(tag)) == "delete" + ":" + tag
    ensures Member(ItemRename(tag, parent, name)) == "rename" + ":" + tag + ":" + parent + ":" + Hex(name)
    ensures Member(ItemReplace(tag, victim, parent, name))
         == "replace" + ":" + tag + ":" + victim + ":" + parent + ":" + Hex(name)
  {
    hide Join, Hex, Data;
    Join5("create", tag, parent, Hex(name), Data(data), ':');
    Join2("delete", tag, ':');
    Join4("rename", tag, parent, Hex(name), ':');
    Join5("replace", tag, victim, parent, Hex(name), ':');
  }

  /** The members of a group follow one another behind commas, in order. */
  lemma GroupLines(items: seq<Item>, item: Item)
    ensures Line(Batch(items)) == "batch" + " " + ItemsText(items)
    ensures Line(WindowBatch(items)) == "window_batch" + " " + ItemsText(items)
    ensures ItemsText([item]) == Member(item)
    ensures items != [] ==> ItemsText([item] + items) == Member(item) + "," + ItemsText(items)
  {
    hide Member;
    assert ([item] + items)[1..] == items;
    assert [item][1..] == [];
    assert Members([item] + items)[1..] == Members(items);
    hide Join;
    Join2("batch", ItemsText(items), ' ');
    Join2("window_batch", ItemsText(items), ' ');
  }

  // ---------- the first two lines

  lemma MagicLines()
    ensures Magic(1) == "AFSPSC01" && Magic(2) == "AFSPSC02" && Magic(3) == "AFSPSC03"
    ensures Magic(4) == "AFSPSC04" && Magic(5) == "AFSPSC05" && Magic(6) == "AFSPSC06"
    ensures Magic(7) == "AFSPSC07" && Magic(8) == "AFSPSC08" && Magic(9) == "AFSPSC09"
  {
  }

  lemma {:induction false} JoinTwo(a: seq<string>, b: seq<string>, sep: char)
    requires a != [] && b != []
    ensures Join(a + b, sep) == Join(a, sep) + [sep] + Join(b, sep)
  {
    assert (a + b)[1..] == a[1..] + b;
    if |a| > 1 { JoinTwo(a[1..], b, sep); }
  }

  lemma Grows(a: seq<string>, b: seq<string>, text: string)
    requires a != []
    requires if b == [] then text == "" else text == " " + Join(b, ' ')
    ensures Join(a + b, ' ') == Join(a, ' ') + text
  {
    if b == [] { assert a + b == a; } else { JoinTwo(a, b, ' '); }
  }

  function VolumeText(h: Header): string {
    "format" + " " + Decimal(h.blockSize) + " " + Decimal(h.blocks) + " " + Decimal(h.regionSize) + " "
    + Decimal(h.logSlots)
  }

  function CacheText(h: Header): string {
    if h.pages == None then "" else if h.pages == Some(Unlimited) then " " + "unlimited"
    else " " + Decimal(h.pages.value.n)
  }

  function CapacityText(h: Header): string { if h.capacity.Some? then " " + Decimal(h.capacity.value) else "" }

  function SinkText(sink: Option<Sink>): string {
    match sink
    case None => "0" + " " + "none"
    case Some(Sink(capacity, None)) => Decimal(capacity) + " " + "none"
    case Some(Sink(capacity, Some(n))) => Decimal(capacity) + " " + Decimal(n)
  }

  function SelectionText(h: Header): string {
    if h.selection.Some?
    then " " + Decimal(h.selection.value.categories) + " " + SinkText(h.selection.value.sink) else ""
  }

  function LimitsText(h: Header): string {
    if h.limits.Some?
    then " " + Decimal(h.limits.value.maxEditRecords) + " " + Decimal(h.limits.value.maxViews)
         + " " + Decimal(h.limits.value.reclaimRecords) else ""
  }

  function PoliciesText(h: Header): string {
    if h.policies.Some?
    then " " + (if h.policies.value.dataPolicy then "1" else "0") + " " + Decimal(h.policies.value.orphanExtents)
    else ""
  }

  lemma SelectionReads(s: Selection)
    ensures Join(SelectionFields(s), ' ') == Decimal(s.categories) + " " + SinkText(s.sink)
  {
    var f := SelectionFields(s);
    assert Decimal(0) == "0";
    hide Decimal, Join;
    Join3(f[0], f[1], f[2], ' ');
    assert f == [f[0], f[1], f[2]];
  }

  /** Each group of header fields is appended behind a space, when the version carries it. */
  lemma HeaderLine(h: Header)
    ensures Join(HeaderFields(h), ' ')
         == VolumeText(h) + CacheText(h) + CapacityText(h) + SelectionText(h) + LimitsText(h) + PoliciesText(h)
  {
    var p := if h.pages.Some? then [PagesText(h.pages.value)] else [];
    var c := if h.capacity.Some? then [Decimal(h.capacity.value)] else [];
    var s := if h.selection.Some? then SelectionFields(h.selection.value) else [];
    var l := if h.limits.Some? then LimitFields(h.limits.value) else [];
    var q := if h.policies.Some? then PolicyFields(h.policies.value) else [];
    var v := VolumeFields(h);
    assert HeaderFields(h) == v + p + c + s + l + q;
    GroupsRead(h);
    hide *;
    VolumeReads(h);
    Grows(v, p, CacheText(h));
    Grows(v + p, c, CapacityText(h));
    Grows(v + p + c, s, SelectionText(h));
    Grows(v + p + c + s, l, LimitsText(h));
    Grows(v + p + c + s + l, q, PoliciesText(h));
  }

  lemma VolumeReads(h: Header)
    ensures Join(VolumeFields(h), ' ') == VolumeText(h)
  {
    var v := VolumeFields(h);
    hide Join, Decimal;
    Join5(v[0], v[1], v[2], v[3], v[4], ' ');
  }

  lemma GroupsRead(h: Header)
    ensures if h.pages.Some? then " " + Join([PagesText(h.pages.value)], ' ') == CacheText(h) else CacheText(h) == ""
    ensures h.capacity.None? ==> CapacityText(h) == ""
    ensures h.capacity.Some? ==> " " + Join([Decimal(h.capacity.value)], ' ') == CapacityText(h)
    ensures h.selection.None? ==> SelectionText(h) == ""
    ensures h.selection.Some? ==> " " + Join(SelectionFields(h.selection.value), ' ') == SelectionText(h)
    ensures h.limits.None? ==> LimitsText(h) == ""
    ensures h.limits.Some? ==> " " + Join(LimitFields(h.limits.value), ' ') == LimitsText(h)
    ensures h.policies.None? ==> PoliciesText(h) == ""
    ensures h.policies.Some? ==> " " + Join(PolicyFields(h.policies.value), ' ') == PoliciesText(h)
  {
    hide Decimal;
    if h.selection.Some? {
      SelectionReads(h.selection.value);
    }
    hide Join;
    if h.limits.Some? {
      var f := LimitFields(h.limits.value);
      Join3(f[0], f[1], f[2], ' ');
    }
    if h.policies.Some? {
      var f := PolicyFields(h.policies.value);
      Join2(f[0], f[1], ' ');
    }
  }

  // ---------- the whole text

  /** The magic and the header line come first, and every operation adds exactly its own line. */
  lemma CompiledGrows(h: Header, ops: seq<Operation>, op: Operation)
    requires h.version < 10
    ensures Compiled(h, []) == Magic(h.version) + "\n" + Join(HeaderFields(h), ' ') + "\n"
    ensures Compiled(h, ops + [op]) == Compiled(h, ops) + Line(op) + "\n"
  {
    hide Line, Magic, HeaderFields;
    var head := [Magic(h.version), Join(HeaderFields(h), ' ')];
    assert (ops + [op])[..|ops|] == ops;
    assert head + Lines(ops + [op]) == head + Lines(ops) + [Line(op)];
    assert head + Lines([]) == head;
    hide Join, Lines;
    JoinTwo(head + Lines(ops), [Line(op)], '\n');
    Join2(head[0], head[1], '\n');
    assert Join([Line(op)], '\n') == Line(op) by { JoinOne(Line(op), '\n'); }
  }

  lemma JoinOne(a: string, sep: char)
    ensures Join([a], sep) == a
  {
  }

  // ---------- lines the repository's own tests quote

  lemma QuotedBytes()
    ensures Hex([46, 46]) == "2e2e" && Data([0, 255]) == "00ff"
  {
    assert Hex([255]) == "ff" && Hex([46]) == "2e" by { assert [255][1..] == [] && [46][1..] == []; }
    assert [46, 46][1..] == [46] && [0, 255][1..] == [255];
  }

  lemma QuotedCreate()
    ensures Line(Create("f", "d", [46, 46], [0, 255])) == "create f d 2e2e 00ff"
  {
    hide *;
    QuotedBytes();
    NamingLines("f", "d", "d", [46, 46], [0, 255]);
  }

  lemma QuotedNumber()
    ensures Decimal(1) == "1" && Decimal(4097) == "4097"
  {
    assert Decimal(40) == "40" && Decimal(409) == "409";
  }

  lemma QuotedClone()
    ensures Line(CloneRange("f", 1, "c", 4097, 1)) == "clone_range f 1 c 4097 1"
  {
    hide *;
    QuotedNumber();
    LongLines("f", "c", 1, 4097, 1, 0);
  }
}
