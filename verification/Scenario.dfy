/** The operations of a replay scenario, versions 1 to 9. */
module Scenario {
  import opened Basics

  /** Labels name bindings inside a scenario. Names and symlink targets are
      held as their UTF-8 bytes, whose order is the order of the text. */
  type Label = string
  type Name = Bytes

  const ROOT: Label := "root"

  datatype Kind = DirectoryKind | SymlinkKind | FileKind

  datatype Budget = Budget(maxBlocks: nat, maxRecords: nat)

  /** Where flight events are delivered while a scenario runs, and the operation before
      which that ends. */
  datatype Sink = Sink(capacity: nat, disconnectBefore: Option<nat>)

  /** One member of an atomic batch or of a staged window group. */
  datatype Item =
    | ItemCreate(tag: Label, parent: Label, name: Name, data: Bytes)
    | ItemDelete(tag: Label)
    | ItemRename(tag: Label, parent: Label, name: Name)
    | ItemReplace(tag: Label, victim: Label, parent: Label, name: Name)

  datatype Action = ViewCreate | ViewOpen | ViewClose | ViewDelete | ViewInspect

  datatype FaultClass = FaultWrite | FaultFlush | FaultRead

  /** A bounded variant of an operation carries its budget. */
  datatype Operation =
    | Mkdir(tag: Label, parent: Label, name: Name)
    | Create(tag: Label, parent: Label, name: Name, data: Bytes)
    | Write(tag: Label, offset: nat, data: Bytes, budget: Option<Budget>)
    | Truncate(tag: Label, size: nat, budget: Option<Budget>)
    | Rename(tag: Label, parent: Label, name: Name)
    | Unlink(tag: Label)
    | Rmdir(tag: Label)
    | Sync
    | Remount
    | WindowWrite(tag: Label, offset: nat, data: Bytes)
    | WindowTruncate(tag: Label, size: nat)
    | WindowFsync
    | WindowCommit
    | Snapshot(action: Action, tag: Label)
    | Verify
    | RemountRefused
    | Fault(format: bool, class_: FaultClass, index: nat)
    | Corrupt(reseal: bool, lba: nat, offset: nat, value: nat)
    | Link(tag: Label, source: Label, parent: Label, name: Name)
    | CloneFile(tag: Label, source: Label, parent: Label, name: Name)
    | Symlink(tag: Label, parent: Label, name: Name, target: Bytes)
    | SetProtection(tag: Label, protection: nat)
    | UnlinkSymlink(tag: Label)
    | CloneRange(source: Label, sourceOffset: nat, destination: Label, destinationOffset: nat, length: nat)
    | RenameReplace(tag: Label, victim: Label, parent: Label, name: Name, orphan: bool)
    | OrphanFile(tag: Label)
    | CleanupOrphan(tag: Label)
    | Preallocate(tag: Label, offset: nat, length: nat, budget: Option<Budget>)
    | SetDataPolicy(tag: Label, policy: bool)
    | RestoreMetadata(tag: Label, protection: nat, created: nat, modified: nat, changed: nat)
    | ReclaimStep
    | SnapshotMaintenanceStep
    | Batch(items: seq<Item>)
    | WindowBatch(items: seq<Item>)
}
