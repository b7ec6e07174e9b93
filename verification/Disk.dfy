/** Who owns what in data_dir: the jobs' downloads, promotions, replacements and prunes, interleaved with
    arbitrary changes by the user and with restarts, on top of the Jobs machine.

    A file's contents are represented by their sha256, and its size and mtime by one identity token, which no
    two writes share. Checking a recorded file and removing or moving it aside is one step, and so are
    promoting a download and recording it. */
module Disk {
  import Jobs

  type JobId = Jobs.JobId
  type Id = nat

  // ---------- The disk ----------

  datatype Origin = Own | User

  datatype Item = Item(id: Id, sha: string, origin: Origin)

  /** An entry of data_dir or of .incoming. */
  datatype Slot =
    | Single(item: Item)
    | Folder(items: map<string, Item>)  // by relative path
    | Odd                               // a symlink, a device

  /** What a download is remembered by. */
  datatype Record = FileRecord(path: string, id: Id) | DirRecord(path: string, ids: map<string, Id>)

  /** What the catalogue says a job's torrent holds. */
  datatype Want = WantFile(sha: string) | WantDir(shas: map<string, string>)

  datatype Files = Files(
    data: map<string, Slot>,
    incoming: map<string, Slot>,
    owner: map<string, string>,  // .incoming/.<id>.infohash
    aside: map<nat, Slot>,       // .incoming/.<id>.replaced.<ns>
    records: map<string, Record>,
    saved: map<string, Record>,  // downloaded.json
    own: set<Id>,                // history: identities of files viiwork-parrot wrote
    clock: Id)                   // history: identities from here on are unused

  function Items(slot: Slot): map<string, Item> {
    match slot
    case Single(item) => map["" := item]
    case Folder(items) => items
    case Odd => map[]
  }

  function ItemsAt(m: map<string, Slot>, name: string): map<string, Item> {
    if name in m then Items(m[name]) else map[]
  }

  /** statRecorded: exactly the recorded files, each unchanged, and nothing else. */
  predicate Unchanged(rec: Record, slot: Slot) {
    match rec
    case FileRecord(_, id) => slot.Single? && slot.item.id == id
    case DirRecord(_, ids) =>
      slot.Folder? && slot.items.Keys == ids.Keys && forall rel <- ids :: slot.items[rel].id == ids[rel]
  }

  /** The whole content the catalogue lists, and nothing more. */
  predicate Exactly(want: Want, slot: Slot) {
    match want
    case WantFile(sha) => slot.Single? && slot.item.sha == sha
    case WantDir(shas) =>
      slot.Folder? && slot.items.Keys == shas.Keys && forall rel <- shas :: slot.items[rel].sha == shas[rel]
  }

  /** The same, other files in the folder being ignored. */
  predicate Holds(want: Want, slot: Slot) {
    match want
    case WantFile(sha) => slot.Single? && slot.item.sha == sha
    case WantDir(shas) =>
      slot.Folder? && shas.Keys <= slot.items.Keys && forall rel <- shas :: slot.items[rel].sha == shas[rel]
  }

  function RecordOf(path: string, slot: Slot): Record
    requires !slot.Odd?
  {
    match slot
    case Single(item) => FileRecord(path, item.id)
    case Folder(items) => DirRecord(path, map rel <- items :: items[rel].id)
  }

  /** pruneExtras: only the files the catalogue lists. */
  function Trimmed(want: Want, slot: Slot): Slot {
    if want.WantDir? && slot.Folder? then Folder(map rel <- slot.items | rel in want.shas :: slot.items[rel]) else slot
  }

  /** viiwork-parrot's own unchanged download is at path, recorded under ih. */
  predicate OwnAt(fs: Files, ih: string, path: string) {
    ih in fs.records && fs.records[ih].path == path && path in fs.data && Unchanged(fs.records[ih], fs.data[path])
  }

  /** Every item is one of before's at the same place, or freshly written by who. */
  predicate Rewritten(fs: Files, before: map<string, Item>, slot: Slot, next: Id, who: Origin) {
    && next >= fs.clock
    && forall rel <- Items(slot) ::
      var x := Items(slot)[rel];
      (rel in before && before[rel] == x) || (fs.clock <= x.id < next && x.origin == who)
  }

  function NewIds(fs: Files, slot: Slot): set<Id> {
    set rel <- Items(slot) | Items(slot)[rel].id >= fs.clock :: Items(slot)[rel].id
  }

  // What the operations do to the disk.

  function Discard(fs: Files, disk: string): Files {
    fs.(incoming := fs.incoming - {disk}, owner := fs.owner - {disk})
  }

  function Write(fs: Files, disk: string, slot: Slot, next: Id): Files {
    fs.(incoming := fs.incoming[disk := slot], own := fs.own + NewIds(fs, slot), clock := next)
  }

  /** Removes what the record of ih says was downloaded, if it is still that, and forgets the record. */
  function Prune(fs: Files, ih: string, leftover: bool): Files {
    if ih !in fs.records then fs
    else
      var path := fs.records[ih].path;
      fs.(records := fs.records - {ih},
          data := if !OwnAt(fs, ih, path) then fs.data
                  else if leftover && fs.data[path].Folder? then fs.data[path := Folder(map[])]
                  else fs.data - {path})
  }

  /** Unlinks the older revision recorded under prior. */
  function Unlink(fs: Files, disk: string, prior: string): Files {
    fs.(data := fs.data - {disk}, records := fs.records - {prior})
  }

  /** A download can be moved to disk. */
  predicate Placeable(fs: Files, disk: string) {
    disk in fs.incoming && !fs.incoming[disk].Odd? && disk !in fs.data
  }

  /** Moves the download to its final path and records it. */
  function Place(fs: Files, disk: string, ih: string): Files
    requires Placeable(fs, disk)
  {
    Discard(fs, disk).(data := fs.data[disk := fs.incoming[disk]],
      records := fs.records[ih := RecordOf(disk, fs.incoming[disk])])
  }

  function SetAside(fs: Files, disk: string, key: nat): Files
    requires disk in fs.data
  {
    fs.(data := fs.data - {disk}, aside := fs.aside[key := fs.data[disk]])
  }

  function PutBack(fs: Files, disk: string, key: nat): Files
    requires key in fs.aside
  {
    fs.(data := fs.data[disk := fs.aside[key]], aside := fs.aside - {key})
  }

  /** What the record under prior is, and that it is for this path. */
  predicate RecordIs(fs: Files, prior: string, rec: Record) { prior in fs.records && fs.records[prior] == rec }

  predicate RecordFor(fs: Files, prior: string, path: string) { prior in fs.records && fs.records[prior].path == path }

  lemma {:induction false} PlaceRecords(fs: Files, disk: string, ih: string, prior: string, path: string)
    requires Placeable(fs, disk) && disk != path
    ensures RecordFor(Place(fs, disk, ih), prior, path) <==> RecordFor(fs, prior, path) && ih != prior
    ensures ih != prior && prior in fs.records ==> RecordIs(Place(fs, disk, ih), prior, fs.records[prior])
  {
  }

  // ---------- Ownership ----------

  /** Identities tell viiwork-parrot's own files from the user's. */
  ghost predicate ItemsOK(own: set<Id>, clock: Id, slot: Slot) {
    forall rel <- Items(slot) :: Items(slot)[rel].id < clock &&
      (Items(slot)[rel].origin.Own? <==> Items(slot)[rel].id in own)
  }

  ghost predicate AllOwn(slot: Slot) {
    forall rel <- Items(slot) :: Items(slot)[rel].origin.Own?
  }

  ghost predicate RecordOK(own: set<Id>, rec: Record) {
    match rec
    case FileRecord(_, id) => id in own
    case DirRecord(_, ids) => forall rel <- ids :: ids[rel] in own
  }

  ghost predicate FilesOK(fs: Files) {
    && (forall n <- fs.data :: ItemsOK(fs.own, fs.clock, fs.data[n]))
    && (forall n <- fs.incoming :: ItemsOK(fs.own, fs.clock, fs.incoming[n]) && AllOwn(fs.incoming[n]))
    && (forall k <- fs.aside :: ItemsOK(fs.own, fs.clock, fs.aside[k]) && AllOwn(fs.aside[k]))
    && (forall i <- fs.own :: i < fs.clock)
    && (forall ih <- fs.records :: RecordOK(fs.own, fs.records[ih]))
    && (forall ih <- fs.saved :: RecordOK(fs.own, fs.saved[ih]))
  }

  /** What matches a record is all viiwork-parrot's own. */
  lemma {:induction false} MatchIsOwn(own: set<Id>, clock: Id, rec: Record, slot: Slot)
    requires RecordOK(own, rec) && ItemsOK(own, clock, slot) && Unchanged(rec, slot)
    ensures AllOwn(slot)
  {
  }

  lemma {:induction false} RecordOfOwn(own: set<Id>, clock: Id, path: string, slot: Slot)
    requires ItemsOK(own, clock, slot) && AllOwn(slot) && !slot.Odd?
    ensures RecordOK(own, RecordOf(path, slot)) && Unchanged(RecordOf(path, slot), slot)
  {
    match slot
    case Single(item) => assert "" in Items(slot);
    case Folder(items) =>
      forall rel <- items ensures items[rel].id in own {
        assert rel in Items(slot);
      }
  }

  lemma {:induction false} WriteOK(fs: Files, disk: string, slot: Slot, next: Id)
    requires FilesOK(fs) && Rewritten(fs, ItemsAt(fs.incoming, disk), slot, next, Own)
    ensures FilesOK(Write(fs, disk, slot, next))
  {
    var fs' := Write(fs, disk, slot, next);
    forall x: Slot | ItemsOK(fs.own, fs.clock, x) ensures ItemsOK(fs'.own, fs'.clock, x) {
    }
    assert ItemsOK(fs'.own, fs'.clock, slot) && AllOwn(slot);
  }

  lemma {:induction false} UserPutsOK(fs: Files, name: string, slot: Slot, next: Id)
    requires FilesOK(fs) && Rewritten(fs, ItemsAt(fs.data, name), slot, next, User)
    ensures FilesOK(fs.(data := fs.data[name := slot], clock := next))
  {
    assert ItemsOK(fs.own, next, slot);
  }

  lemma {:induction false} PlaceOK(fs: Files, disk: string, ih: string)
    requires FilesOK(fs) && Placeable(fs, disk)
    ensures FilesOK(Place(fs, disk, ih))
  {
    RecordOfOwn(fs.own, fs.clock, disk, fs.incoming[disk]);
  }

  lemma {:induction false} SetAsideOK(fs: Files, disk: string, ih: string, key: nat)
    requires FilesOK(fs) && OwnAt(fs, ih, disk)
    ensures FilesOK(SetAside(fs, disk, key))
  {
    MatchIsOwn(fs.own, fs.clock, fs.records[ih], fs.data[disk]);
  }

  lemma {:induction false} TrimmedOK(fs: Files, disk: string, want: Want)
    requires FilesOK(fs) && disk in fs.incoming
    ensures FilesOK(fs.(incoming := fs.incoming[disk := Trimmed(want, fs.incoming[disk])]))
  {
    var slot := Trimmed(want, fs.incoming[disk]);
    assert forall rel <- Items(slot) ::
      rel in Items(fs.incoming[disk]) && Items(slot)[rel] == Items(fs.incoming[disk])[rel];
    assert ItemsOK(fs.own, fs.clock, slot) && AllOwn(slot);
  }

  /** A file that is gone or different after a change was viiwork-parrot's own, recorded, and unchanged. */
  ghost predicate OnlyOwnGone(fs: Files, fs': Files) {
    forall n <- fs.data :: forall rel <- Items(fs.data[n]) ::
      || (rel in ItemsAt(fs'.data, n) && ItemsAt(fs'.data, n)[rel] == Items(fs.data[n])[rel])
      || (Items(fs.data[n])[rel].origin.Own? && exists ih <- fs.records :: OwnAt(fs, ih, n))
  }

  lemma {:induction false} SlotGone(fs: Files, fs': Files, ih: string, disk: string)
    requires FilesOK(fs) && OwnAt(fs, ih, disk)
    requires forall n <- fs.data :: n != disk ==> n in fs'.data && fs'.data[n] == fs.data[n]
    ensures OnlyOwnGone(fs, fs')
  {
    MatchIsOwn(fs.own, fs.clock, fs.records[ih], fs.data[disk]);
  }
}
