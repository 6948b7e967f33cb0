/**
 The copy-on-write, deduplicating block store: its state and, as functions on
 values, what each storage operation does to it.
 */
module BlockStore {
  import opened Common

  type Hash = string

  /** The path `file/tag/logical_blocks/NNNNNN.dat`. */
  datatype Slot = Slot(owner: FileTag, pos: nat)

  /** `metadata.config` of one tag. */
  datatype Meta = Meta(size: int, blocks: seq<nat>, committed: bool)

  type Tags = map<FileTag, Meta>

  /** The physical side: block files with their link counts, the logical links, the bitmap and the hash index. */
  datatype Disk = Disk(
    content: seq<Block>,
    nlink: seq<int>,
    links: map<Slot, nat>,
    bitmap: seq<bool>,
    index: map<Hash, nat>)

  datatype Store = Store(disk: Disk, files: set<string>, tags: Tags)

  /** The superblock, and the hash function, of which nothing is assumed. */
  datatype Config = Config(blockSize: nat, blockCount: nat, hash: Block -> Hash)
  {
    /** The bitmap is scanned in whole bytes, so the block count has to fill them. */
    predicate Valid() {
      blockSize > 0 && blockCount > 0 && blockCount % 8 == 0
    }
  }

  predicate DiskOk(d: Disk) {
    && |d.nlink| == |d.content| == |d.bitmap|
    && (forall p :: p in d.links ==> d.links[p] < |d.content|)
    && (forall h :: h in d.index ==> d.index[h] < |d.content|)
  }

  predicate StoreOk(s: Store) {
    && DiskOk(s.disk)
    && |s.disk.content| > 0
    && (forall ft :: ft in s.tags ==> InRange(s.disk, s.tags[ft].blocks))
  }

  predicate InRange(d: Disk, blocks: seq<nat>) {
    forall i :: 0 <= i < |blocks| ==> blocks[i] < |d.content|
  }

  // ---------------------------------------------------------------- links

  /** link(2): does nothing when the path exists. */
  function AddLink(d: Disk, b: nat, p: Slot): (r: Disk)
    requires DiskOk(d) && b < |d.content|
    ensures DiskOk(r) && |r.content| == |d.content|
  {
    if p in d.links then d
    else d.(links := d.links[p := b], nlink := d.nlink[b := d.nlink[b] + 1])
  }

  /** unlink(2): does nothing when the path does not exist. */
  function Unlink(d: Disk, p: Slot): (r: Disk)
    requires DiskOk(d)
    ensures DiskOk(r) && |r.content| == |d.content|
  {
    if p !in d.links then d
    else
      var b := d.links[p];
      d.(links := d.links - {p}, nlink := d.nlink[b := d.nlink[b] - 1])
  }

  /** Removes a link; a block left with its own name only is freed and its content's hash leaves the index. */
  function DropLink(cfg: Config, d: Disk, b: nat, p: Slot): (r: Disk)
    requires DiskOk(d) && b < |d.content|
    ensures DiskOk(r) && |r.content| == |d.content|
  {
    var u := Unlink(d, p);
    if u.nlink[b] == 1 then
      u.(bitmap := u.bitmap[b := false], index := u.index - {cfg.hash(u.content[b])})
    else u
  }

  /** Moves a link from block `from` to block `to`; `from` is freed when unused, the index stays as it is. */
  function Relink(d: Disk, from: nat, to: nat, p: Slot): (r: Disk)
    requires DiskOk(d) && from < |d.content| && to < |d.content|
    ensures DiskOk(r) && |r.content| == |d.content|
  {
    var u := AddLink(Unlink(d, p), to, p);
    if u.nlink[from] == 1 then u.(bitmap := u.bitmap[from := false]) else u
  }

  /** A link moved from `b` to `f`, as an allocating write does it. */
  function MoveLink(cfg: Config, d: Disk, b: nat, f: nat, p: Slot): (r: Disk)
    requires DiskOk(d) && b < |d.content| && f < |d.content|
    ensures DiskOk(r) && |r.content| == |d.content|
  {
    AddLink(DropLink(cfg, d, b, p), f, p)
  }

  // ------------------------------------------------- loops of the operations

  /** Links positions `i..` of the block list. */
  function LinkFrom(d: Disk, ft: FileTag, blocks: seq<nat>, i: nat): (r: Disk)
    requires DiskOk(d) && InRange(d, blocks) && i <= |blocks|
    ensures DiskOk(r) && |r.content| == |d.content|
    decreases |blocks| - i
  {
    if i == |blocks| then d
    else LinkFrom(AddLink(d, blocks[i], Slot(ft, i)), ft, blocks, i + 1)
  }

  /** Drops the links of the positions listed in `order`, in that order. */
  function DropAll(cfg: Config, d: Disk, ft: FileTag, blocks: seq<nat>, order: seq<nat>): (r: Disk)
    requires DiskOk(d) && InRange(d, blocks)
    requires forall k :: 0 <= k < |order| ==> order[k] < |blocks|
    ensures DiskOk(r) && |r.content| == |d.content|
    decreases |order|
  {
    if order == [] then d
    else DropAll(cfg, DropLink(cfg, d, blocks[order[0]], Slot(ft, order[0])), ft, blocks, order[1..])
  }

  function Ascending(n: nat): seq<nat> {
    seq(n, (k: int) requires 0 <= k => k as nat)
  }

  /** hi-1, hi-2, ..., lo */
  function Descending(lo: nat, hi: nat): seq<nat>
    requires lo <= hi
  {
    seq(hi - lo, (k: int) requires 0 <= k < hi - lo => (hi - 1 - k) as nat)
  }

  /** One turn of the commit loop: index a new content, or redirect the position to the block already known for it. */
  function DedupStep(cfg: Config, d: Disk, ft: FileTag, blocks: seq<nat>, i: nat): (r: (Disk, seq<nat>))
    requires DiskOk(d) && InRange(d, blocks) && i < |blocks|
    ensures DiskOk(r.0) && |r.0.content| == |d.content| && InRange(r.0, r.1) && |r.1| == |blocks|
  {
    var b := blocks[i];
    var h := cfg.hash(d.content[b]);
    if h !in d.index then (d.(index := d.index[h := b]), blocks)
    else if d.index[h] != b then (Relink(d, b, d.index[h], Slot(ft, i)), blocks[i := d.index[h]])
    else (d, blocks)
  }

  /** The commit loop from position `i` on. */
  function Dedup(cfg: Config, d: Disk, ft: FileTag, blocks: seq<nat>, i: nat): (r: (Disk, seq<nat>))
    requires DiskOk(d) && InRange(d, blocks) && i <= |blocks|
    ensures DiskOk(r.0) && |r.0.content| == |d.content| && InRange(r.0, r.1)
    decreases |blocks| - i
  {
    if i == |blocks| then (d, blocks)
    else
      var (d', blocks') := DedupStep(cfg, d, ft, blocks, i);
      Dedup(cfg, d', ft, blocks', i + 1)
  }

  // ------------------------------------------------------------- operations

  datatype Op =
    | Create(ft: FileTag)
    | Truncate(ft: FileTag, size: int)
    | MakeTag(ft: FileTag, dst: FileTag)
    | Commit(ft: FileTag)
    | WriteBlock(ft: FileTag, n: int, data: Block)
    | ReadBlock(ft: FileTag, n: int)
    | Delete(ft: FileTag)
    | Unknown

  datatype Reply = Reply(code: Code, payload: Block)

  /** What the source demands of a request: a size whose quotient is not negative, and at least one block of data. */
  predicate WellFormed(cfg: Config, op: Op) {
    match op
    case Truncate(_, size) => size + cfg.blockSize > 0
    case WriteBlock(_, _, data) => |data| >= cfg.blockSize
    case _ => true
  }

  /** The checks made before an operation; None lets it through. */
  function Refusal(s: Store, op: Op): Option<Code> {
    match op
    case Create(ft) =>
      if ft.file in s.files then Some(Preexisting) else None
    case Truncate(ft, _) =>
      if ft.file !in s.files then Some(Missing)
      else if ft !in s.tags then Some(Missing)
      else if s.tags[ft].committed then Some(Forbidden)
      else None
    case MakeTag(ft, dst) =>
      if ft.file !in s.files then Some(Missing)
      else if ft !in s.tags then Some(Missing)
      else if dst.file !in s.files then Some(Missing)
      else if dst in s.tags then Some(Preexisting)
      else None
    case Commit(ft) =>
      if ft.file !in s.files then Some(Missing)
      else if ft !in s.tags then Some(Missing)
      else None
    case WriteBlock(ft, n, _) =>
      if ft.file !in s.files then Some(Missing)
      else if ft !in s.tags then Some(Missing)
      else if s.tags[ft].committed then Some(Forbidden)
      else if !(0 <= n < |s.tags[ft].blocks|) then Some(OutOfLimit)
      else None
    case ReadBlock(ft, n) =>
      if ft.file !in s.files then Some(Missing)
      else if ft !in s.tags then Some(Missing)
      else if !(0 <= n < |s.tags[ft].blocks|) then Some(OutOfLimit)
      else None
    case Delete(ft) =>
      if ft.file !in s.files then Some(Missing)
      else if ft !in s.tags then Some(Missing)
      else None
    case Unknown => Some(Forbidden)
  }

  function CreateFile(s: Store, ft: FileTag): (r: Store)
    requires StoreOk(s)
    ensures StoreOk(r)
  {
    s.(files := s.files + {ft.file}, tags := s.tags[ft := Meta(0, [], false)])
  }

  /** Brings BLOCKS to `count` entries: new positions share block 0, lost ones are unlinked from the last down. */
  function SetLength(cfg: Config, s: Store, ft: FileTag, count: nat, size: int): (r: Store)
    requires StoreOk(s) && ft in s.tags
    ensures StoreOk(r) && |r.disk.content| == |s.disk.content|
  {
    var m := s.tags[ft];
    if |m.blocks| < count then
      var blocks := m.blocks + seq(count - |m.blocks|, _ => 0);
      s.(disk := LinkFrom(s.disk, ft, blocks, |m.blocks|),
         tags := s.tags[ft := Meta(size, blocks, m.committed)])
    else
      s.(disk := DropAll(cfg, s.disk, ft, m.blocks, Descending(count, |m.blocks|)),
         tags := s.tags[ft := Meta(size, m.blocks[..count], m.committed)])
  }

  function TruncateFile(cfg: Config, s: Store, ft: FileTag, size: int): (r: Store)
    requires StoreOk(s) && ft in s.tags && cfg.blockSize > 0 && size + cfg.blockSize > 0
    ensures StoreOk(r) && |r.disk.content| == |s.disk.content|
  {
    SetLength(cfg, s, ft, TruncDiv(size, cfg.blockSize), size)
  }

  function TagFile(cfg: Config, s: Store, ft: FileTag, dst: FileTag): (r: Store)
    requires StoreOk(s) && ft in s.tags
    ensures StoreOk(r) && |r.disk.content| == |s.disk.content|
  {
    var blocks := s.tags[ft].blocks;
    s.(disk := LinkFrom(s.disk, dst, blocks, 0),
       tags := s.tags[dst := Meta(|blocks| * cfg.blockSize, blocks, false)])
  }

  function CommitFile(cfg: Config, s: Store, ft: FileTag): (r: Store)
    requires StoreOk(s) && ft in s.tags
    ensures StoreOk(r) && |r.disk.content| == |s.disk.content|
  {
    if s.tags[ft].committed then s
    else
      var (disk, blocks) := Dedup(cfg, s.disk, ft, s.tags[ft].blocks, 0);
      s.(disk := disk, tags := s.tags[ft := s.tags[ft].(blocks := blocks, committed := true)])
  }

  function WriteFile(cfg: Config, s: Store, ft: FileTag, n: nat, data: Block): (r: (Store, Code))
    requires StoreOk(s) && ft in s.tags && n < |s.tags[ft].blocks| && |data| >= cfg.blockSize
    ensures StoreOk(r.0) && |r.0.disk.content| == |s.disk.content|
  {
    var m := s.tags[ft];
    var b := m.blocks[n];
    var d := s.disk;
    if d.nlink[b] == 2 then
      (s.(disk := d.(content := d.content[b := data[..cfg.blockSize]])), Correct)
    else
      match FindFree(d.bitmap, 0)
      case None => (s, Insufficient)
      case Some(f) =>
        var written := d.(content := d.content[f := data[..cfg.blockSize]]);
        var moved := MoveLink(cfg, written, b, f, Slot(ft, n));
        (s.(disk := moved.(bitmap := moved.bitmap[f := true]),
            tags := s.tags[ft := m.(blocks := m.blocks[n := f])]), Correct)
  }

  function DeleteTag(cfg: Config, s: Store, ft: FileTag): (r: Store)
    requires StoreOk(s) && ft in s.tags
    ensures StoreOk(r) && |r.disk.content| == |s.disk.content|
  {
    var blocks := s.tags[ft].blocks;
    s.(disk := DropAll(cfg, s.disk, ft, blocks, Ascending(|blocks|)), tags := s.tags - {ft})
  }

  /** One storage request, taken atomically. */
  function Step(cfg: Config, s: Store, op: Op): (r: (Store, Reply))
    requires cfg.Valid() && StoreOk(s) && WellFormed(cfg, op)
    ensures StoreOk(r.0)
  {
    var blank := Zeros(cfg.blockSize);
    match Refusal(s, op)
    case Some(code) => (s, Reply(code, blank))
    case None =>
      match op
      case Create(ft) => (CreateFile(s, ft), Reply(Correct, blank))
      case Truncate(ft, size) => (TruncateFile(cfg, s, ft, size), Reply(Correct, blank))
      case MakeTag(ft, dst) => (TagFile(cfg, s, ft, dst), Reply(Correct, blank))
      case Commit(ft) => (CommitFile(cfg, s, ft), Reply(Correct, blank))
      case WriteBlock(ft, n, data) =>
        var (s', code) := WriteFile(cfg, s, ft, n, data);
        (s', Reply(code, blank))
      case ReadBlock(ft, n) => (s, Reply(Correct, s.disk.content[s.tags[ft].blocks[n]]))
      case Delete(ft) => (DeleteTag(cfg, s, ft), Reply(Correct, blank))
  }

  const INITIAL := FileTag("initial_file", "BASE")

  /** The freshly formatted file system: block 0 holds zeros and belongs to initial_file:BASE. */
  function Fresh(cfg: Config): (s: Store)
    requires cfg.Valid()
    ensures StoreOk(s)
  {
    var zero := Zeros(cfg.blockSize);
    Store(
      Disk(seq(cfg.blockCount, _ => zero),
           seq(cfg.blockCount, _ => 1)[0 := 2],
           map[Slot(INITIAL, 0) := 0],
           seq(cfg.blockCount, _ => false)[0 := true],
           map[cfg.hash(zero) := 0]),
      {INITIAL.file},
      map[INITIAL := Meta(cfg.blockSize, [0], true)])
  }
}
