/**
 Bookkeeping that holds over every run, guarded or not: the link count of a
 block is one more than the number of BLOCKS entries naming it, and the logical
 links are BLOCKS, position by position.
 */
module StoreLinks {
  import opened Common
  import opened BlockStore

  /** The logical links to block `b`. */
  function Holders(links: map<Slot, nat>, b: nat): set<Slot> {
    set p | p in links && links[p] == b
  }

  ghost predicate Counted(d: Disk) {
    && DiskOk(d)
    && forall b :: 0 <= b < |d.nlink| ==> d.nlink[b] == 1 + |Holders(d.links, b)|
  }

  /** The logical links are exactly the entries of BLOCKS. */
  ghost predicate Linked(links: map<Slot, nat>, tags: Tags) {
    && (forall p :: p in links <==> p.owner in tags && p.pos < |tags[p.owner].blocks|)
    && (forall p :: p in links ==> links[p] == tags[p.owner].blocks[p.pos])
  }

  /** `count` blocks are the whole blocks of a size: none of a negative one, which lies above minus one block. */
  predicate Fills(count: nat, size: int, blockSize: nat) {
    if size >= 0 then count * blockSize <= size < (count + 1) * blockSize
    else count == 0 && 0 < size + blockSize
  }

  /** BLOCKS is as long as the whole blocks of the size, for every tag. */
  ghost predicate Sized(cfg: Config, tags: Tags) {
    forall ft :: ft in tags ==> Fills(|tags[ft].blocks|, tags[ft].size, cfg.blockSize)
  }

  ghost predicate Rooted(s: Store) {
    forall ft :: ft in s.tags ==> ft.file in s.files
  }

  ghost predicate Bookkept(cfg: Config, s: Store) {
    && cfg.Valid()
    && StoreOk(s)
    && Counted(s.disk)
    && Linked(s.disk.links, s.tags)
    && Rooted(s)
  }

  // ------------------------------------------------------------ single links

  lemma AddLinkCounted(d: Disk, b: nat, p: Slot)
    requires Counted(d) && b < |d.content|
    ensures Counted(AddLink(d, b, p))
  {
    var r := AddLink(d, b, p);
    if p !in d.links {
      forall c | 0 <= c < |r.nlink|
        ensures r.nlink[c] == 1 + |Holders(r.links, c)|
      {
        if c == b {
          assert Holders(r.links, c) == Holders(d.links, c) + {p};
        } else {
          assert Holders(r.links, c) == Holders(d.links, c);
        }
      }
    }
  }

  lemma UnlinkCounted(d: Disk, p: Slot)
    requires Counted(d)
    ensures Counted(Unlink(d, p))
  {
    var r := Unlink(d, p);
    if p in d.links {
      forall c | 0 <= c < |r.nlink|
        ensures r.nlink[c] == 1 + |Holders(r.links, c)|
      {
        assert Holders(r.links, c) == Holders(d.links, c) - {p};
        assert p in Holders(d.links, c) <==> c == d.links[p];
      }
    }
  }

  lemma DropLinkCounted(cfg: Config, d: Disk, b: nat, p: Slot)
    requires Counted(d) && b < |d.content|
    ensures var r := DropLink(cfg, d, b, p);
            Counted(r) && r.content == d.content && r.links == d.links - {p}
  {
    UnlinkCounted(d, p);
    assert p !in d.links ==> d.links == d.links - {p};
  }

  lemma RelinkCounted(d: Disk, from: nat, to: nat, p: Slot)
    requires Counted(d) && from < |d.content| && to < |d.content| && p in d.links
    ensures var r := Relink(d, from, to, p);
            Counted(r) && r.content == d.content && r.index == d.index && r.links == d.links[p := to]
  {
    UnlinkCounted(d, p);
    AddLinkCounted(Unlink(d, p), to, p);
    assert (d.links - {p})[p := to] == d.links[p := to];
  }

  // ------------------------------------------------------------------- loops

  /** Positions `i..` of `ft` come to hold `blocks[i..]`; nothing else changes. */
  lemma {:induction false} LinkFromLinks(d: Disk, ft: FileTag, blocks: seq<nat>, i: nat)
    requires Counted(d) && InRange(d, blocks) && i <= |blocks|
    requires forall j: nat :: i <= j < |blocks| ==> Slot(ft, j) !in d.links
    ensures var r := LinkFrom(d, ft, blocks, i);
            && Counted(r)
            && r.content == d.content && r.index == d.index && r.bitmap == d.bitmap
            && (forall p :: p in r.links <==> p in d.links || (p.owner == ft && i <= p.pos < |blocks|))
            && (forall p :: p in d.links ==> r.links[p] == d.links[p])
            && (forall j: nat :: i <= j < |blocks| ==> r.links[Slot(ft, j)] == blocks[j])
    decreases |blocks| - i
  {
    if i < |blocks| {
      AddLinkCounted(d, blocks[i], Slot(ft, i));
      hide Counted;
      LinkFromLinks(AddLink(d, blocks[i], Slot(ft, i)), ft, blocks, i + 1);
    }
  }

  function SlotsAt(ft: FileTag, order: seq<nat>): set<Slot> {
    set k | 0 <= k < |order| :: Slot(ft, order[k])
  }

  /** Exactly the listed positions lose their links. */
  lemma {:induction false} DropAllLinks(cfg: Config, d: Disk, ft: FileTag, blocks: seq<nat>, order: seq<nat>)
    requires Counted(d) && InRange(d, blocks)
    requires forall k :: 0 <= k < |order| ==> order[k] < |blocks|
    ensures var r := DropAll(cfg, d, ft, blocks, order);
            && Counted(r)
            && r.content == d.content
            && r.links == d.links - SlotsAt(ft, order)
    decreases |order|
  {
    if order == [] {
      assert d.links - SlotsAt(ft, order) == d.links;
    } else {
      var p := Slot(ft, order[0]);
      DropLinkCounted(cfg, d, blocks[order[0]], p);
      var d' := DropLink(cfg, d, blocks[order[0]], p);
      DropAllLinks(cfg, d', ft, blocks, order[1..]);
      SlotsFirst(ft, order);
      hide SlotsAt, DropLink, Counted;
      LessTwice(d.links, p, SlotsAt(ft, order[1..]));
    }
  }

  lemma LessTwice(links: map<Slot, nat>, p: Slot, more: set<Slot>)
    ensures (links - {p}) - more == links - ({p} + more)
  {
  }

  lemma SlotsFirst(ft: FileTag, order: seq<nat>)
    requires order != []
    ensures SlotsAt(ft, order) == {Slot(ft, order[0])} + SlotsAt(ft, order[1..])
  {
    var p := Slot(ft, order[0]);
    forall q | q in SlotsAt(ft, order) ensures q in {p} + SlotsAt(ft, order[1..]) {
      var k :| 0 <= k < |order| && q == Slot(ft, order[k]);
      if k > 0 { assert order[1..][k - 1] == order[k]; }
    }
    forall q | q in SlotsAt(ft, order[1..]) ensures q in SlotsAt(ft, order) {
      var k :| 0 <= k < |order[1..]| && q == Slot(ft, order[1..][k]);
      assert order[k + 1] == order[1..][k];
    }
  }

  /** The links of `ft` are the list `blocks`. */
  ghost predicate Owns(links: map<Slot, nat>, ft: FileTag, blocks: seq<nat>) {
    forall j: nat ::
      && (Slot(ft, j) in links <==> j < |blocks|)
      && (j < |blocks| ==> links[Slot(ft, j)] == blocks[j])
  }

  lemma DedupStepLinks(cfg: Config, d: Disk, ft: FileTag, blocks: seq<nat>, i: nat)
    requires Counted(d) && InRange(d, blocks) && i < |blocks| && Owns(d.links, ft, blocks)
    ensures var (r, blocks') := DedupStep(cfg, d, ft, blocks, i);
            && Counted(r)
            && r.content == d.content
            && blocks' == blocks[i := blocks'[i]]
            && r.links == d.links[Slot(ft, i) := blocks'[i]]
            && Owns(r.links, ft, blocks')
  {
    var b := blocks[i];
    var h := cfg.hash(d.content[b]);
    if h in d.index && d.index[h] != b {
      RelinkCounted(d, b, d.index[h], Slot(ft, i));
    }
  }

  /** The commit loop moves links of `ft` only and keeps them equal to the list it builds. */
  lemma {:induction false} DedupLinks(cfg: Config, d: Disk, ft: FileTag, blocks: seq<nat>, i: nat)
    requires Counted(d) && InRange(d, blocks) && i <= |blocks| && Owns(d.links, ft, blocks)
    ensures var (r, blocks') := Dedup(cfg, d, ft, blocks, i);
            && Counted(r)
            && r.content == d.content
            && |blocks'| == |blocks|
            && (forall j :: 0 <= j < i ==> blocks'[j] == blocks[j])
            && r.links.Keys == d.links.Keys
            && Owns(r.links, ft, blocks')
            && (forall p :: p in d.links && p.owner != ft ==> r.links[p] == d.links[p])
    decreases |blocks| - i
  {
    if i < |blocks| {
      DedupStepLinks(cfg, d, ft, blocks, i);
      var (d', blocks') := DedupStep(cfg, d, ft, blocks, i);
      DedupLinks(cfg, d', ft, blocks', i + 1);
    }
  }

  // -------------------------------------------------------------- operations

  lemma GrowLinked(cfg: Config, s: Store, ft: FileTag, blocks: seq<nat>, meta: Meta)
    requires Bookkept(cfg, s) && InRange(s.disk, blocks) && meta.blocks == blocks
    requires var before := if ft in s.tags then s.tags[ft].blocks else []; before <= blocks
    ensures var k := if ft in s.tags then |s.tags[ft].blocks| else 0;
            var r := LinkFrom(s.disk, ft, blocks, k);
            Counted(r) && Linked(r.links, s.tags[ft := meta])
  {
    var k := if ft in s.tags then |s.tags[ft].blocks| else 0;
    LinkFromLinks(s.disk, ft, blocks, k);
    hide LinkFrom, Counted;
    LinkedOn(s.disk.links, LinkFrom(s.disk, ft, blocks, k).links, s.tags, ft, meta, k);
  }

  /** A list that grows from `k` entries on, and its links with it. */
  lemma LinkedOn(links: map<Slot, nat>, links': map<Slot, nat>, tags: Tags, ft: FileTag, meta: Meta, k: nat)
    requires Linked(links, tags) && k == (if ft in tags then |tags[ft].blocks| else 0)
    requires (if ft in tags then tags[ft].blocks else []) <= meta.blocks
    requires forall p :: p in links' <==> p in links || (p.owner == ft && k <= p.pos < |meta.blocks|)
    requires forall p :: p in links ==> links'[p] == links[p]
    requires forall j: nat :: k <= j < |meta.blocks| ==> links'[Slot(ft, j)] == meta.blocks[j]
    ensures Linked(links', tags[ft := meta])
  {
    forall p | p in links' ensures links'[p] == tags[ft := meta][p.owner].blocks[p.pos] {
      assert p == Slot(p.owner, p.pos);
    }
  }

  lemma ShrinkLinked(cfg: Config, s: Store, ft: FileTag, count: nat, meta: Meta)
    requires Bookkept(cfg, s) && ft in s.tags && count <= |s.tags[ft].blocks|
    requires meta.blocks == s.tags[ft].blocks[..count]
    ensures var blocks := s.tags[ft].blocks;
            var r := DropAll(cfg, s.disk, ft, blocks, Descending(count, |blocks|));
            Counted(r) && Linked(r.links, s.tags[ft := meta])
  {
    var blocks := s.tags[ft].blocks;
    DropAllLinks(cfg, s.disk, ft, blocks, Descending(count, |blocks|));
    SlotsOfDescending(ft, count, |blocks|);
  }

  lemma SlotsOfDescending(ft: FileTag, lo: nat, hi: nat)
    requires lo <= hi
    ensures forall p :: p in SlotsAt(ft, Descending(lo, hi)) <==> p.owner == ft && lo <= p.pos < hi
  {
    forall p: Slot | p.owner == ft && lo <= p.pos < hi ensures p in SlotsAt(ft, Descending(lo, hi)) {
      assert Descending(lo, hi)[hi - 1 - p.pos] == p.pos;
    }
  }

  lemma TruncateBookkept(cfg: Config, s: Store, ft: FileTag, size: int)
    requires Bookkept(cfg, s) && ft in s.tags && size + cfg.blockSize > 0
    ensures Bookkept(cfg, TruncateFile(cfg, s, ft, size))
  {
    SetLengthLinked(cfg, s, ft, TruncDiv(size, cfg.blockSize), size);
  }

  lemma SetLengthLinked(cfg: Config, s: Store, ft: FileTag, count: nat, size: int)
    requires Bookkept(cfg, s) && ft in s.tags
    ensures var r := SetLength(cfg, s, ft, count, size);
            && Counted(r.disk) && Linked(r.disk.links, r.tags) && Rooted(r)
            && r.tags == s.tags[ft := r.tags[ft]]
            && |r.tags[ft].blocks| == count && r.tags[ft].size == size
  {
    var m := s.tags[ft];
    if |m.blocks| < count {
      var blocks := m.blocks + seq(count - |m.blocks|, _ => 0);
      GrowLinked(cfg, s, ft, blocks, Meta(size, blocks, m.committed));
    } else {
      ShrinkLinked(cfg, s, ft, count, Meta(size, m.blocks[..count], m.committed));
    }
  }

  lemma TagBookkept(cfg: Config, s: Store, ft: FileTag, dst: FileTag)
    requires Bookkept(cfg, s) && ft in s.tags && dst !in s.tags && dst.file in s.files
    ensures Bookkept(cfg, TagFile(cfg, s, ft, dst))
  {
    var blocks := s.tags[ft].blocks;
    GrowLinked(cfg, s, dst, blocks, Meta(|blocks| * cfg.blockSize, blocks, false));
  }

  lemma CommitBookkept(cfg: Config, s: Store, ft: FileTag)
    requires Bookkept(cfg, s) && ft in s.tags
    ensures Bookkept(cfg, CommitFile(cfg, s, ft))
  {
    if !s.tags[ft].committed {
      DedupLinks(cfg, s.disk, ft, s.tags[ft].blocks, 0);
      var s' := CommitFile(cfg, s, ft);
      forall p ensures p in s'.disk.links <==> p.owner in s'.tags && p.pos < |s'.tags[p.owner].blocks| {
        assert p in s'.disk.links <==> p in s'.disk.links.Keys;
      }
      forall p | p in s'.disk.links ensures s'.disk.links[p] == s'.tags[p.owner].blocks[p.pos] {
        assert p in s.disk.links.Keys;
        assert p == Slot(p.owner, p.pos);
      }
    }
  }

  lemma MoveLinkCounted(cfg: Config, d: Disk, b: nat, f: nat, p: Slot)
    requires Counted(d) && b < |d.content| && f < |d.content|
    ensures var r := MoveLink(cfg, d, b, f, p);
            Counted(r) && r.content == d.content && r.links == d.links[p := f]
  {
    DropLinkCounted(cfg, d, b, p);
    AddLinkCounted(DropLink(cfg, d, b, p), f, p);
    assert (d.links - {p})[p := f] == d.links[p := f];
  }

  lemma WriteBookkept(cfg: Config, s: Store, ft: FileTag, n: nat, data: Block)
    requires Bookkept(cfg, s) && ft in s.tags && n < |s.tags[ft].blocks| && |data| >= cfg.blockSize
    ensures Bookkept(cfg, WriteFile(cfg, s, ft, n, data).0)
  {
    var d := s.disk;
    var b := s.tags[ft].blocks[n];
    var free := FindFree(d.bitmap, 0);
    if d.nlink[b] != 2 && free.Some? {
      var written := d.(content := d.content[free.value := data[..cfg.blockSize]]);
      MoveLinkCounted(cfg, written, b, free.value, Slot(ft, n));
      MovedLinked(d.links, s.tags, ft, n, free.value);
    }
  }

  lemma MovedLinked(links: map<Slot, nat>, tags: Tags, ft: FileTag, n: nat, f: nat)
    requires Linked(links, tags) && ft in tags && n < |tags[ft].blocks|
    ensures var m := tags[ft];
            Linked(links[Slot(ft, n) := f], tags[ft := m.(blocks := m.blocks[n := f])])
  {
  }

  lemma DeleteBookkept(cfg: Config, s: Store, ft: FileTag)
    requires Bookkept(cfg, s) && ft in s.tags
    ensures Bookkept(cfg, DeleteTag(cfg, s, ft))
  {
    var blocks := s.tags[ft].blocks;
    DropAllLinks(cfg, s.disk, ft, blocks, Ascending(|blocks|));
    SlotsOfAscending(ft, |blocks|);
  }

  lemma SlotsOfAscending(ft: FileTag, n: nat)
    ensures forall p :: p in SlotsAt(ft, Ascending(n)) <==> p.owner == ft && p.pos < n
  {
    forall p: Slot | p.owner == ft && p.pos < n ensures p in SlotsAt(ft, Ascending(n)) {
      assert Ascending(n)[p.pos] == p.pos;
    }
  }

  lemma StepBookkept(cfg: Config, s: Store, op: Op)
    requires Bookkept(cfg, s) && WellFormed(cfg, op)
    ensures Bookkept(cfg, Step(cfg, s, op).0)
  {
    if Refusal(s, op).None? {
      match op
      case Create(_) =>
      case Truncate(ft, size) => TruncateBookkept(cfg, s, ft, size);
      case MakeTag(ft, dst) => TagBookkept(cfg, s, ft, dst);
      case Commit(ft) => CommitBookkept(cfg, s, ft);
      case WriteBlock(ft, n, data) => WriteBookkept(cfg, s, ft, n, data);
      case ReadBlock(_, _) =>
      case Delete(ft) => DeleteBookkept(cfg, s, ft);
    }
  }

  lemma WholeBlocks(count: nat, size: nat)
    requires size > 0
    ensures Fills(count, count * size, size)
  {
    assert count * size >= 0 && (count + 1) * size == count * size + size;
  }

  /** The truncated quotient counts the whole blocks. */
  lemma QuotientFills(size: int, blockSize: nat)
    requires blockSize > 0 && size + blockSize > 0
    ensures TruncDiv(size, blockSize) >= 0 && Fills(TruncDiv(size, blockSize), size, blockSize)
  {
    if size >= 0 {
      hide Fills;
      Quotient(size, blockSize);
      FillsIf(size / blockSize, size, blockSize);
    } else {
      NoWhole(-size, blockSize);
    }
  }

  lemma FillsIf(q: nat, size: nat, blockSize: nat)
    requires q * blockSize <= size < (q + 1) * blockSize
    ensures Fills(q, size, blockSize)
  {
  }

  lemma Quotient(a: nat, b: nat)
    requires b > 0
    ensures a / b >= 0 && (a / b) * b <= a < (a / b + 1) * b
  {
    var q := a / b;
    NotNegative(a, b);
    assert q * b <= a < q * b + b;
    assert (q + 1) * b == q * b + b;
  }

  lemma NotNegative(a: nat, b: nat)
    requires b > 0
    ensures a / b >= 0
  {
  }

  lemma NoWhole(a: nat, b: nat)
    requires a < b
    ensures a / b == 0
  {
  }

  /** TRUNCATE leaves as many blocks as fit whole in the size: none when it is negative. */
  lemma TruncateLength(cfg: Config, s: Store, ft: FileTag, size: int)
    requires StoreOk(s) && ft in s.tags && cfg.blockSize > 0 && size + cfg.blockSize > 0
    ensures var n := |TruncateFile(cfg, s, ft, size).tags[ft].blocks|;
            if size >= 0 then n * cfg.blockSize <= size < (n + 1) * cfg.blockSize else n == 0
  {
    QuotientFills(size, cfg.blockSize);
    SetLengthLength(cfg, s, ft, TruncDiv(size, cfg.blockSize), size);
    hide TruncDiv, SetLength;
  }

  lemma SetLengthLength(cfg: Config, s: Store, ft: FileTag, count: nat, size: int)
    requires StoreOk(s) && ft in s.tags
    ensures var r := SetLength(cfg, s, ft, count, size);
            ft in r.tags && |r.tags[ft].blocks| == count && r.tags[ft].size == size && r.tags == s.tags[ft := r.tags[ft]]
  {
    hide LinkFrom, DropAll;
  }

  /** Every operation that changes a size or a block list keeps them in step. */
  lemma StepSized(cfg: Config, s: Store, op: Op)
    requires Bookkept(cfg, s) && WellFormed(cfg, op) && Sized(cfg, s.tags)
    ensures Sized(cfg, Step(cfg, s, op).0.tags)
  {
    assert cfg.Valid() && StoreOk(s);
    hide Sized, Bookkept, TruncateFile, TagFile, CommitFile, CreateFile, WriteFile, DeleteTag;
    if Refusal(s, op).None? {
      match op
      case Create(ft) => CreateSized(cfg, s, ft);
      case Truncate(ft, size) => TruncateSized(cfg, s, ft, size);
      case MakeTag(ft, dst) => TagSized(cfg, s, ft, dst);
      case Commit(ft) => CommitSized(cfg, s, ft);
      case WriteBlock(ft, n, data) => WriteSized(cfg, s, ft, n, data);
      case ReadBlock(_, _) =>
      case Delete(ft) => DeleteSized(cfg, s, ft);
    }
  }

  /** One tag takes new metadata of the right length. */
  lemma ResizedTag(cfg: Config, tags: Tags, ft: FileTag, meta: Meta)
    requires Sized(cfg, tags) && Fills(|meta.blocks|, meta.size, cfg.blockSize)
    ensures Sized(cfg, tags[ft := meta])
  {
    hide Fills;
  }

  lemma CreateSized(cfg: Config, s: Store, ft: FileTag)
    requires cfg.Valid() && StoreOk(s) && Sized(cfg, s.tags)
    ensures Sized(cfg, CreateFile(s, ft).tags)
  {
    WholeBlocks(0, cfg.blockSize);
    hide Sized, Fills;
    ResizedTag(cfg, s.tags, ft, Meta(0, [], false));
  }

  lemma TruncateSized(cfg: Config, s: Store, ft: FileTag, size: int)
    requires Bookkept(cfg, s) && ft in s.tags && size + cfg.blockSize > 0 && Sized(cfg, s.tags)
    ensures Sized(cfg, TruncateFile(cfg, s, ft, size).tags)
  {
    QuotientFills(size, cfg.blockSize);
    hide TruncDiv, Fills, Sized, SetLength;
    SetLengthLength(cfg, s, ft, TruncDiv(size, cfg.blockSize), size);
    ResizedTag(cfg, s.tags, ft, TruncateFile(cfg, s, ft, size).tags[ft]);
  }

  lemma TagSized(cfg: Config, s: Store, ft: FileTag, dst: FileTag)
    requires cfg.Valid() && StoreOk(s) && ft in s.tags && Sized(cfg, s.tags)
    ensures Sized(cfg, TagFile(cfg, s, ft, dst).tags)
  {
    WholeBlocks(|s.tags[ft].blocks|, cfg.blockSize);
    hide Sized, Fills, LinkFrom;
    ResizedTag(cfg, s.tags, dst, TagFile(cfg, s, ft, dst).tags[dst]);
  }

  lemma CommitSized(cfg: Config, s: Store, ft: FileTag)
    requires Bookkept(cfg, s) && ft in s.tags && Sized(cfg, s.tags)
    ensures Sized(cfg, CommitFile(cfg, s, ft).tags)
  {
    CommitLength(cfg, s, ft);
    assert Fills(|s.tags[ft].blocks|, s.tags[ft].size, cfg.blockSize);
    hide Sized, Fills, CommitFile, Bookkept;
    ResizedTag(cfg, s.tags, ft, CommitFile(cfg, s, ft).tags[ft]);
  }

  lemma WriteSized(cfg: Config, s: Store, ft: FileTag, n: nat, data: Block)
    requires cfg.Valid() && StoreOk(s) && ft in s.tags && n < |s.tags[ft].blocks| && |data| >= cfg.blockSize && Sized(cfg, s.tags)
    ensures Sized(cfg, WriteFile(cfg, s, ft, n, data).0.tags)
  {
    assert Fills(|s.tags[ft].blocks|, s.tags[ft].size, cfg.blockSize);
    var r := WriteFile(cfg, s, ft, n, data).0;
    assert r.tags == s.tags || (r.tags == s.tags[ft := r.tags[ft]] && |r.tags[ft].blocks| == |s.tags[ft].blocks| && r.tags[ft].size == s.tags[ft].size);
    hide Sized, Fills, WriteFile;
    if r.tags != s.tags { ResizedTag(cfg, s.tags, ft, r.tags[ft]); }
  }

  lemma DeleteSized(cfg: Config, s: Store, ft: FileTag)
    requires cfg.Valid() && StoreOk(s) && ft in s.tags && Sized(cfg, s.tags)
    ensures Sized(cfg, DeleteTag(cfg, s, ft).tags)
  {
    hide Fills, DropAll;
  }

  lemma CommitLength(cfg: Config, s: Store, ft: FileTag)
    requires Bookkept(cfg, s) && ft in s.tags
    ensures var s' := CommitFile(cfg, s, ft);
            && s'.tags == s.tags[ft := s'.tags[ft]]
            && |s'.tags[ft].blocks| == |s.tags[ft].blocks|
            && s'.tags[ft].size == s.tags[ft].size
  {
    if !s.tags[ft].committed {
      assert Owns(s.disk.links, ft, s.tags[ft].blocks);
      DedupLinks(cfg, s.disk, ft, s.tags[ft].blocks, 0);
    }
  }

  lemma FreshBookkept(cfg: Config)
    requires cfg.Valid()
    ensures Bookkept(cfg, Fresh(cfg)) && Sized(cfg, Fresh(cfg).tags)
  {
    var s := Fresh(cfg);
    WholeBlocks(1, cfg.blockSize);
    forall b | 0 <= b < |s.disk.nlink| ensures s.disk.nlink[b] == 1 + |Holders(s.disk.links, b)| {
      assert Holders(s.disk.links, b) == if b == 0 then {Slot(INITIAL, 0)} else {};
    }
  }

  // -------------------------------------------------------------------- runs

  predicate AllWellFormed(cfg: Config, ops: seq<Op>) {
    forall i :: 0 <= i < |ops| ==> WellFormed(cfg, ops[i])
  }

  /** The state after a sequence of requests. */
  function Run(cfg: Config, s: Store, ops: seq<Op>): (r: Store)
    requires cfg.Valid() && StoreOk(s) && AllWellFormed(cfg, ops)
    ensures StoreOk(r)
    decreases |ops|
  {
    if ops == [] then s
    else Run(cfg, Step(cfg, s, ops[0]).0, ops[1..])
  }

  /** The (file, tag, position) entries of BLOCKS that name block `b`. */
  ghost function References(tags: Tags, b: nat): set<Slot> {
    set ft, i | ft in tags && 0 <= i < |tags[ft].blocks| && tags[ft].blocks[i] == b :: Slot(ft, i)
  }

  lemma {:induction false} RunBookkept(cfg: Config, s: Store, ops: seq<Op>)
    requires Bookkept(cfg, s) && Sized(cfg, s.tags) && AllWellFormed(cfg, ops)
    ensures Bookkept(cfg, Run(cfg, s, ops)) && Sized(cfg, Run(cfg, s, ops).tags)
    decreases |ops|
  {
    if ops != [] {
      StepBookkept(cfg, s, ops[0]);
      StepSized(cfg, s, ops[0]);
      RunBookkept(cfg, Step(cfg, s, ops[0]).0, ops[1..]);
    }
  }

  /** Over every run from a fresh file system: st_nlink counts the entries of BLOCKS, and the links are those entries. */
  lemma LinkCountsOverRuns(cfg: Config, ops: seq<Op>)
    requires cfg.Valid() && AllWellFormed(cfg, ops)
    ensures var s := Run(cfg, Fresh(cfg), ops);
            && (forall b :: 0 <= b < |s.disk.nlink| ==> s.disk.nlink[b] == 1 + |References(s.tags, b)|)
            && Linked(s.disk.links, s.tags)
            && Sized(cfg, s.tags)
  {
    FreshBookkept(cfg);
    RunBookkept(cfg, Fresh(cfg), ops);
    var s := Run(cfg, Fresh(cfg), ops);
    forall b: nat ensures References(s.tags, b) == Holders(s.disk.links, b) {
      HoldersAreReferences(s.disk.links, s.tags, b);
    }
  }

  lemma HoldersAreReferences(links: map<Slot, nat>, tags: Tags, b: nat)
    requires Linked(links, tags)
    ensures References(tags, b) == Holders(links, b)
  {
    forall p | p in Holders(links, b) ensures p in References(tags, b) {
      assert p == Slot(p.owner, p.pos);
    }
  }
}
