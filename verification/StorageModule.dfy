/** The storage module as it runs: state updated in place, operations as loops, each equal to its function on values. */
module StorageModule {
  import opened Common
  import opened BlockStore
  import opened StoreLinks

  lemma DropLast(cfg: Config, d: Disk, ft: FileTag, blocks: seq<nat>, lo: nat, hi: nat)
    requires DiskOk(d) && InRange(d, blocks) && lo < hi <= |blocks|
    ensures var r := DropLink(cfg, d, blocks[hi - 1], Slot(ft, hi - 1));
            DiskOk(r) && r.content == d.content && InRange(r, blocks)
            && DropAll(cfg, d, ft, blocks, Descending(lo, hi)) == DropAll(cfg, r, ft, blocks, Descending(lo, hi - 1))
  {
    assert Descending(lo, hi)[0] == hi - 1;
    assert Descending(lo, hi)[1..] == Descending(lo, hi - 1);
  }

  lemma DropEnd(cfg: Config, d: Disk, ft: FileTag, blocks: seq<nat>, lo: nat)
    requires DiskOk(d) && InRange(d, blocks)
    ensures Descending(lo, lo) == [] && DropAll(cfg, d, ft, blocks, []) == d
  {
  }

  lemma LinkNext(d: Disk, ft: FileTag, blocks: seq<nat>, i: nat)
    requires DiskOk(d) && InRange(d, blocks) && i < |blocks|
    ensures var r := AddLink(d, blocks[i], Slot(ft, i));
            DiskOk(r) && r.content == d.content && InRange(r, blocks)
            && LinkFrom(d, ft, blocks, i) == LinkFrom(r, ft, blocks, i + 1)
  {
  }

  /** A list brought to `count` entries with zeros. */
  function Padded(s: seq<nat>, count: nat): (r: seq<nat>)
    requires |s| < count
    ensures |r| == count && r[..|s|] == s && forall k :: |s| <= k < count ==> r[k] == 0
  {
    s + seq(count - |s|, _ => 0)
  }

  /** What the first block turns a blank disk into. */
  lemma Formatted(cfg: Config, content: seq<Block>, nlink: seq<int>, bitmap: seq<bool>)
    requires cfg.Valid() && content == seq(cfg.blockCount, _ => Zeros(cfg.blockSize)) && nlink == seq(cfg.blockCount, _ => 1)
    requires |bitmap| == cfg.blockCount && forall j :: 0 <= j < |bitmap| ==> !bitmap[j]
    ensures Fresh(cfg) == Store(Disk(content, nlink[0 := nlink[0] + 1], map[Slot(INITIAL, 0) := 0], bitmap[0 := true],
                                     map[cfg.hash(content[0]) := 0]),
                                {INITIAL.file}, map[INITIAL := Meta(cfg.blockSize, [0], true)])
  {
    assert bitmap == seq(cfg.blockCount, _ => false);
  }

  /** The linking loop at position `i`: what is left to do leads to the same disk. */
  ghost predicate Linking(d: Disk, ft: FileTag, whole: seq<nat>, i: nat, was: Disk, start: nat) {
    && DiskOk(d) && InRange(d, whole) && |d.content| == |was.content| && i <= |whole| && DiskOk(was) && InRange(was, whole)
    && start <= |whole| && LinkFrom(d, ft, whole, i) == LinkFrom(was, ft, whole, start)
    && forall k :: start <= k < |whole| ==> whole[k] == 0
  }

  lemma LinkingStarts(d: Disk, ft: FileTag, whole: seq<nat>, start: nat)
    requires DiskOk(d) && InRange(d, whole) && start <= |whole| && forall k :: start <= k < |whole| ==> whole[k] == 0
    ensures Linking(d, ft, whole, start, d, start)
  {
  }

  lemma LinkingNext(d: Disk, ft: FileTag, whole: seq<nat>, i: nat, was: Disk, start: nat)
    requires Linking(d, ft, whole, i, was, start) && start <= i < |whole|
    ensures DiskOk(d) && whole[i] == 0 < |d.content| && Linking(AddLink(d, 0, Slot(ft, i)), ft, whole, i + 1, was, start)
  {
    LinkNext(d, ft, whole, i);
    hide LinkFrom, AddLink, DiskOk;
  }

  lemma LinkingEnds(d: Disk, ft: FileTag, whole: seq<nat>, was: Disk, start: nat)
    requires Linking(d, ft, whole, |whole|, was, start)
    ensures DiskOk(was) && InRange(was, whole) && start <= |whole| && d == LinkFrom(was, ft, whole, start)
  {
    LinkEnd(d, ft, whole);
  }

  /** The commit loop at position `i`: what is left to do leads to the same disk and list. */
  ghost predicate Deduping(cfg: Config, d: Disk, ft: FileTag, blocks: seq<nat>, i: nat, was: Disk, list: seq<nat>) {
    && DiskOk(d) && InRange(d, blocks) && i <= |blocks| && |d.content| == |was.content| && DiskOk(was) && InRange(was, list)
    && Dedup(cfg, d, ft, blocks, i) == Dedup(cfg, was, ft, list, 0)
  }

  lemma DedupingNext(cfg: Config, d: Disk, ft: FileTag, blocks: seq<nat>, i: nat, was: Disk, list: seq<nat>)
    requires Deduping(cfg, d, ft, blocks, i, was, list) && i < |blocks|
    ensures DiskOk(d) && InRange(d, blocks)
    ensures var (d', blocks') := DedupStep(cfg, d, ft, blocks, i);
            |blocks'| == |blocks| && Deduping(cfg, d', ft, blocks', i + 1, was, list)
  {
    hide DedupStep;
  }

  lemma DedupingEnds(cfg: Config, d: Disk, ft: FileTag, blocks: seq<nat>, i: nat, was: Disk, list: seq<nat>)
    requires Deduping(cfg, d, ft, blocks, i, was, list) && i == |blocks|
    ensures DiskOk(was) && InRange(was, list) && (d, blocks) == Dedup(cfg, was, ft, list, 0) && DiskOk(d)
  {
  }

  lemma DedupingStarts(cfg: Config, s: Store, ft: FileTag)
    requires StoreOk(s) && ft in s.tags
    ensures Deduping(cfg, s.disk, ft, s.tags[ft].blocks, 0, s.disk, s.tags[ft].blocks)
  {
  }

  /** COMMIT has marked the tag first; the list follows. */
  lemma CommitEnds(cfg: Config, s: Store, ft: FileTag, d: Disk, blocks: seq<nat>)
    requires StoreOk(s) && ft in s.tags && !s.tags[ft].committed
    requires Deduping(cfg, d, ft, blocks, |blocks|, s.disk, s.tags[ft].blocks)
    ensures var marked := s.tags[ft := s.tags[ft].(committed := true)];
            var r := Store(d, s.files, marked[ft := marked[ft].(blocks := blocks)]);
            StoreOk(r) && r == CommitFile(cfg, s, ft)
  {
    DedupingEnds(cfg, d, ft, blocks, |blocks|, s.disk, s.tags[ft].blocks);
    hide Deduping, Dedup;
    var marked := s.tags[ft := s.tags[ft].(committed := true)];
    assert marked[ft := marked[ft].(blocks := blocks)] == s.tags[ft := s.tags[ft].(blocks := blocks, committed := true)];
    assert StoreOk(CommitFile(cfg, s, ft));
  }

  lemma PrefixNext(s: seq<nat>, i: nat)
    requires i < |s|
    ensures s[..i + 1] == s[..i] + [s[i]]
  {
  }

  lemma InRangeAt(d: Disk, blocks: seq<nat>, i: nat)
    requires InRange(d, blocks) && i < |blocks|
    ensures blocks[i] < |d.content|
  {
  }

  lemma LinkEnd(d: Disk, ft: FileTag, blocks: seq<nat>)
    requires DiskOk(d) && InRange(d, blocks)
    ensures LinkFrom(d, ft, blocks, |blocks|) == d
  {
  }

  lemma AscendingSuffix(n: nat, i: nat)
    requires i < n
    ensures Ascending(n)[i..][0] == i
    ensures Ascending(n)[i..][1..] == Ascending(n)[i + 1..]
  {
  }

  class Storage {
    const cfg: Config
    var content: seq<Block>
    var nlink: seq<int>
    var links: map<Slot, nat>
    var bitmap: array<bool>
    var index: map<Hash, nat>
    var files: set<string>
    var tags: Tags

    ghost function DiskView(): Disk
      reads this, bitmap
    {
      Disk(content, nlink, links, bitmap[..], index)
    }

    ghost function View(): Store
      reads this, bitmap
    {
      Store(DiskView(), files, tags)
    }

    ghost predicate Valid()
      reads this, bitmap
    {
      cfg.Valid() && StoreOk(View())
    }

    /** Formats the file system. */
    constructor (cfg: Config)
      requires cfg.Valid()
      ensures Valid() && this.cfg == cfg && fresh(bitmap)
      ensures View() == Fresh(cfg)
    {
      this.cfg := cfg;
      content := [];
      nlink := [];
      links := map[];
      index := map[];
      files := {INITIAL.file};
      tags := map[INITIAL := Meta(cfg.blockSize, [0], true)];
      bitmap := new bool[cfg.blockCount](_ => false);
      new;
      var i := 0;
      while i < cfg.blockCount
        invariant i <= cfg.blockCount
        invariant content == seq(i, _ => Zeros(cfg.blockSize)) && nlink == seq(i, _ => 1)
        invariant links == map[] && index == map[] && this.cfg == cfg
        invariant files == {INITIAL.file} && tags == map[INITIAL := Meta(cfg.blockSize, [0], true)]
        invariant fresh(bitmap) && bitmap.Length == cfg.blockCount && forall j :: 0 <= j < bitmap.Length ==> !bitmap[j]
      {
        content := content + [Zeros(cfg.blockSize)];
        nlink := nlink + [1];
        i := i + 1;
      }
      Formatted(cfg, content, nlink, bitmap[..]);
      hide Fresh, StoreOk;
      links := links[Slot(INITIAL, 0) := 0];
      nlink := nlink[0 := nlink[0] + 1];
      bitmap[0] := true;
      index := index[cfg.hash(content[0]) := 0];
      assert View() == Fresh(cfg);
    }

    method FindFreeBlock() returns (r: Option<nat>)
      ensures r == FindFree(bitmap[..], 0)
    {
      var i := 0;
      while i < bitmap.Length
        invariant i <= bitmap.Length
        invariant FindFree(bitmap[..], i) == FindFree(bitmap[..], 0)
      {
        if !bitmap[i] { return Some(i); }
        i := i + 1;
      }
      return None;
    }

    method AddHardLink(b: nat, p: Slot)
      requires DiskOk(DiskView()) && b < |content|
      modifies `links, `nlink
      ensures DiskView() == AddLink(old(DiskView()), b, p)
    {
      if p !in links {
        links := links[p := b];
        nlink := nlink[b := nlink[b] + 1];
      }
    }

    method RemoveName(p: Slot)
      requires DiskOk(DiskView())
      modifies `links, `nlink
      ensures DiskView() == Unlink(old(DiskView()), p)
    {
      if p in links {
        var b := links[p];
        links := links - {p};
        nlink := nlink[b := nlink[b] - 1];
      }
    }

    method DropHardLink(b: nat, p: Slot)
      requires DiskOk(DiskView()) && b < |content|
      modifies `links, `nlink, `index, bitmap
      ensures DiskView() == DropLink(cfg, old(DiskView()), b, p)
    {
      RemoveName(p);
      if nlink[b] == 1 {
        bitmap[b] := false;
        index := index - {cfg.hash(content[b])};
      }
    }

    method MoveHardLink(b: nat, f: nat, p: Slot)
      requires DiskOk(DiskView()) && b < |content| && f < |content|
      modifies `links, `nlink, `index, bitmap
      ensures DiskView() == MoveLink(cfg, old(DiskView()), b, f, p)
    {
      hide DropLink, AddLink;
      DropHardLink(b, p);
      AddHardLink(f, p);
    }

    method Redirect(from: nat, to: nat, p: Slot)
      requires DiskOk(DiskView()) && from < |content| && to < |content|
      modifies `links, `nlink, bitmap
      ensures DiskView() == Relink(old(DiskView()), from, to, p)
    {
      RemoveName(p);
      AddHardLink(to, p);
      if nlink[from] == 1 {
        bitmap[from] := false;
      }
    }

    method Create(ft: FileTag)
      requires Valid()
      modifies `files, `tags
      ensures Valid() && View() == CreateFile(old(View()), ft)
    {
      files := files + {ft.file};
      tags := tags[ft := Meta(0, [], false)];
    }

    method Truncate(ft: FileTag, size: int)
      requires Valid() && ft in tags && size + cfg.blockSize > 0
      modifies `links, `nlink, `index, `tags, bitmap
      ensures Valid() && View() == TruncateFile(cfg, old(View()), ft, size)
      ensures ft in tags && Fills(|tags[ft].blocks|, size, cfg.blockSize)
    {
      QuotientFills(size, cfg.blockSize);
      SetLengthLength(cfg, View(), ft, TruncDiv(size, cfg.blockSize), size);
      hide SetLength, Fills, TruncDiv;
      var blocks := tags[ft].blocks;
      var current := |blocks|;
      var count := TruncDiv(size, cfg.blockSize);
      if current < count {
        Grow(ft, count, size);
      } else {
        Shrink(ft, count, size);
      }
    }

    /** Links block 0 at every new position. */
    method LinkZeros(ft: FileTag, count: nat) returns (blocks: seq<nat>)
      requires Valid() && ft in tags && |tags[ft].blocks| < count
      modifies `links, `nlink
      ensures blocks == Padded(tags[ft].blocks, count) && InRange(old(DiskView()), blocks)
      ensures DiskView() == LinkFrom(old(DiskView()), ft, blocks, |tags[ft].blocks|)
    {
      ghost var was := DiskView();
      blocks := tags[ft].blocks;
      ghost var start := |blocks|;
      ghost var whole := Padded(blocks, count);
      LinkingStarts(was, ft, whole, start);
      hide *;
      var i := |blocks|;
      while i < count
        invariant start <= i <= count && |whole| == count && blocks == whole[..i]
        invariant Linking(DiskView(), ft, whole, i, was, start)
      {
        LinkingNext(DiskView(), ft, whole, i, was, start);
        AddHardLink(0, Slot(ft, i));
        PrefixNext(whole, i);
        blocks := blocks + [0];
        i := i + 1;
      }
      LinkingEnds(DiskView(), ft, whole, was, start);
      assert blocks == whole;
    }

    method Grow(ft: FileTag, count: nat, size: int)
      requires Valid() && ft in tags && |tags[ft].blocks| < count
      modifies `links, `nlink, `tags
      ensures Valid() && View() == SetLength(cfg, old(View()), ft, count, size)
    {
      hide LinkFrom;
      var blocks := LinkZeros(ft, count);
      tags := tags[ft := Meta(size, blocks, tags[ft].committed)];
    }

    /** Unlinks the positions from the last down to `count`. */
    method UnlinkTail(ft: FileTag, count: nat) returns (blocks: seq<nat>)
      requires Valid() && ft in tags && count <= |tags[ft].blocks|
      modifies `links, `nlink, `index, bitmap
      ensures blocks == tags[ft].blocks[..count]
      ensures DiskView() == DropAll(cfg, old(DiskView()), ft, tags[ft].blocks, Descending(count, |tags[ft].blocks|))
    {
      blocks := tags[ft].blocks;
      ghost var whole, was := blocks, DiskView();
      var i := |blocks|;
      assert InRange(was, whole) && whole[..i] == whole;
      hide DropAll, DiskOk, DropLink, Descending, InRange;
      while i > count
        invariant count <= i <= |whole| && blocks == whole[..i] && content == was.content
        invariant DiskOk(DiskView()) && InRange(DiskView(), whole)
        invariant DropAll(cfg, DiskView(), ft, whole, Descending(count, i))
                  == DropAll(cfg, was, ft, whole, Descending(count, |whole|))
      {
        DropLast(cfg, DiskView(), ft, whole, count, i);
        i := i - 1;
        PrefixNext(whole, i);
        InRangeAt(DiskView(), whole, i);
        DropHardLink(blocks[i], Slot(ft, i));
        blocks := blocks[..i];
      }
      DropEnd(cfg, DiskView(), ft, whole, count);
    }

    method Shrink(ft: FileTag, count: nat, size: int)
      requires Valid() && ft in tags && count <= |tags[ft].blocks|
      modifies `links, `nlink, `index, `tags, bitmap
      ensures Valid() && View() == SetLength(cfg, old(View()), ft, count, size)
    {
      hide DropAll;
      var blocks := UnlinkTail(ft, count);
      tags := tags[ft := Meta(size, blocks, tags[ft].committed)];
    }

    method MakeTag(ft: FileTag, dst: FileTag)
      requires Valid() && ft in tags
      modifies `links, `nlink, `tags
      ensures Valid() && View() == TagFile(cfg, old(View()), ft, dst)
    {
      var blocks := tags[ft].blocks;
      tags := tags[dst := Meta(|blocks| * cfg.blockSize, [], false)];
      var i := 0;
      while i < |blocks|
        invariant i <= |blocks|
        invariant tags == old(tags)[dst := Meta(|blocks| * cfg.blockSize, [], false)] && |content| == |old(content)|
        invariant DiskOk(DiskView()) && InRange(DiskView(), blocks)
        invariant LinkFrom(DiskView(), dst, blocks, i) == LinkFrom(old(DiskView()), dst, blocks, 0)
      {
        AddHardLink(blocks[i], Slot(dst, i));
        i := i + 1;
      }
      tags := tags[dst := tags[dst].(blocks := blocks)];
    }

    /** One turn of the commit loop. */
    method DedupOne(ft: FileTag, blocks: seq<nat>, i: nat) returns (r: seq<nat>)
      requires DiskOk(DiskView()) && InRange(DiskView(), blocks) && i < |blocks|
      modifies `links, `nlink, `index, bitmap
      ensures (DiskView(), r) == DedupStep(cfg, old(DiskView()), ft, blocks, i)
    {
      hide Relink;
      var b := blocks[i];
      var h := cfg.hash(content[b]);
      r := blocks;
      if h !in index {
        index := index[h := b];
      } else if index[h] != b {
        var known := index[h];
        Redirect(b, known, Slot(ft, i));
        r := blocks[i := known];
      }
    }

    method Commit(ft: FileTag)
      requires Valid() && ft in tags
      modifies `links, `nlink, `index, `tags, bitmap
      ensures Valid() && View() == CommitFile(cfg, old(View()), ft)
    {
      if tags[ft].committed { return; }
      ghost var was := View();
      DedupingStarts(cfg, was, ft);
      hide *;
      tags := tags[ft := tags[ft].(committed := true)];
      var blocks := tags[ft].blocks;
      var i := 0;
      while i < |blocks|
        invariant i <= |blocks| && tags == was.tags[ft := was.tags[ft].(committed := true)]
        invariant Deduping(cfg, DiskView(), ft, blocks, i, was.disk, was.tags[ft].blocks)
      {
        DedupingNext(cfg, DiskView(), ft, blocks, i, was.disk, was.tags[ft].blocks);
        blocks := DedupOne(ft, blocks, i);
        i := i + 1;
      }
      CommitEnds(cfg, was, ft, DiskView(), blocks);
      tags := tags[ft := tags[ft].(blocks := blocks)];
      CommitIsValid();
    }

    lemma CommitIsValid()
      requires cfg.Valid() && StoreOk(View())
      ensures Valid()
    {
    }

    method Write(ft: FileTag, n: nat, data: Block) returns (code: Code)
      requires Valid() && ft in tags && n < |tags[ft].blocks| && |data| >= cfg.blockSize
      modifies `content, `links, `nlink, `index, `tags, bitmap
      ensures Valid() && (View(), code) == WriteFile(cfg, old(View()), ft, n, data)
    {
      var blocks := tags[ft].blocks;
      var b := blocks[n];
      if nlink[b] == 2 {
        content := content[b := data[..cfg.blockSize]];
        return Correct;
      }
      var free := FindFreeBlock();
      if free.None? { return Insufficient; }
      var f := free.value;
      content := content[f := data[..cfg.blockSize]];
      hide MoveLink;
      MoveHardLink(b, f, Slot(ft, n));
      tags := tags[ft := tags[ft].(blocks := blocks[n := f])];
      bitmap[f] := true;
      return Correct;
    }

    method Delete(ft: FileTag)
      requires Valid() && ft in tags
      modifies `links, `nlink, `index, `tags, bitmap
      ensures Valid() && View() == DeleteTag(cfg, old(View()), ft)
    {
      var blocks := tags[ft].blocks;
      var i := 0;
      while i < |blocks|
        invariant i <= |blocks|
        invariant tags == old(tags) && |content| == |old(content)|
        invariant DiskOk(DiskView()) && InRange(DiskView(), blocks)
        invariant DropAll(cfg, DiskView(), ft, blocks, Ascending(|blocks|)[i..])
                  == DropAll(cfg, old(DiskView()), ft, blocks, Ascending(|blocks|))
      {
        AscendingSuffix(|blocks|, i);
        DropHardLink(blocks[i], Slot(ft, i));
        i := i + 1;
      }
      tags := tags - {ft};
    }

    /** Serves one request, checks first. */
    method Serve(op: Op) returns (reply: Reply)
      requires Valid() && WellFormed(cfg, op)
      modifies this, bitmap
      ensures Valid() && bitmap == old(bitmap)
      ensures (View(), reply) == Step(cfg, old(View()), op)
    {
      reply := Reply(Correct, Zeros(cfg.blockSize));
      var refusal := Check(op);
      if refusal.Some? { return Reply(refusal.value, Zeros(cfg.blockSize)); }
      match op {
        case Create(ft) => Create(ft);
        case Truncate(ft, size) => Truncate(ft, size);
        case MakeTag(ft, dst) => MakeTag(ft, dst);
        case Commit(ft) => Commit(ft);
        case WriteBlock(ft, n, data) =>
          var code := Write(ft, n, data);
          reply := Reply(code, Zeros(cfg.blockSize));
        case ReadBlock(ft, n) => reply := Reply(Correct, content[tags[ft].blocks[n]]);
        case Delete(ft) => Delete(ft);
      }
    }

    /** The checks in the order the source makes them. */
    method Check(op: Op) returns (refusal: Option<Code>)
      requires Valid()
      ensures refusal == Refusal(View(), op)
    {
      if op.Unknown? { return Some(Forbidden); }
      var ft := op.ft;
      if op.Create? {
        return if ft.file in files then Some(Preexisting) else None;
      }
      if ft.file !in files { return Some(Missing); }
      if ft !in tags { return Some(Missing); }
      match op {
        case MakeTag(_, dst) =>
          if dst.file !in files { return Some(Missing); }
          if dst in tags { return Some(Preexisting); }
        case Truncate(_, _) =>
          if tags[ft].committed { return Some(Forbidden); }
        case WriteBlock(_, n, _) =>
          if tags[ft].committed { return Some(Forbidden); }
          if !(0 <= n < |tags[ft].blocks|) { return Some(OutOfLimit); }
        case ReadBlock(_, n) =>
          if !(0 <= n < |tags[ft].blocks|) { return Some(OutOfLimit); }
        case Commit(_) =>
        case Delete(_) =>
      }
      return None;
    }
  }
}
