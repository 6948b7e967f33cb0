/**
 What keeps the physical side sound: the bitmap marks the referenced blocks, the
 hash index tells the truth, and every indexed block, like block 0, is held by a
 committed tag.
 */
module StoreSafety {
  import opened Common
  import opened BlockStore
  import opened StoreLinks

  ghost predicate Held(links: map<Slot, nat>, b: nat) {
    exists p :: p in links && links[p] == b
  }

  ghost predicate HeldBy(links: map<Slot, nat>, b: nat, owners: set<FileTag>) {
    exists p :: p in links && links[p] == b && p.owner in owners
  }

  ghost predicate IndexTrue(cfg: Config, d: Disk)
    requires DiskOk(d)
  {
    forall h :: h in d.index ==> cfg.hash(d.content[d.index[h]]) == h
  }

  ghost predicate BitsExact(d: Disk)
    requires DiskOk(d)
  {
    forall b: nat :: b < |d.bitmap| ==> (d.bitmap[b] <==> Held(d.links, b))
  }

  ghost predicate Sound(cfg: Config, d: Disk) {
    && Counted(d)
    && |d.content| == cfg.blockCount
    && (forall b :: 0 <= b < |d.content| ==> |d.content[b]| == cfg.blockSize)
    && BitsExact(d)
    && IndexTrue(cfg, d)
  }

  ghost predicate IndexHeld(d: Disk, owners: set<FileTag>) {
    forall h :: h in d.index ==> HeldBy(d.links, d.index[h], owners)
  }

  function CommittedTags(tags: Tags): set<FileTag> {
    set ft | ft in tags && tags[ft].committed
  }

  /** The invariant of the block store. */
  ghost predicate Safe(cfg: Config, s: Store) {
    && Bookkept(cfg, s)
    && Sound(cfg, s.disk)
    && IndexHeld(s.disk, CommittedTags(s.tags))
    && HeldBy(s.disk.links, 0, CommittedTags(s.tags))
    && s.disk.content[0] == Zeros(cfg.blockSize)
  }

  // ------------------------------------------------------- link counts and use

  lemma UnusedIffAlone(d: Disk, b: nat)
    requires Counted(d) && b < |d.content|
    ensures d.nlink[b] == 1 <==> !Held(d.links, b)
    ensures d.nlink[b] > 1 <==> Held(d.links, b)
  {
    if Held(d.links, b) {
      var p :| p in d.links && d.links[p] == b;
      assert p in Holders(d.links, b);
    } else {
      assert Holders(d.links, b) == {};
    }
  }

  /** A link count of 2 means a single logical holder. */
  lemma SoleHolder(d: Disk, p: Slot)
    requires Counted(d) && p in d.links
    ensures d.nlink[d.links[p]] == 2 <==> forall q :: q in d.links && d.links[q] == d.links[p] ==> q == p
  {
    var b := d.links[p];
    var hs := Holders(d.links, b);
    assert p in hs;
    if d.nlink[b] == 2 {
      forall q | q in d.links && d.links[q] == b ensures q == p {
        assert q in hs;
        if q != p {
          assert {p, q} <= hs;
          CardinalityOfSubset({p, q}, hs);
        }
      }
    }
    if forall q :: q in d.links && d.links[q] == b ==> q == p {
      assert hs == {p};
    }
  }

  lemma CardinalityOfSubset(a: set<Slot>, b: set<Slot>)
    requires a <= b
    ensures |a| <= |b|
  {
    assert b == a + (b - a);
  }

  // --------------------------------------------------------------- linking

  /** Linking blocks that are already in use keeps the disk sound. */
  lemma LinkFromSound(cfg: Config, d: Disk, ft: FileTag, blocks: seq<nat>, i: nat)
    requires Sound(cfg, d) && InRange(d, blocks) && i <= |blocks|
    requires forall j: nat :: i <= j < |blocks| ==> Slot(ft, j) !in d.links
    requires forall j: nat :: i <= j < |blocks| ==> Held(d.links, blocks[j])
    ensures Sound(cfg, LinkFrom(d, ft, blocks, i))
  {
    LinkFromLinks(d, ft, blocks, i);
    var r := LinkFrom(d, ft, blocks, i);
    forall b: nat | b < |r.bitmap| ensures r.bitmap[b] <==> Held(r.links, b) {
      if Held(d.links, b) {
        var p :| p in d.links && d.links[p] == b;
        assert p in r.links && r.links[p] == b;
      }
    }
  }

  lemma StillHeld(links: map<Slot, nat>, links': map<Slot, nat>, b: nat, owners: set<FileTag>)
    requires HeldBy(links, b, owners)
    requires forall p :: p in links && p.owner in owners ==> p in links' && links'[p] == links[p]
    ensures HeldBy(links', b, owners) && Held(links', b)
  {
    var p :| p in links && links[p] == b && p.owner in owners;
    assert p in links' && links'[p] == b;
  }

  // --------------------------------------------------------------- unlinking

  lemma DropLinkSound(cfg: Config, d: Disk, p: Slot)
    requires Sound(cfg, d) && p in d.links
    ensures var b := d.links[p]; var r := DropLink(cfg, d, b, p);
            && Sound(cfg, r) && r.content == d.content && r.links == d.links - {p}
            && r.index == if Held(r.links, b) then d.index else d.index - {cfg.hash(d.content[b])}
  {
    var b := d.links[p];
    DropLinkCounted(cfg, d, b, p);
    UnlinkCounted(d, p);
    UnusedIffAlone(Unlink(d, p), b);
    var r := DropLink(cfg, d, b, p);
    forall c: nat | c < |r.bitmap| && c != b ensures r.bitmap[c] <==> Held(r.links, c) {
      if Held(d.links, c) {
        var q :| q in d.links && d.links[q] == c;
        assert q in r.links && r.links[q] == c;
      }
    }
  }

  /** The hash of some listed block that no link reaches any more. */
  ghost predicate Forgotten(cfg: Config, r: Disk, blocks: seq<nat>, order: seq<nat>, h: Hash)
    requires InRange(r, blocks) && forall k :: 0 <= k < |order| ==> order[k] < |blocks|
  {
    exists k :: 0 <= k < |order| && !Held(r.links, blocks[order[k]]) && cfg.hash(r.content[blocks[order[k]]]) == h
  }

  /** Unlinking loses exactly the index entries whose hash is that of a block it frees. */
  lemma {:induction false} DropAllSound(cfg: Config, d: Disk, ft: FileTag, blocks: seq<nat>, order: seq<nat>)
    requires Sound(cfg, d) && InRange(d, blocks)
    requires forall k :: 0 <= k < |order| ==> order[k] < |blocks|
    requires forall k :: 0 <= k < |order| ==> Slot(ft, order[k]) in d.links && d.links[Slot(ft, order[k])] == blocks[order[k]]
    requires forall k, m :: 0 <= k < m < |order| ==> order[k] != order[m]
    ensures var r := DropAll(cfg, d, ft, blocks, order);
            && Sound(cfg, r)
            && r.content == d.content
            && (forall h :: h in r.index <==> h in d.index && !Forgotten(cfg, r, blocks, order, h))
            && (forall h :: h in r.index ==> r.index[h] == d.index[h])
    decreases |order|
  {
    if order != [] {
      var p := Slot(ft, order[0]);
      var b := blocks[order[0]];
      var d' := DropLink(cfg, d, b, p);
      DropLinkSound(cfg, d, p);
      var rest := order[1..];
      forall k | 0 <= k < |rest| ensures Slot(ft, rest[k]) in d'.links && d'.links[Slot(ft, rest[k])] == blocks[rest[k]] {
        assert rest[k] == order[k + 1];
      }
      DropAllSound(cfg, d', ft, blocks, rest);
      DropAllLinks(cfg, d', ft, blocks, rest);
      var r := DropAll(cfg, d, ft, blocks, order);
      ForgottenStep(cfg, d, d', r, blocks, order);
    }
  }

  lemma ForgottenStep(cfg: Config, d: Disk, d': Disk, r: Disk, blocks: seq<nat>, order: seq<nat>)
    requires InRange(r, blocks) && order != []
    requires forall k :: 0 <= k < |order| ==> order[k] < |blocks|
    requires r.content == d.content == d'.content
    requires var b := blocks[order[0]];
             d'.index == if Held(d'.links, b) then d.index else d.index - {cfg.hash(d.content[b])}
    requires forall p :: p in r.links ==> p in d'.links && d'.links[p] == r.links[p]
    requires forall h :: h in r.index <==> h in d'.index && !Forgotten(cfg, r, blocks, order[1..], h)
    requires var b := blocks[order[0]];
             Held(d'.links, b) && !Held(r.links, b) ==> exists k :: 1 <= k < |order| && blocks[order[k]] == b
    ensures forall h :: h in r.index <==> h in d.index && !Forgotten(cfg, r, blocks, order, h)
  {
    var b := blocks[order[0]];
    var rest := order[1..];
    assert Held(r.links, b) ==> Held(d'.links, b);
    forall h
      ensures Forgotten(cfg, r, blocks, order, h) <==>
              Forgotten(cfg, r, blocks, rest, h) || (!Held(r.links, b) && cfg.hash(r.content[b]) == h)
    {
      if Forgotten(cfg, r, blocks, rest, h) {
        var k :| 0 <= k < |rest| && !Held(r.links, blocks[rest[k]]) && cfg.hash(r.content[blocks[rest[k]]]) == h;
        assert order[k + 1] == rest[k];
      }
      if Forgotten(cfg, r, blocks, order, h) {
        var k :| 0 <= k < |order| && !Held(r.links, blocks[order[k]]) && cfg.hash(r.content[blocks[order[k]]]) == h;
        if k > 0 { assert rest[k - 1] == order[k]; }
      }
    }
    if Held(d'.links, b) && !Held(r.links, b) {
      var k :| 1 <= k < |order| && blocks[order[k]] == b;
      assert rest[k - 1] == order[k];
      assert Forgotten(cfg, r, blocks, rest, cfg.hash(r.content[b]));
    }
  }
}
