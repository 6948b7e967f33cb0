/**
 Copy-on-write isolation of WRITE_BLOCK, and the exact condition under which
 DELETE keeps the invariant.
 */
module StoreWrites {
  import opened Common
  import opened BlockStore
  import opened StoreLinks
  import opened StoreSafety
  import opened StoreOperations

  // ------------------------------------------------------------------- write

  /** An in-place write never hits block 0 nor an indexed block. */
  lemma InPlaceIsUnpinned(cfg: Config, s: Store, ft: FileTag, n: nat)
    requires Safe(cfg, s) && ft in s.tags && !s.tags[ft].committed && n < |s.tags[ft].blocks|
    requires s.disk.nlink[s.tags[ft].blocks[n]] == 2
    ensures var b := s.tags[ft].blocks[n];
            b != 0 && forall h :: h in s.disk.index ==> s.disk.index[h] != b
  {
    var b := s.tags[ft].blocks[n];
    var p := Slot(ft, n);
    assert p in s.disk.links && s.disk.links[p] == b;
    SoleHolder(s.disk, p);
  }

  lemma OverwriteSound(cfg: Config, d: Disk, b: nat, data: Block)
    requires Sound(cfg, d) && b < |d.content| && |data| == cfg.blockSize
    requires forall h :: h in d.index ==> d.index[h] != b
    ensures Sound(cfg, d.(content := d.content[b := data]))
  {
  }

  lemma MoveSound(cfg: Config, d: Disk, p: Slot, f: nat)
    requires Sound(cfg, d) && p in d.links && d.nlink[d.links[p]] != 2
    requires f < |d.content| && !d.bitmap[f]
    ensures var r := MoveLink(cfg, d, d.links[p], f, p);
            && Sound(cfg, r.(bitmap := r.bitmap[f := true]))
            && r.content == d.content && r.index == d.index && r.bitmap == d.bitmap
            && r.links == d.links[p := f]
  {
    var b := d.links[p];
    var r := MoveLink(cfg, d, b, f, p);
    MoveLinkCounted(cfg, d, b, f, p);
    UnlinkCounted(d, p);
    SoleHolder(d, p);
    UnusedIffAlone(Unlink(d, p), b);
    assert Held(Unlink(d, p).links, b) by {
      var q :| q in d.links && d.links[q] == b && q != p;
      assert q in d.links - {p};
    }
    assert p in r.links && r.links[p] == f;
    var bits := r.bitmap[f := true];
    forall c: nat | c < |bits| ensures bits[c] <==> Held(r.links, c) {
      if Held(d.links, c) {
        var q :| q in d.links && d.links[q] == c && (c == b ==> q != p);
        assert q in r.links && r.links[q] == c;
      }
    }
  }

  /** WRITE_BLOCK fails exactly when the block is shared and no bit is clear, changing nothing. */
  lemma WriteFailsIff(cfg: Config, s: Store, ft: FileTag, n: nat, data: Block)
    requires Safe(cfg, s) && ft in s.tags && !s.tags[ft].committed && n < |s.tags[ft].blocks| && |data| >= cfg.blockSize
    ensures var (s', code) := WriteFile(cfg, s, ft, n, data);
            && code in {Correct, Insufficient}
            && (code == Insufficient <==>
                Shared(s.tags, Slot(ft, n)) && forall b :: 0 <= b < |s.disk.bitmap| ==> s.disk.bitmap[b])
            && (code == Insufficient ==> s' == s)
  {
    SharedIff(cfg, s, ft, n);
    var free := FindFree(s.disk.bitmap, 0);
  }

  /** Some other position of the store names the same block. */
  ghost predicate Shared(tags: Tags, p: Slot)
    requires p.owner in tags && p.pos < |tags[p.owner].blocks|
  {
    exists t, i :: t in tags && 0 <= i < |tags[t].blocks| && tags[t].blocks[i] == tags[p.owner].blocks[p.pos]
                   && (t != p.owner || i != p.pos)
  }

  lemma SharedIff(cfg: Config, s: Store, ft: FileTag, n: nat)
    requires Bookkept(cfg, s) && ft in s.tags && n < |s.tags[ft].blocks|
    ensures s.disk.nlink[s.tags[ft].blocks[n]] != 2 <==> Shared(s.tags, Slot(ft, n))
  {
    var p := Slot(ft, n);
    var links := s.disk.links;
    assert p in links && links[p] == s.tags[ft].blocks[n];
    SoleHolder(s.disk, p);
    if Shared(s.tags, p) {
      var t, i :| t in s.tags && 0 <= i < |s.tags[t].blocks| && s.tags[t].blocks[i] == links[p] && (t != ft || i != n);
      assert Slot(t, i) in links && links[Slot(t, i)] == links[p];
    }
    if q :| q in links && links[q] == links[p] && q != p {
      assert s.tags[q.owner].blocks[q.pos] == links[p];
      assert q == Slot(q.owner, q.pos);
    }
  }

  lemma AllocatingWriteSafe(cfg: Config, s: Store, ft: FileTag, n: nat, f: nat, block: Block)
    requires Safe(cfg, s) && ft in s.tags && !s.tags[ft].committed && n < |s.tags[ft].blocks|
    requires |block| == cfg.blockSize && s.disk.nlink[s.tags[ft].blocks[n]] != 2
    requires f < |s.disk.bitmap| && !s.disk.bitmap[f]
    ensures var written := s.disk.(content := s.disk.content[f := block]);
            var moved := MoveLink(cfg, written, s.tags[ft].blocks[n], f, Slot(ft, n));
            var r := moved.(bitmap := moved.bitmap[f := true]);
            && Sound(cfg, r) && r.content[0] == s.disk.content[0]
            && IndexHeld(r, CommittedTags(s.tags)) && HeldBy(r.links, 0, CommittedTags(s.tags))
  {
    var d := s.disk;
    var p := Slot(ft, n);
    var written := d.(content := d.content[f := block]);
    var owners := CommittedTags(s.tags);
    FreeIsUnpinned(cfg, s, f);
    OverwriteSound(cfg, d, f, block);
    assert p in written.links && written.links[p] == s.tags[ft].blocks[n];
    MoveSound(cfg, written, p, f);
    var links := d.links[p := f];
    forall c | HeldBy(d.links, c, owners) ensures HeldBy(links, c, owners) {
      StillHeld(d.links, links, c, owners);
    }
  }

  lemma InPlaceWriteSafe(cfg: Config, s: Store, ft: FileTag, n: nat, block: Block)
    requires Safe(cfg, s) && ft in s.tags && !s.tags[ft].committed && n < |s.tags[ft].blocks|
    requires |block| == cfg.blockSize && s.disk.nlink[s.tags[ft].blocks[n]] == 2
    ensures var r := s.disk.(content := s.disk.content[s.tags[ft].blocks[n] := block]);
            && Sound(cfg, r) && r.content[0] == s.disk.content[0]
            && IndexHeld(r, CommittedTags(s.tags)) && HeldBy(r.links, 0, CommittedTags(s.tags))
  {
    InPlaceIsUnpinned(cfg, s, ft, n);
    OverwriteSound(cfg, s.disk, s.tags[ft].blocks[n], block);
  }

  /** A write keeps the physical side sound and pinned. */
  lemma WriteSound(cfg: Config, s: Store, ft: FileTag, n: nat, data: Block)
    requires Safe(cfg, s) && ft in s.tags && !s.tags[ft].committed && n < |s.tags[ft].blocks| && |data| >= cfg.blockSize
    ensures var r := WriteFile(cfg, s, ft, n, data).0.disk;
            && Sound(cfg, r) && r.content[0] == s.disk.content[0]
            && IndexHeld(r, CommittedTags(s.tags)) && HeldBy(r.links, 0, CommittedTags(s.tags))
  {
    var free := FindFree(s.disk.bitmap, 0);
    if s.disk.nlink[s.tags[ft].blocks[n]] == 2 {
      InPlaceWriteSafe(cfg, s, ft, n, data[..cfg.blockSize]);
    } else if free.Some? {
      AllocatingWriteSafe(cfg, s, ft, n, free.value, data[..cfg.blockSize]);
    }
  }

  lemma WriteKeepsCommitted(cfg: Config, s: Store, ft: FileTag, n: nat, data: Block)
    requires StoreOk(s) && ft in s.tags && n < |s.tags[ft].blocks| && |data| >= cfg.blockSize
    ensures CommittedTags(WriteFile(cfg, s, ft, n, data).0.tags) == CommittedTags(s.tags)
  {
  }

  /** A write keeps the invariant. */
  lemma WriteSafe(cfg: Config, s: Store, ft: FileTag, n: nat, data: Block)
    requires Safe(cfg, s) && ft in s.tags && !s.tags[ft].committed && n < |s.tags[ft].blocks| && |data| >= cfg.blockSize
    ensures Safe(cfg, WriteFile(cfg, s, ft, n, data).0)
  {
    WriteBookkept(cfg, s, ft, n, data);
    WriteSound(cfg, s, ft, n, data);
    WriteKeepsCommitted(cfg, s, ft, n, data);
  }

  lemma FreeIsUnpinned(cfg: Config, s: Store, f: nat)
    requires Safe(cfg, s) && f < |s.disk.bitmap| && !s.disk.bitmap[f]
    ensures f != 0 && !Held(s.disk.links, f) && forall h :: h in s.disk.index ==> s.disk.index[h] != f
  {
    var owners := CommittedTags(s.tags);
    forall c | HeldBy(s.disk.links, c, owners) ensures Held(s.disk.links, c) {
      StillHeld(s.disk.links, s.disk.links, c, owners);
    }
  }

  /** The block a successful write puts its data in: its own if nobody else names it, else the first free one. */
  lemma WriteShape(cfg: Config, s: Store, ft: FileTag, n: nat, data: Block) returns (hit: nat)
    requires Safe(cfg, s) && ft in s.tags && !s.tags[ft].committed && n < |s.tags[ft].blocks| && |data| >= cfg.blockSize
    requires WriteFile(cfg, s, ft, n, data).1 == Correct
    ensures var d, m, s' := s.disk, s.tags[ft], WriteFile(cfg, s, ft, n, data).0;
            && hit < |d.content| == |d.bitmap| && s'.files == s.files
            && s'.disk.content == d.content[hit := data[..cfg.blockSize]]
            && if d.nlink[m.blocks[n]] == 2
               then hit == m.blocks[n] && s'.tags == s.tags && s'.disk.bitmap == d.bitmap
               else !d.bitmap[hit] && s'.tags == s.tags[ft := m.(blocks := m.blocks[n := hit])]
                    && s'.disk.bitmap == d.bitmap[hit := true]
  {
    var d, p := s.disk, Slot(ft, n);
    var b := s.tags[ft].blocks[n];
    assert p in d.links && d.links[p] == b;
    if d.nlink[b] == 2 {
      hit := b;
    } else {
      hit := FindFree(d.bitmap, 0).value;
      FreeIsUnpinned(cfg, s, hit);
      OverwriteSound(cfg, d, hit, data[..cfg.blockSize]);
      MoveSound(cfg, d.(content := d.content[hit := data[..cfg.blockSize]]), p, hit);
    }
  }

  /** No other position names the block written. */
  lemma OthersMiss(cfg: Config, s: Store, ft: FileTag, n: nat, hit: nat, t: FileTag, i: nat)
    requires Safe(cfg, s) && ft in s.tags && !s.tags[ft].committed && n < |s.tags[ft].blocks| && hit < |s.disk.bitmap|
    requires if s.disk.nlink[s.tags[ft].blocks[n]] == 2 then hit == s.tags[ft].blocks[n] else !s.disk.bitmap[hit]
    requires t in s.tags && i < |s.tags[t].blocks| && (t != ft || i != n)
    ensures s.tags[t].blocks[i] != hit
  {
    var d := s.disk;
    assert Slot(ft, n) in d.links && d.links[Slot(ft, n)] == s.tags[ft].blocks[n];
    assert Slot(t, i) in d.links && d.links[Slot(t, i)] == s.tags[t].blocks[i];
    if d.nlink[s.tags[ft].blocks[n]] == 2 {
      SoleHolder(d, Slot(ft, n));
    } else {
      FreeIsUnpinned(cfg, s, hit);
    }
  }

  /** `block` at position `n` of `ft`, and what was seen before at every other position of the store. */
  ghost predicate Isolated(s: Store, s': Store, ft: FileTag, n: nat, block: Block)
    requires StoreOk(s) && StoreOk(s')
  {
    && s'.tags.Keys == s.tags.Keys && s'.files == s.files
    && (forall t :: t in s.tags ==>
          && |s'.tags[t].blocks| == |s.tags[t].blocks|
          && s'.tags[t].size == s.tags[t].size && s'.tags[t].committed == s.tags[t].committed)
    && (forall t, i :: t in s.tags && 0 <= i < |s.tags[t].blocks| ==>
          s'.disk.content[s'.tags[t].blocks[i]] ==
            if t == ft && i == n then block else s.disk.content[s.tags[t].blocks[i]])
  }

  lemma OneBlockIsolated(s: Store, s': Store, ft: FileTag, n: nat, hit: nat, block: Block)
    requires StoreOk(s) && StoreOk(s') && ft in s.tags && n < |s.tags[ft].blocks| && hit < |s.disk.content|
    requires s'.files == s.files && s'.disk.content == s.disk.content[hit := block]
    requires s'.tags == s.tags[ft := s.tags[ft].(blocks := s.tags[ft].blocks[n := hit])]
    requires forall t, i :: t in s.tags && 0 <= i < |s.tags[t].blocks| && (t != ft || i != n) ==> s.tags[t].blocks[i] != hit
    ensures Isolated(s, s', ft, n, block)
  {
  }

  /** A successful write changes what is seen at its own logical position, and at no other of the whole store. */
  lemma WriteIsolation(cfg: Config, s: Store, ft: FileTag, n: nat, data: Block)
    requires Safe(cfg, s) && ft in s.tags && !s.tags[ft].committed && n < |s.tags[ft].blocks| && |data| >= cfg.blockSize
    requires WriteFile(cfg, s, ft, n, data).1 == Correct
    ensures Isolated(s, WriteFile(cfg, s, ft, n, data).0, ft, n, data[..cfg.blockSize])
    ensures var d := s.disk; var d' := WriteFile(cfg, s, ft, n, data).0.disk;
            if Shared(s.tags, Slot(ft, n))
            then exists f :: 0 <= f < |d.bitmap| && !d.bitmap[f] && d'.bitmap == d.bitmap[f := true]
            else d'.bitmap == d.bitmap
  {
    SharedIff(cfg, s, ft, n);
    assert StoreOk(s);
    hide WriteFile, Safe, Shared, Isolated;
    var hit := WriteShape(cfg, s, ft, n, data);
    forall t, i | t in s.tags && 0 <= i < |s.tags[t].blocks| && (t != ft || i != n) ensures s.tags[t].blocks[i] != hit {
      OthersMiss(cfg, s, ft, n, hit, t, i);
    }
    hide StoreOk;
    var m := s.tags[ft];
    if s.disk.nlink[m.blocks[n]] == 2 {
      assert m.blocks[n := hit] == m.blocks && m.(blocks := m.blocks) == m && s.tags[ft := m] == s.tags;
    }
    OneBlockIsolated(s, WriteFile(cfg, s, ft, n, data).0, ft, n, hit, data[..cfg.blockSize]);
  }

  // ------------------------------------------------------------------ delete

  /** A committed tag other than `ft` names block `b`. */
  ghost predicate CommittedElsewhere(tags: Tags, ft: FileTag, b: nat) {
    exists t, i :: t in tags && t != ft && tags[t].committed && 0 <= i < |tags[t].blocks| && tags[t].blocks[i] == b
  }

  /** No tag other than `ft` names block `b`. */
  ghost predicate OnlyIn(tags: Tags, ft: FileTag, b: nat) {
    forall t, i :: t in tags && 0 <= i < |tags[t].blocks| && tags[t].blocks[i] == b ==> t == ft
  }

  /**
   When DELETE is harmless: another committed tag holds block 0, and every index
   entry either names a block another committed tag holds, or goes away because
   the deletion frees a block of that hash.
   */
  ghost predicate DeleteHarmless(cfg: Config, s: Store, ft: FileTag)
    requires StoreOk(s) && ft in s.tags
  {
    && CommittedElsewhere(s.tags, ft, 0)
    && forall h :: h in s.disk.index ==>
         || CommittedElsewhere(s.tags, ft, s.disk.index[h])
         || exists i :: 0 <= i < |s.tags[ft].blocks| && OnlyIn(s.tags, ft, s.tags[ft].blocks[i])
                        && cfg.hash(s.disk.content[s.tags[ft].blocks[i]]) == h
  }

  /** What DELETE leaves: the other tags' links, sound, and an index without the hashes of the blocks it freed. */
  lemma DeleteEffect(cfg: Config, s: Store, ft: FileTag)
    requires Safe(cfg, s) && ft in s.tags
    ensures var d' := DeleteTag(cfg, s, ft).disk;
            var blocks := s.tags[ft].blocks;
            && Bookkept(cfg, DeleteTag(cfg, s, ft))
            && Sound(cfg, d')
            && d'.content == s.disk.content
            && (forall p :: p in d'.links <==> p in s.disk.links && p.owner != ft)
            && (forall p :: p in d'.links ==> d'.links[p] == s.disk.links[p])
            && (forall h :: h in d'.index ==> h in s.disk.index && d'.index[h] == s.disk.index[h])
            && (forall h :: h in d'.index <==>
                  (h in s.disk.index && !exists i ::
                     0 <= i < |blocks| && OnlyIn(s.tags, ft, blocks[i]) && cfg.hash(s.disk.content[blocks[i]]) == h))
  {
    var blocks := s.tags[ft].blocks;
    var order := Ascending(|blocks|);
    DeleteBookkept(cfg, s, ft);
    DropAllSound(cfg, s.disk, ft, blocks, order);
    DropAllLinks(cfg, s.disk, ft, blocks, order);
    SlotsOfAscending(ft, |blocks|);
    var d' := DropAll(cfg, s.disk, ft, blocks, order);
    forall b: nat ensures Held(d'.links, b) <==> !OnlyIn(s.tags, ft, b) {
      HeldAfterDelete(s, ft, b, d'.links);
    }
    forall h
      ensures Forgotten(cfg, d', blocks, order, h) <==>
              exists i :: 0 <= i < |blocks| && OnlyIn(s.tags, ft, blocks[i]) && cfg.hash(s.disk.content[blocks[i]]) == h
    {
      ForgottenAscending(cfg, d', blocks, h);
    }
  }

  lemma ForgottenAscending(cfg: Config, d: Disk, blocks: seq<nat>, h: Hash)
    requires InRange(d, blocks)
    ensures Forgotten(cfg, d, blocks, Ascending(|blocks|), h) <==>
            exists i :: 0 <= i < |blocks| && !Held(d.links, blocks[i]) && cfg.hash(d.content[blocks[i]]) == h
  {
    if i :| 0 <= i < |blocks| && !Held(d.links, blocks[i]) && cfg.hash(d.content[blocks[i]]) == h {
      assert Ascending(|blocks|)[i] == i;
    }
  }

  lemma HeldAfterDelete(s: Store, ft: FileTag, b: nat, links: map<Slot, nat>)
    requires Linked(s.disk.links, s.tags) && ft in s.tags
    requires forall p :: p in links <==> p in s.disk.links && p.owner != ft
    requires forall p :: p in links ==> links[p] == s.disk.links[p]
    ensures Held(links, b) <==> !OnlyIn(s.tags, ft, b)
  {
    if !OnlyIn(s.tags, ft, b) {
      var t, i :| t in s.tags && 0 <= i < |s.tags[t].blocks| && s.tags[t].blocks[i] == b && t != ft;
      assert Slot(t, i) in links && links[Slot(t, i)] == b;
    }
  }

  lemma HeldByAfterDelete(s: Store, ft: FileTag, b: nat, links: map<Slot, nat>)
    requires Linked(s.disk.links, s.tags) && ft in s.tags
    requires forall p :: p in links <==> p in s.disk.links && p.owner != ft
    requires forall p :: p in links ==> links[p] == s.disk.links[p]
    ensures HeldBy(links, b, CommittedTags(s.tags - {ft})) <==> CommittedElsewhere(s.tags, ft, b)
  {
    if CommittedElsewhere(s.tags, ft, b) {
      var t, i :| t in s.tags && t != ft && s.tags[t].committed && 0 <= i < |s.tags[t].blocks| && s.tags[t].blocks[i] == b;
      assert Slot(t, i) in links && links[Slot(t, i)] == b;
    }
    if HeldBy(links, b, CommittedTags(s.tags - {ft})) {
      var p :| p in links && links[p] == b && p.owner in CommittedTags(s.tags - {ft});
      assert s.tags[p.owner].blocks[p.pos] == b;
    }
  }

  /** DELETE keeps the invariant exactly when it is harmless. */
  lemma DeleteSafeIff(cfg: Config, s: Store, ft: FileTag)
    requires Safe(cfg, s) && ft in s.tags
    ensures Safe(cfg, DeleteTag(cfg, s, ft)) <==> DeleteHarmless(cfg, s, ft)
  {
    DeleteEffect(cfg, s, ft);
    var d' := DeleteTag(cfg, s, ft).disk;
    forall b: nat
      ensures HeldBy(d'.links, b, CommittedTags(s.tags - {ft})) <==> CommittedElsewhere(s.tags, ft, b)
    {
      HeldByAfterDelete(s, ft, b, d'.links);
    }
  }

  /** Deleting a tag that is still WORK_IN_PROGRESS is always harmless. */
  lemma DeleteOfUncommittedIsHarmless(cfg: Config, s: Store, ft: FileTag)
    requires Safe(cfg, s) && ft in s.tags && !s.tags[ft].committed
    ensures DeleteHarmless(cfg, s, ft)
  {
    forall b | HeldBy(s.disk.links, b, CommittedTags(s.tags)) ensures CommittedElsewhere(s.tags, ft, b) {
      var p :| p in s.disk.links && s.disk.links[p] == b && p.owner in CommittedTags(s.tags);
      assert s.tags[p.owner].blocks[p.pos] == b;
    }
  }
}
