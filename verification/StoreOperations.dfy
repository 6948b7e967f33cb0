/**
 The invariant of the block store through every operation, and what each
 operation does to the contents a reader sees.
 */
module StoreOperations {
  import opened Common
  import opened BlockStore
  import opened StoreLinks
  import opened StoreSafety

  /** The contents behind a block list. */
  function Contents(content: seq<Block>, blocks: seq<nat>): (r: seq<Block>)
    requires forall i :: 0 <= i < |blocks| ==> blocks[i] < |content|
  {
    seq(|blocks|, i requires 0 <= i < |blocks| => content[blocks[i]])
  }

  // ----------------------------------------------------------------- helpers

  /** Every block named by a tag has its bit set. */
  lemma NamedIsHeld(s: Store, ft: FileTag, i: nat)
    requires Linked(s.disk.links, s.tags) && ft in s.tags && i < |s.tags[ft].blocks|
    ensures Held(s.disk.links, s.tags[ft].blocks[i])
  {
    assert Slot(ft, i) in s.disk.links;
  }

  lemma LinkFromPinned(d: Disk, ft: FileTag, blocks: seq<nat>, i: nat, owners: set<FileTag>)
    requires Counted(d) && InRange(d, blocks) && i <= |blocks|
    requires forall j: nat :: i <= j < |blocks| ==> Slot(ft, j) !in d.links
    requires IndexHeld(d, owners) && HeldBy(d.links, 0, owners)
    ensures var r := LinkFrom(d, ft, blocks, i);
            IndexHeld(r, owners) && HeldBy(r.links, 0, owners)
  {
    LinkFromLinks(d, ft, blocks, i);
    var r := LinkFrom(d, ft, blocks, i);
    forall b | HeldBy(d.links, b, owners) ensures HeldBy(r.links, b, owners) {
      StillHeld(d.links, r.links, b, owners);
    }
  }

  // ---------------------------------------------------------- create and tag

  lemma CreateSafe(cfg: Config, s: Store, ft: FileTag)
    requires Safe(cfg, s) && ft.file !in s.files
    ensures Safe(cfg, CreateFile(s, ft))
  {
    assert CommittedTags(CreateFile(s, ft).tags) == CommittedTags(s.tags);
  }

  lemma TagKeepsSafe(cfg: Config, s: Store, ft: FileTag, dst: FileTag)
    requires Safe(cfg, s) && Refusal(s, MakeTag(ft, dst)).None?
    ensures var s' := TagFile(cfg, s, ft, dst);
            && Safe(cfg, s')
            && s'.disk.content == s.disk.content && s'.disk.bitmap == s.disk.bitmap
  {
    var s' := TagFile(cfg, s, ft, dst);
    var blocks := s.tags[ft].blocks;
    TagBookkept(cfg, s, ft, dst);
    forall j: nat | j < |blocks| ensures Held(s.disk.links, blocks[j]) && Slot(dst, j) !in s.disk.links {
      NamedIsHeld(s, ft, j);
    }
    TagKeepsOwners(cfg, s, ft, dst);
    assert Counted(s.disk) && InRange(s.disk, blocks);
    hide LinkFrom, Sound, Bookkept, IndexHeld, HeldBy, Held, Owns, Counted, CommittedTags, DiskOk;
    LinkFromLinks(s.disk, dst, blocks, 0);
    LinkFromSound(cfg, s.disk, dst, blocks, 0);
    LinkFromPinned(s.disk, dst, blocks, 0, CommittedTags(s.tags));
  }

  lemma TagKeepsOwners(cfg: Config, s: Store, ft: FileTag, dst: FileTag)
    requires StoreOk(s) && ft in s.tags && dst !in s.tags
    ensures CommittedTags(TagFile(cfg, s, ft, dst).tags) == CommittedTags(s.tags)
  {
    hide LinkFrom;
  }

  /** TAG yields an equal snapshot, allocates nothing and leaves every other tag as it was. */
  lemma TagSafe(cfg: Config, s: Store, ft: FileTag, dst: FileTag)
    requires Safe(cfg, s) && Refusal(s, MakeTag(ft, dst)).None?
    ensures var s' := TagFile(cfg, s, ft, dst);
            && Safe(cfg, s')
            && s'.disk.content == s.disk.content && s'.disk.bitmap == s.disk.bitmap
            && s'.tags == s.tags[dst := s'.tags[dst]]
            && s'.tags[dst].blocks == s.tags[ft].blocks && !s'.tags[dst].committed
            && Contents(s'.disk.content, s'.tags[dst].blocks) == Contents(s.disk.content, s.tags[ft].blocks)
            && Fills(|s'.tags[dst].blocks|, s'.tags[dst].size, cfg.blockSize)
            && (forall t, i :: t in s.tags && 0 <= i < |s.tags[t].blocks| ==>
                  s'.disk.content[s'.tags[t].blocks[i]] == s.disk.content[s.tags[t].blocks[i]])
  {
    TagKeepsSafe(cfg, s, ft, dst);
    WholeBlocks(|s.tags[ft].blocks|, cfg.blockSize);
    hide Safe, LinkFrom, Fills;
  }

  // ---------------------------------------------------------------- truncate

  /** Unlinking positions of a tag that is not committed leaves everything pinned. */
  lemma DropAllPinned(cfg: Config, d: Disk, ft: FileTag, blocks: seq<nat>, order: seq<nat>, owners: set<FileTag>)
    requires Sound(cfg, d) && InRange(d, blocks)
    requires forall k :: 0 <= k < |order| ==> order[k] < |blocks|
    requires forall k :: 0 <= k < |order| ==> Slot(ft, order[k]) in d.links && d.links[Slot(ft, order[k])] == blocks[order[k]]
    requires forall k, m :: 0 <= k < m < |order| ==> order[k] != order[m]
    requires ft !in owners && IndexHeld(d, owners) && HeldBy(d.links, 0, owners)
    ensures var r := DropAll(cfg, d, ft, blocks, order);
            Sound(cfg, r) && IndexHeld(r, owners) && HeldBy(r.links, 0, owners)
  {
    DropAllSound(cfg, d, ft, blocks, order);
    DropAllLinks(cfg, d, ft, blocks, order);
    var r := DropAll(cfg, d, ft, blocks, order);
    forall b | HeldBy(d.links, b, owners) ensures HeldBy(r.links, b, owners) {
      StillHeld(d.links, r.links, b, owners);
    }
  }

  lemma SetLengthSafe(cfg: Config, s: Store, ft: FileTag, count: nat, size: int)
    requires Safe(cfg, s) && ft in s.tags && !s.tags[ft].committed
    ensures var s' := SetLength(cfg, s, ft, count, size);
            && Sound(cfg, s'.disk) && s'.disk.content == s.disk.content
            && IndexHeld(s'.disk, CommittedTags(s.tags)) && HeldBy(s'.disk.links, 0, CommittedTags(s.tags))
  {
    var blocks := s.tags[ft].blocks;
    if |blocks| < count { GrownSafe(cfg, s, ft, blocks + seq(count - |blocks|, _ => 0)); } else { ShrunkSafe(cfg, s, ft, count); }
    hide LinkFrom, DropAll, Sound, IndexHeld, HeldBy, CommittedTags, Safe;
  }

  lemma GrownSafe(cfg: Config, s: Store, ft: FileTag, grown: seq<nat>)
    requires Safe(cfg, s) && ft in s.tags && s.tags[ft].blocks <= grown
    requires forall j: nat :: |s.tags[ft].blocks| <= j < |grown| ==> grown[j] == 0
    ensures InRange(s.disk, grown)
    ensures var r := LinkFrom(s.disk, ft, grown, |s.tags[ft].blocks|);
            && Sound(cfg, r) && r.content == s.disk.content
            && IndexHeld(r, CommittedTags(s.tags)) && HeldBy(r.links, 0, CommittedTags(s.tags))
  {
    var from := |s.tags[ft].blocks|;
    var owners := CommittedTags(s.tags);
    StillHeld(s.disk.links, s.disk.links, 0, owners);
    assert forall j: nat :: from <= j < |grown| ==> Slot(ft, j) !in s.disk.links;
    assert Sound(cfg, s.disk) && Counted(s.disk) && InRange(s.disk, grown) && IndexHeld(s.disk, owners);
    hide *;
    LinkFromLinks(s.disk, ft, grown, from);
    LinkFromSound(cfg, s.disk, ft, grown, from);
    LinkFromPinned(s.disk, ft, grown, from, owners);
  }

  lemma ShrunkSafe(cfg: Config, s: Store, ft: FileTag, count: nat)
    requires Safe(cfg, s) && ft in s.tags && !s.tags[ft].committed && count <= |s.tags[ft].blocks|
    ensures var blocks := s.tags[ft].blocks;
            var r := DropAll(cfg, s.disk, ft, blocks, Descending(count, |blocks|));
            && Sound(cfg, r) && r.content == s.disk.content
            && IndexHeld(r, CommittedTags(s.tags)) && HeldBy(r.links, 0, CommittedTags(s.tags))
  {
    var blocks := s.tags[ft].blocks;
    DropAllLinks(cfg, s.disk, ft, blocks, Descending(count, |blocks|));
    DropAllPinned(cfg, s.disk, ft, blocks, Descending(count, |blocks|), CommittedTags(s.tags));
    hide DropAll;
  }

  lemma TruncateSafe(cfg: Config, s: Store, ft: FileTag, size: int)
    requires Safe(cfg, s) && ft in s.tags && !s.tags[ft].committed && size + cfg.blockSize > 0
    ensures Safe(cfg, TruncateFile(cfg, s, ft, size))
    ensures TruncateFile(cfg, s, ft, size).disk.content == s.disk.content
  {
    SetLengthKeepsSafe(cfg, s, ft, TruncDiv(size, cfg.blockSize), size);
  }

  lemma SetLengthKeepsSafe(cfg: Config, s: Store, ft: FileTag, count: nat, size: int)
    requires Safe(cfg, s) && ft in s.tags && !s.tags[ft].committed
    ensures var s' := SetLength(cfg, s, ft, count, size);
            Safe(cfg, s') && s'.disk.content == s.disk.content
  {
    SetLengthLinked(cfg, s, ft, count, size);
    SetLengthSafe(cfg, s, ft, count, size);
    hide SetLength, Sound, IndexHeld, HeldBy, Counted, Linked;
    assert CommittedTags(SetLength(cfg, s, ft, count, size).tags) == CommittedTags(s.tags);
  }

  // ------------------------------------------------------------------ commit

  lemma RelinkSafe(cfg: Config, d: Disk, ft: FileTag, i: nat, owners: set<FileTag>)
    requires Sound(cfg, d) && Slot(ft, i) in d.links && ft !in owners
    requires IndexHeld(d, owners + {ft}) && HeldBy(d.links, 0, owners)
    requires cfg.hash(d.content[d.links[Slot(ft, i)]]) in d.index
    requires d.index[cfg.hash(d.content[d.links[Slot(ft, i)]])] != d.links[Slot(ft, i)]
    ensures var b := d.links[Slot(ft, i)];
            var r := Relink(d, b, d.index[cfg.hash(d.content[b])], Slot(ft, i));
            && Sound(cfg, r) && r.content == d.content && r.index == d.index
            && IndexHeld(r, owners + {ft}) && HeldBy(r.links, 0, owners)
            && (forall c :: 0 <= c < |r.bitmap| ==> r.bitmap[c] ==> d.bitmap[c])
  {
    var p := Slot(ft, i);
    var b := d.links[p];
    var e := d.index[cfg.hash(d.content[b])];
    var r := Relink(d, b, e, p);
    RelinkCounted(d, b, e, p);
    UnlinkCounted(d, p);
    AddLinkCounted(Unlink(d, p), e, p);
    UnusedIffAlone(AddLink(Unlink(d, p), e, p), b);
    assert r.links[p] == e;
    assert Held(d.links, e) by {
      StillHeld(d.links, d.links, e, owners + {ft});
    }
    MovedHolders(d.links, p, e);
    MovedOwners(d, r, p, e, owners, ft);
    hide Holders, HeldBy, Counted;
  }

  /** A link moved from a block to one that is held changes who is held at the first only. */
  lemma MovedHolders(links: map<Slot, nat>, p: Slot, e: nat)
    requires p in links && Held(links, e)
    ensures forall c: nat :: c != links[p] ==> (Held(links, c) <==> Held(links[p := e], c))
  {
    var moved := links[p := e];
    forall c: nat | c != links[p] ensures Held(links, c) <==> Held(moved, c) {
      if Held(links, c) {
        var q :| q in links && links[q] == c;
        assert q in moved && moved[q] == c;
      }
      if Held(moved, c) {
        var q :| q in moved && moved[q] == c;
        assert c == e || (q in links && links[q] == c);
      }
    }
  }

  /** A position moved off a block that is not indexed leaves indexed blocks and block 0 to their owners. */
  lemma MovedOwners(d: Disk, r: Disk, p: Slot, e: nat, owners: set<FileTag>, ft: FileTag)
    requires p in d.links && p.owner == ft && ft !in owners && r.links == d.links[p := e] && r.index == d.index
    requires forall h :: h in d.index ==> d.index[h] != d.links[p]
    requires IndexHeld(d, owners + {ft}) && HeldBy(d.links, 0, owners)
    ensures IndexHeld(r, owners + {ft}) && HeldBy(r.links, 0, owners)
  {
    forall h | h in r.index ensures HeldBy(r.links, r.index[h], owners + {ft}) {
      var q :| q in d.links && d.links[q] == d.index[h] && q.owner in owners + {ft};
      assert q in r.links && r.links[q] == d.index[h];
    }
    StillHeld(d.links, r.links, 0, owners);
  }

  /** One turn of the commit loop. */
  lemma DedupStepSafe(cfg: Config, d: Disk, ft: FileTag, blocks: seq<nat>, i: nat, owners: set<FileTag>)
    requires Sound(cfg, d) && InRange(d, blocks) && i < |blocks| && Owns(d.links, ft, blocks)
    requires ft !in owners && IndexHeld(d, owners + {ft}) && HeldBy(d.links, 0, owners)
    ensures var (r, blocks') := DedupStep(cfg, d, ft, blocks, i);
            && Sound(cfg, r) && r.content == d.content
            && IndexHeld(r, owners + {ft}) && HeldBy(r.links, 0, owners)
            && (forall b :: 0 <= b < |r.bitmap| ==> r.bitmap[b] ==> d.bitmap[b])
            && (forall h :: h in d.index ==> h in r.index && r.index[h] == d.index[h])
            && var h := cfg.hash(d.content[blocks[i]]);
               h in r.index && blocks'[i] == r.index[h]
  {
    var p := Slot(ft, i);
    assert p in d.links && d.links[p] == blocks[i];
    var h := cfg.hash(d.content[blocks[i]]);
    if h in d.index && d.index[h] != blocks[i] {
      RelinkSafe(cfg, d, ft, i, owners);
    }
  }

  /** The commit loop: contents stay, the index grows, no block is allocated, and every position from `i` on ends at the block the index names for its content. */
  lemma {:induction false} DedupSafe(cfg: Config, d: Disk, ft: FileTag, blocks: seq<nat>, i: nat, owners: set<FileTag>)
    requires Sound(cfg, d) && InRange(d, blocks) && i <= |blocks| && Owns(d.links, ft, blocks)
    requires ft !in owners && IndexHeld(d, owners + {ft}) && HeldBy(d.links, 0, owners)
    ensures var (r, blocks') := Dedup(cfg, d, ft, blocks, i);
            && Sound(cfg, r) && r.content == d.content
            && IndexHeld(r, owners + {ft}) && HeldBy(r.links, 0, owners)
            && (forall b :: 0 <= b < |r.bitmap| ==> r.bitmap[b] ==> d.bitmap[b])
            && (forall h :: h in d.index ==> h in r.index && r.index[h] == d.index[h])
            && |blocks'| == |blocks|
            && forall j :: i <= j < |blocks| ==>
                 var h := cfg.hash(d.content[blocks[j]]);
                 h in r.index && blocks'[j] == r.index[h]
    decreases |blocks| - i
  {
    if i < |blocks| {
      DedupStepSafe(cfg, d, ft, blocks, i, owners);
      DedupStepLinks(cfg, d, ft, blocks, i);
      var (d', blocks') := DedupStep(cfg, d, ft, blocks, i);
      DedupSafe(cfg, d', ft, blocks', i + 1, owners);
      DedupLinks(cfg, d', ft, blocks', i + 1);
      hide DedupStep, Sound, IndexHeld, HeldBy, Owns, Counted;
    }
  }

  /** Two positions of the tag with equal hashes have equal contents, and so has any block the index offers them. */
  ghost predicate CommitFaithful(cfg: Config, s: Store, ft: FileTag)
    requires StoreOk(s) && ft in s.tags
  {
    var blocks := s.tags[ft].blocks;
    var content := s.disk.content;
    && (forall i, j :: 0 <= i < |blocks| && 0 <= j < |blocks| ==>
          cfg.hash(content[blocks[i]]) == cfg.hash(content[blocks[j]]) ==> content[blocks[i]] == content[blocks[j]])
    && (forall i :: 0 <= i < |blocks| ==>
          cfg.hash(content[blocks[i]]) in s.disk.index ==>
          content[s.disk.index[cfg.hash(content[blocks[i]])]] == content[blocks[i]])
  }

  /** The loop as COMMIT starts it. */
  lemma CommitLoop(cfg: Config, s: Store, ft: FileTag)
    requires Safe(cfg, s) && ft in s.tags && !s.tags[ft].committed
    ensures var before := s.tags[ft].blocks;
            var (r, after) := Dedup(cfg, s.disk, ft, before, 0);
            && Sound(cfg, r) && r.content == s.disk.content
            && IndexHeld(r, CommittedTags(s.tags) + {ft})
            && HeldBy(r.links, 0, CommittedTags(s.tags) + {ft})
            && (forall b :: 0 <= b < |r.bitmap| ==> r.bitmap[b] ==> s.disk.bitmap[b])
            && |after| == |before|
            && (forall h :: h in s.disk.index ==> h in r.index && r.index[h] == s.disk.index[h])
            && (forall i :: 0 <= i < |before| ==>
                  var h := cfg.hash(s.disk.content[before[i]]);
                  h in r.index && after[i] == r.index[h])
  {
    var blocks := s.tags[ft].blocks;
    var owners := CommittedTags(s.tags);
    assert Owns(s.disk.links, ft, blocks);
    HeldByMore(s.disk.links, owners, ft);
    DedupSafe(cfg, s.disk, ft, blocks, 0, owners);
    HeldByMore(Dedup(cfg, s.disk, ft, blocks, 0).0.links, owners, ft);
  }

  /** COMMIT keeps the invariant, every stored block and the other tags, and allocates nothing. */
  lemma CommitSafe(cfg: Config, s: Store, ft: FileTag)
    requires Safe(cfg, s) && ft in s.tags && !s.tags[ft].committed
    ensures var s' := CommitFile(cfg, s, ft);
            && Safe(cfg, s')
            && s'.disk.content == s.disk.content
            && s'.tags == s.tags[ft := s.tags[ft].(blocks := s'.tags[ft].blocks, committed := true)]
            && |s'.tags[ft].blocks| == |s.tags[ft].blocks|
            && (forall b :: 0 <= b < |s.disk.bitmap| ==> s'.disk.bitmap[b] ==> s.disk.bitmap[b])
  {
    CommitBookkept(cfg, s, ft);
    CommitLoop(cfg, s, ft);
    var (r, after) := Dedup(cfg, s.disk, ft, s.tags[ft].blocks, 0);
    var s' := CommitFile(cfg, s, ft);
    assert s'.disk == r && s'.tags == s.tags[ft := s.tags[ft].(blocks := after, committed := true)];
    assert CommittedTags(s'.tags) == CommittedTags(s.tags) + {ft} by {
      CommittedAfterCommit(s.tags, ft, after);
    }
  }

  lemma CommittedAfterCommit(tags: Tags, ft: FileTag, blocks: seq<nat>)
    requires ft in tags
    ensures CommittedTags(tags[ft := tags[ft].(blocks := blocks, committed := true)]) == CommittedTags(tags) + {ft}
  {
  }

  lemma HeldByMore(links: map<Slot, nat>, owners: set<FileTag>, ft: FileTag)
    ensures forall b :: HeldBy(links, b, owners) ==> HeldBy(links, b, owners + {ft})
  {
    forall b | HeldBy(links, b, owners) ensures HeldBy(links, b, owners + {ft}) {
      var p :| p in links && links[p] == b && p.owner in owners;
    }
  }

  lemma CommitKeepsContents(cfg: Config, s: Store, ft: FileTag)
    requires Safe(cfg, s) && ft in s.tags && !s.tags[ft].committed
    ensures var s' := CommitFile(cfg, s, ft);
            Contents(s'.disk.content, s'.tags[ft].blocks) == Contents(s.disk.content, s.tags[ft].blocks)
            <==> CommitFaithful(cfg, s, ft)
  {
    CommitLoop(cfg, s, ft);
    var s' := CommitFile(cfg, s, ft);
    var before := s.tags[ft].blocks;
    var after := s'.tags[ft].blocks;
    var content := s.disk.content;
    hide Safe, Sound, IndexHeld, HeldBy, Dedup, CommittedTags;
    if CommitFaithful(cfg, s, ft) {
      forall i | 0 <= i < |before| ensures content[after[i]] == content[before[i]] {
        IndexOrigin(cfg, s, ft, i);
      }
    }
    if Contents(content, after) == Contents(content, before) {
      forall i | 0 <= i < |before| ensures content[after[i]] == content[before[i]] {
        assert Contents(content, after)[i] == Contents(content, before)[i];
      }
    }
  }

  /** What COMMIT puts at a position came from the old index or from the tag itself. */
  lemma IndexOrigin(cfg: Config, s: Store, ft: FileTag, i: nat)
    requires Safe(cfg, s) && ft in s.tags && !s.tags[ft].committed && i < |s.tags[ft].blocks|
    ensures var blocks := s.tags[ft].blocks;
            var after := Dedup(cfg, s.disk, ft, blocks, 0).1;
            var h := cfg.hash(s.disk.content[blocks[i]]);
            && i < |after|
            && if h in s.disk.index then after[i] == s.disk.index[h]
               else exists j :: 0 <= j < |blocks| && after[i] == blocks[j] && cfg.hash(s.disk.content[blocks[j]]) == h
  {
    CommitLoop(cfg, s, ft);
    var blocks := s.tags[ft].blocks;
    assert Owns(s.disk.links, ft, blocks);
    DedupOrigin(cfg, s.disk, ft, blocks, 0);
  }

  /** Every index entry the loop adds names a block of the list, under that block's own hash. */
  lemma {:induction false} DedupOrigin(cfg: Config, d: Disk, ft: FileTag, blocks: seq<nat>, i: nat)
    requires Counted(d) && InRange(d, blocks) && i <= |blocks| && Owns(d.links, ft, blocks)
    ensures var r := Dedup(cfg, d, ft, blocks, i).0;
            forall h :: h in r.index && h !in d.index ==>
              exists j :: i <= j < |blocks| && r.index[h] == blocks[j] && cfg.hash(d.content[blocks[j]]) == h
    ensures var r := Dedup(cfg, d, ft, blocks, i).0;
            forall h :: h in d.index ==> h in r.index && r.index[h] == d.index[h]
    decreases |blocks| - i
  {
    if i < |blocks| {
      DedupStepLinks(cfg, d, ft, blocks, i);
      var (d', moved) := DedupStep(cfg, d, ft, blocks, i);
      DedupOrigin(cfg, d', ft, moved, i + 1);
      OriginNext(cfg, d, ft, blocks, i, Dedup(cfg, d', ft, moved, i + 1).0);
    }
  }

  /** One turn adds at most the block at its own position. */
  lemma OriginNext(cfg: Config, d: Disk, ft: FileTag, blocks: seq<nat>, i: nat, r: Disk)
    requires DiskOk(d) && InRange(d, blocks) && i < |blocks|
    requires var (d', moved) := DedupStep(cfg, d, ft, blocks, i);
             && d'.content == d.content && moved == blocks[i := moved[i]]
             && (forall h :: h in d'.index ==> h in r.index && r.index[h] == d'.index[h])
             && forall h :: h in r.index && h !in d'.index ==>
                  exists j :: i + 1 <= j < |moved| && r.index[h] == moved[j] && cfg.hash(d.content[moved[j]]) == h
    ensures forall h :: h in d.index ==> h in r.index && r.index[h] == d.index[h]
    ensures forall h :: h in r.index && h !in d.index ==>
              exists j :: i <= j < |blocks| && r.index[h] == blocks[j] && cfg.hash(d.content[blocks[j]]) == h
  {
    var (d', moved) := DedupStep(cfg, d, ft, blocks, i);
    hide Relink;
    forall g | g in r.index && g !in d.index
      ensures exists j :: i <= j < |blocks| && r.index[g] == blocks[j] && cfg.hash(d.content[blocks[j]]) == g
    {
      if g !in d'.index {
        var j :| i + 1 <= j < |moved| && r.index[g] == moved[j] && cfg.hash(d.content[moved[j]]) == g;
        assert moved[j] == blocks[j];
      }
    }
  }
}
