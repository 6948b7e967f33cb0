/**
 Why DELETE needs its condition: thirteen requests to a fresh store, under a hash
 without collisions, in which deleting a committed tag, whose block a
 work-in-progress tag shares, makes a later COMMIT change what a third tag reads.
 */
module UnguardedDelete {
  import opened Common
  import opened BlockStore
  import opened StoreLinks
  import opened StoreSafety
  import opened StoreOperations
  import opened StoreWrites
  import opened StoreRefinement

  /** Every byte as one character. */
  function ToyHash(b: Block): Hash {
    seq(|b|, i requires 0 <= i < |b| => b[i] as int as char)
  }

  const CFG := Config(1, 8, ToyHash)
  const A1 := FileTag("A", "1")
  const A2 := FileTag("A", "2")
  const B1 := FileTag("B", "1")

  const EMPTY: Block := [0]
  const ONE: Block := [1]
  const TWO: Block := [2]

  /** A:1 is written and committed, A:2 is its snapshot, B:1 writes the same content to a block of its own. */
  const PREPARATION: seq<Op> :=
    [Create(A1), Truncate(A1, 1), WriteBlock(A1, 0, ONE), Commit(A1), MakeTag(A1, A2),
     Create(B1), Truncate(B1, 1), WriteBlock(B1, 0, ONE)]

  /** The committed tag goes, its snapshot is overwritten, and B:1 is committed between two readings. */
  const FAILURE: seq<Op> :=
    [Delete(A1), WriteBlock(A2, 0, TWO), ReadBlock(B1, 0), Commit(B1), ReadBlock(B1, 0)]

  lemma NothingCollides()
    ensures CollisionFree(CFG)
  {
    forall x: Block, y: Block | ToyHash(x) == ToyHash(y) ensures x == y {
      assert |ToyHash(x)| == |ToyHash(y)|;
      forall i | 0 <= i < |x| ensures x[i] == y[i] {
        assert ToyHash(x)[i] == ToyHash(y)[i];
      }
    }
  }

  // ------------------------------------------------------------------ the states

  const H0 := ToyHash(EMPTY)
  const H1 := ToyHash(ONE)

  const C0: seq<Block> := [EMPTY, EMPTY, EMPTY, EMPTY, EMPTY, EMPTY, EMPTY, EMPTY]
  const C1 := C0[1 := ONE]
  const C2 := C1[2 := ONE]
  const C3 := C2[1 := TWO]

  const N0: seq<int> := [2, 1, 1, 1, 1, 1, 1, 1]
  const N1 := N0[0 := 3]
  const N2 := N1[0 := 2][1 := 2]
  const N3 := N2[1 := 3]
  const N4 := N3[0 := 3]
  const N5 := N4[0 := 2][2 := 2]
  const N6 := N5[1 := 2]

  const L0: map<Slot, nat> := map[Slot(INITIAL, 0) := 0]
  const L1 := L0[Slot(A1, 0) := 0]
  const L2 := L0[Slot(A1, 0) := 1]
  const L3 := L2[Slot(A2, 0) := 1]
  const L4 := L3[Slot(B1, 0) := 0]
  const L5 := L3[Slot(B1, 0) := 2]
  const L6 := L5 - {Slot(A1, 0)}

  const BITS0: seq<bool> := [true, false, false, false, false, false, false, false]
  const BITS1 := BITS0[1 := true]
  const BITS2 := BITS1[2 := true]

  const X0: map<Hash, nat> := map[H0 := 0]
  const X1 := X0[H1 := 1]

  const D0 := Disk(C0, N0, L0, BITS0, X0)
  const D1 := Disk(C0, N1, L1, BITS0, X0)
  const D2 := Disk(C1, N2, L2, BITS1, X0)
  const D3 := Disk(C1, N2, L2, BITS1, X1)
  const D4 := Disk(C1, N3, L3, BITS1, X1)
  const D5 := Disk(C1, N4, L4, BITS1, X1)
  const D6 := Disk(C2, N5, L5, BITS2, X1)
  const D7 := Disk(C2, N6, L6, BITS2, X1)
  const D8 := Disk(C3, N6, L6, BITS2, X1)

  const F0 := {INITIAL.file}
  const F1 := F0 + {"A"}
  const F2 := F1 + {"B"}

  const T0: Tags := map[INITIAL := Meta(1, [0], true)]
  const T1 := T0[A1 := Meta(0, [], false)]
  const T2 := T1[A1 := Meta(1, [0], false)]
  const T3 := T2[A1 := Meta(1, [1], false)]
  const T4 := T3[A1 := Meta(1, [1], true)]
  const T5 := T4[A2 := Meta(1, [1], false)]
  const T6 := T5[B1 := Meta(0, [], false)]
  const T7 := T6[B1 := Meta(1, [0], false)]
  const T8 := T7[B1 := Meta(1, [2], false)]
  const T9 := T8 - {A1}

  const START := Store(D6, F2, T8)
  const DELETED := Store(D7, F2, T9)
  const OVERWRITTEN := Store(D8, F2, T9)

  // -------------------------------------------- one request of each kind, served

  ghost predicate Serves(s: Store, op: Op, t: Store) {
    StoreOk(s) && WellFormed(CFG, op) && Step(CFG, s, op) == (t, Reply(Correct, EMPTY))
  }

  lemma Blank()
    ensures Zeros(CFG.blockSize) == EMPTY
  {
  }

  lemma Creating(s: Store, ft: FileTag)
    requires StoreOk(s) && ft.file !in s.files
    ensures Serves(s, Create(ft), CreateFile(s, ft))
  {
    Blank();
  }

  /** Truncating an empty tag to one block links block 0. */
  lemma Truncating(s: Store, ft: FileTag)
    requires StoreOk(s) && ft in s.tags && s.tags[ft] == Meta(0, [], false) && ft.file in s.files
    ensures Serves(s, Truncate(ft, 1), s.(disk := AddLink(s.disk, 0, Slot(ft, 0)), tags := s.tags[ft := Meta(1, [0], false)]))
  {
    Blank();
    var blocks := [] + seq(1, _ => 0);
    assert blocks == [0];
    assert LinkFrom(AddLink(s.disk, 0, Slot(ft, 0)), ft, blocks, 1) == AddLink(s.disk, 0, Slot(ft, 0));
  }

  /** Writing to a tag whose one block is the shared block 0 takes the first free block. */
  lemma Allocating(s: Store, ft: FileTag, f: nat)
    requires StoreOk(s) && ft in s.tags && s.tags[ft] == Meta(1, [0], false) && ft.file in s.files
    requires s.disk.nlink[0] != 2 && FindFree(s.disk.bitmap, 0) == Some(f)
    ensures var d := MoveLink(CFG, s.disk.(content := s.disk.content[f := ONE]), 0, f, Slot(ft, 0));
            && f < |d.bitmap|
            && Serves(s, WriteBlock(ft, 0, ONE), s.(disk := d.(bitmap := d.bitmap[f := true]), tags := s.tags[ft := Meta(1, [f], false)]))
  {
    Blank();
    assert ONE[..1] == ONE && [0][0 := f] == [f];
    hide MoveLink;
  }

  lemma Committing(s: Store, ft: FileTag, d: Disk, blocks: seq<nat>)
    requires StoreOk(s) && ft in s.tags && !s.tags[ft].committed && ft.file in s.files
    requires Dedup(CFG, s.disk, ft, s.tags[ft].blocks, 0) == (d, blocks)
    ensures Serves(s, Commit(ft), s.(disk := d, tags := s.tags[ft := s.tags[ft].(blocks := blocks, committed := true)]))
  {
    Blank();
    hide Dedup;
  }

  lemma Tagging(s: Store, ft: FileTag, dst: FileTag, b: nat)
    requires StoreOk(s) && ft in s.tags && s.tags[ft].blocks == [b] && ft.file in s.files && dst.file in s.files && dst !in s.tags
    requires b < |s.disk.content|
    ensures Serves(s, MakeTag(ft, dst), s.(disk := AddLink(s.disk, b, Slot(dst, 0)), tags := s.tags[dst := Meta(1, [b], false)]))
  {
    Blank();
    var d := AddLink(s.disk, b, Slot(dst, 0));
    assert LinkFrom(s.disk, dst, [b], 0) == LinkFrom(d, dst, [b], 1) == d;
    hide LinkFrom, AddLink;
  }

  lemma Deleting(s: Store, ft: FileTag, b: nat)
    requires StoreOk(s) && ft in s.tags && s.tags[ft].blocks == [b] && ft.file in s.files && b < |s.disk.content|
    ensures Serves(s, Delete(ft), s.(disk := DropLink(CFG, s.disk, b, Slot(ft, 0)), tags := s.tags - {ft}))
  {
    Blank();
    var d := DropLink(CFG, s.disk, b, Slot(ft, 0));
    assert Ascending(1) == [0];
    assert DropAll(CFG, s.disk, ft, [b], [0]) == DropAll(CFG, d, ft, [b], []) == d;
    hide DropAll, DropLink;
  }

  /** A write in place. */
  lemma Overwriting(s: Store, ft: FileTag, b: nat, data: Block)
    requires StoreOk(s) && ft in s.tags && s.tags[ft] == Meta(1, [b], false) && ft.file in s.files && |data| == 1
    requires b < |s.disk.content| && s.disk.nlink[b] == 2
    ensures Serves(s, WriteBlock(ft, 0, data), s.(disk := s.disk.(content := s.disk.content[b := data])))
  {
    Blank();
    assert data[..1] == data;
  }

  // -------------------------------------------------------------- the disks alone

  lemma FirstLinked()
    ensures DiskOk(D0) && |C0| == 8 && AddLink(D0, 0, Slot(A1, 0)) == D1
  {
  }

  lemma FirstMoved()
    ensures var w := D1.(content := C1); DiskOk(w) && |C1| == 8 && MoveLink(CFG, w, 0, 1, Slot(A1, 0)) == D2.(bitmap := BITS0)
  {
    var w := D1.(content := C1);
    assert L1 - {Slot(A1, 0)} == L0;
    assert Unlink(w, Slot(A1, 0)) == Disk(C1, N1[0 := 2], L0, BITS0, X0);
  }

  lemma FirstIndexed()
    ensures DiskOk(D2) && |C1| == 8 && Dedup(CFG, D2, A1, [1], 0) == (D3, [1])
  {
    assert H1 !in X0 by { assert H1[0] != H0[0]; }
    assert DedupStep(CFG, D2, A1, [1], 0) == (D3, [1]);
    assert Dedup(CFG, D3, A1, [1], 1) == (D3, [1]);
  }

  lemma SnapshotLinked()
    ensures DiskOk(D3) && |C1| == 8 && AddLink(D3, 1, Slot(A2, 0)) == D4
  {
  }

  lemma SecondLinked()
    ensures DiskOk(D4) && |C1| == 8 && AddLink(D4, 0, Slot(B1, 0)) == D5
  {
  }

  lemma SecondMoved()
    ensures var w := D5.(content := C2); DiskOk(w) && |C2| == 8 && MoveLink(CFG, w, 0, 2, Slot(B1, 0)) == D6.(bitmap := BITS1)
  {
    var w := D5.(content := C2);
    assert L4 - {Slot(B1, 0)} == L3;
    assert Unlink(w, Slot(B1, 0)) == Disk(C2, N4[0 := 2], L3, BITS1, X1);
  }

  lemma Dropped()
    ensures DiskOk(D6) && |C2| == 8 && DropLink(CFG, D6, 1, Slot(A1, 0)) == D7
  {
  }

  /** The index still offers block 1 for the content that block no longer holds. */
  lemma Redirected()
    ensures DiskOk(D8) && |C3| == 8
    ensures var (d, blocks) := Dedup(CFG, D8, B1, [2], 0); d.content == C3 && blocks == [1]
  {
    LastContents();
    var (d, blocks) := DedupStep(CFG, D8, B1, [2], 0);
    assert X1[H1] == 1;
    assert blocks == [1] && d.content == C3;
    assert Dedup(CFG, d, B1, [1], 1) == (d, [1]);
  }

  // ------------------------------------------------------------------ the requests

  const P0 := Store(D0, F0, T0)
  const P1 := Store(D0, F1, T1)
  const P2 := Store(D1, F1, T2)
  const P3 := Store(D2, F1, T3)
  const P4 := Store(D3, F1, T4)
  const P5 := Store(D4, F1, T5)
  const P6 := Store(D4, F2, T6)
  const P7 := Store(D5, F2, T7)

  lemma FreshIs()
    ensures Fresh(CFG) == P0 && StoreOk(P0)
  {
    Blank();
    assert Fresh(CFG).disk.content == C0;
    assert Fresh(CFG).disk.nlink == N0;
    assert Fresh(CFG).disk.bitmap == BITS0;
  }

  /** A step leaves a store that the next one can start from. */
  lemma Served(s: Store, op: Op, t: Store)
    requires Serves(s, op, t)
    ensures StoreOk(t)
  {
  }

  lemma FirstFile()
    requires StoreOk(P0)
    ensures Serves(P0, Create(A1), P1)
  {
    Creating(P0, A1);
    hide Serves, StoreOk;
  }

  lemma FirstLength()
    requires StoreOk(P1)
    ensures Serves(P1, Truncate(A1, 1), P2)
  {
    Truncating(P1, A1);
    FirstLinked();
    hide Serves, StoreOk, AddLink;
  }

  lemma FirstFree()
    ensures FindFree(BITS0, 0) == Some(1) && FindFree(BITS1, 0) == Some(2)
  {
    assert FindFree(BITS0, 0) == FindFree(BITS0, 1);
    assert FindFree(BITS1, 0) == FindFree(BITS1, 1) == FindFree(BITS1, 2);
  }

  lemma FirstWrite()
    requires StoreOk(P2)
    ensures Serves(P2, WriteBlock(A1, 0, ONE), P3)
  {
    FirstFree();
    Allocating(P2, A1, 1);
    FirstMoved();
    hide Serves, StoreOk, MoveLink, FindFree;
  }

  lemma FirstCommit()
    requires StoreOk(P3)
    ensures Serves(P3, Commit(A1), P4)
  {
    FirstIndexed();
    Committing(P3, A1, D3, [1]);
    hide Serves, StoreOk, Dedup;
  }

  lemma Snapshot()
    requires StoreOk(P4)
    ensures Serves(P4, MakeTag(A1, A2), P5)
  {
    Tagging(P4, A1, A2, 1);
    SnapshotLinked();
    hide Serves, StoreOk, AddLink;
  }

  lemma SecondFile()
    requires StoreOk(P5)
    ensures Serves(P5, Create(B1), P6)
  {
    Creating(P5, B1);
    hide Serves, StoreOk;
  }

  lemma SecondLength()
    requires StoreOk(P6)
    ensures Serves(P6, Truncate(B1, 1), P7)
  {
    Truncating(P6, B1);
    SecondLinked();
    hide Serves, StoreOk, AddLink;
  }

  lemma SecondWrite()
    requires StoreOk(P7)
    ensures Serves(P7, WriteBlock(B1, 0, ONE), START)
  {
    FirstFree();
    Allocating(P7, B1, 2);
    SecondMoved();
    hide Serves, StoreOk, MoveLink, FindFree;
  }

  lemma Deletion()
    requires StoreOk(START)
    ensures Serves(START, Delete(A1), DELETED)
  {
    Deleting(START, A1, 1);
    Dropped();
    hide Serves, StoreOk, DropLink;
  }

  lemma Overwrite()
    requires StoreOk(DELETED)
    ensures Serves(DELETED, WriteBlock(A2, 0, TWO), OVERWRITTEN)
  {
    Overwriting(DELETED, A2, 1, TWO);
    hide Serves, StoreOk;
  }

  /** The list and contents that decide what B:1 reads, before and after its COMMIT. */
  lemma BeforeLastCommit()
    ensures DiskOk(D8) && |C3| == 8 && C3[1] == TWO && C3[2] == ONE && D8.content == C3
    ensures B1 in T9 && T9[B1] == Meta(1, [2], false) && B1.file in F2
  {
    LastContents();
    Redirected();
    hide C3;
  }

  lemma LastContents()
    ensures |C3| == 8 && C3[1] == TWO && C3[2] == ONE
  {
    assert |C2| == 8 && C2[2] == ONE;
  }

  lemma LastCommit() returns (t: Store)
    requires StoreOk(OVERWRITTEN)
    ensures Serves(OVERWRITTEN, Commit(B1), t)
    ensures t.disk.content == C3 && t.files == F2 && B1 in t.tags && t.tags[B1].blocks == [1]
  {
    Redirected();
    BeforeLastCommit();
    hide Serves, StoreOk, Dedup, C3, D8, T9, F2;
    var d := Dedup(CFG, D8, B1, [2], 0).0;
    Committing(OVERWRITTEN, B1, d, [1]);
    t := OVERWRITTEN.(disk := d, tags := T9[B1 := Meta(1, [1], true)]);
  }

  /** What B:1 reads turns from 1 into 2 as it is committed. */
  lemma Turned() returns (t: Store)
    requires StoreOk(OVERWRITTEN)
    ensures Serves(OVERWRITTEN, Commit(B1), t)
    ensures Goes(OVERWRITTEN, ReadBlock(B1, 0), OVERWRITTEN, Reply(Correct, ONE))
    ensures Goes(t, ReadBlock(B1, 0), t, Reply(Correct, TWO))
  {
    BeforeLastCommit();
    t := LastCommit();
    hide Serves, Goes, StoreOk, C3, D8, T9, F2;
    Served(OVERWRITTEN, Commit(B1), t);
    Looking(OVERWRITTEN, B1, 2);
    Looking(t, B1, 1);
  }

  lemma Looking(s: Store, ft: FileTag, b: nat)
    requires StoreOk(s) && ft in s.tags && s.tags[ft].blocks == [b] && ft.file in s.files && b < |s.disk.content|
    ensures Goes(s, ReadBlock(ft, 0), s, Reply(Correct, s.disk.content[b]))
  {
    Blank();
  }

  // ------------------------------------------------------------------ the whole run

  const DONE := Reply(Correct, EMPTY)
  const EIGHT: seq<Reply> := [DONE, DONE, DONE, DONE, DONE, DONE, DONE, DONE]

  /** The readings of B:1 before and after its own COMMIT differ. */
  const OBSERVED: seq<Reply> := [DONE, DONE, Reply(Correct, ONE), DONE, Reply(Correct, TWO)]

  ghost predicate Goes(s: Store, op: Op, t: Store, reply: Reply) {
    StoreOk(s) && WellFormed(CFG, op) && Step(CFG, s, op) == (t, reply)
  }

  lemma ServesGoes(s: Store, op: Op, t: Store)
    requires Serves(s, op, t)
    ensures Goes(s, op, t, DONE)
  {
  }

  /** The states a run passes through, with the request and the reply between each two. */
  ghost predicate Path(states: seq<Store>, ops: seq<Op>, replies: seq<Reply>) {
    && |states| == |ops| + 1 && |replies| == |ops| && StoreOk(states[0])
    && forall i :: 0 <= i < |ops| ==> Goes(states[i], ops[i], states[i + 1], replies[i])
  }

  ghost predicate Yields(s: Store, ops: seq<Op>, replies: seq<Reply>, t: Store) {
    StoreOk(s) && AllWellFormed(CFG, ops) && Run(CFG, s, ops) == t && Replies(CFG, s, ops) == replies
  }

  lemma {:induction false} PathYields(states: seq<Store>, ops: seq<Op>, replies: seq<Reply>)
    requires Path(states, ops, replies)
    ensures Yields(states[0], ops, replies, states[|ops|])
    decreases |ops|
  {
    hide Step;
    if ops != [] {
      assert Goes(states[0], ops[0], states[1], replies[0]);
      PathYields(states[1..], ops[1..], replies[1..]);
      assert replies == [replies[0]] + replies[1..];
    }
  }

  lemma {:induction false} YieldsOn(s: Store, ops: seq<Op>, replies: seq<Reply>, m: Store, more: seq<Op>, others: seq<Reply>, t: Store)
    requires Yields(s, ops, replies, m) && Yields(m, more, others, t)
    ensures Yields(s, ops + more, replies + others, t)
    decreases |ops|
  {
    hide Step;
    if ops == [] {
      assert ops + more == more && replies + others == others;
    } else {
      var (next, reply) := Step(CFG, s, ops[0]);
      assert (ops + more)[0] == ops[0] && (ops + more)[1..] == ops[1..] + more;
      YieldsOn(next, ops[1..], replies[1..], m, more, others, t);
      assert replies + others == [reply] + (replies[1..] + others);
    }
  }

  lemma FirstHalf()
    ensures Fresh(CFG) == P0
    ensures Serves(P0, Create(A1), P1) && Serves(P1, Truncate(A1, 1), P2)
    ensures Serves(P2, WriteBlock(A1, 0, ONE), P3) && Serves(P3, Commit(A1), P4) && StoreOk(P4)
  {
    FreshIs();
    hide *;
    FirstFile();
    Served(P0, Create(A1), P1);
    FirstLength();
    Served(P1, Truncate(A1, 1), P2);
    FirstWrite();
    Served(P2, WriteBlock(A1, 0, ONE), P3);
    FirstCommit();
    Served(P3, Commit(A1), P4);
  }

  lemma SecondHalf()
    requires StoreOk(P4)
    ensures Serves(P4, MakeTag(A1, A2), P5) && Serves(P5, Create(B1), P6)
    ensures Serves(P6, Truncate(B1, 1), P7) && Serves(P7, WriteBlock(B1, 0, ONE), START) && StoreOk(START)
  {
    hide *;
    Snapshot();
    Served(P4, MakeTag(A1, A2), P5);
    SecondFile();
    Served(P5, Create(B1), P6);
    SecondLength();
    Served(P6, Truncate(B1, 1), P7);
    SecondWrite();
    Served(P7, WriteBlock(B1, 0, ONE), START);
  }

  const STATES: seq<Store> := [P0, P1, P2, P3, P4, P5, P6, P7, START]

  lemma PreparationGoes()
    ensures Goes(P0, Create(A1), P1, DONE) && Goes(P1, Truncate(A1, 1), P2, DONE)
    ensures Goes(P2, WriteBlock(A1, 0, ONE), P3, DONE) && Goes(P3, Commit(A1), P4, DONE)
    ensures Goes(P4, MakeTag(A1, A2), P5, DONE) && Goes(P5, Create(B1), P6, DONE)
    ensures Goes(P6, Truncate(B1, 1), P7, DONE) && Goes(P7, WriteBlock(B1, 0, ONE), START, DONE)
    ensures Fresh(CFG) == P0 && StoreOk(P0) && StoreOk(START)
  {
    hide *;
    FirstHalf();
    SecondHalf();
    FreshIs();
    ServesGoes(P0, Create(A1), P1);
    ServesGoes(P1, Truncate(A1, 1), P2);
    ServesGoes(P2, WriteBlock(A1, 0, ONE), P3);
    ServesGoes(P3, Commit(A1), P4);
    ServesGoes(P4, MakeTag(A1, A2), P5);
    ServesGoes(P5, Create(B1), P6);
    ServesGoes(P6, Truncate(B1, 1), P7);
    ServesGoes(P7, WriteBlock(B1, 0, ONE), START);
  }

  /** The starting state of the failure is what eight requests, each of them successful, make of a fresh store. */
  lemma StartIsReached()
    ensures AllWellFormed(CFG, PREPARATION) && Run(CFG, Fresh(CFG), PREPARATION) == START
    ensures Replies(CFG, Fresh(CFG), PREPARATION) == EIGHT
    ensures forall i :: 0 <= i < |EIGHT| ==> EIGHT[i].code == Correct
  {
    PreparationGoes();
    hide P0, P1, P2, P3, P4, P5, P6, P7, START, Goes, Run, Replies, AllWellFormed, Fresh, StoreOk;
    assert Path(STATES, PREPARATION, EIGHT);
    PathYields(STATES, PREPARATION, EIGHT);
  }

  lemma {:induction false} NoDeletion(s: Store, ops: seq<Op>)
    requires StoreOk(s) && AllWellFormed(CFG, ops) && forall i :: 0 <= i < |ops| ==> !ops[i].Delete?
    ensures DeletesOnlyUncommitted(CFG, s, ops)
    decreases |ops|
  {
    hide Step;
    if ops != [] { NoDeletion(Step(CFG, s, ops[0]).0, ops[1..]); }
  }

  lemma NothingDeleted()
    ensures forall i :: 0 <= i < |PREPARATION| ==> !PREPARATION[i].Delete?
  {
  }

  /** It satisfies the invariant, by the general theorem on runs. */
  lemma StartIsSafe()
    ensures Safe(CFG, START)
  {
    StartIsReached();
    NothingCollides();
    FreshSafe(CFG);
    assert CFG.Valid() && StoreOk(Fresh(CFG));
    NothingDeleted();
    hide *;
    NoDeletion(Fresh(CFG), PREPARATION);
    UncommittedDeletesSuffice(CFG, Fresh(CFG), PREPARATION);
    StoreRefinesPlain(CFG, PREPARATION);
  }

  /** Block 1, which the index names, is held by A:1 and a tag in progress only. */
  lemma SharedWithSnapshot()
    ensures A1 in T8 && T8[A1].blocks == [1] && !CommittedElsewhere(T8, A1, 1) && !OnlyIn(T8, A1, 1)
  {
    assert T8[A2] == Meta(1, [1], false) && T8[B1] == Meta(1, [2], false) && T8[INITIAL] == Meta(1, [0], true);
    assert forall t :: t in T8 ==> t == INITIAL || t == A1 || t == A2 || t == B1;
    assert A2 in T8 && T8[A2].blocks[0] == 1;
  }

  lemma DeleteIsNotHarmless()
    requires StoreOk(START)
    ensures A1 in START.tags && !DeleteHarmless(CFG, START, A1)
  {
    SharedWithSnapshot();
    assert H1 in START.disk.index && START.disk.index[H1] == 1;
    hide T8, OnlyIn, CommittedElsewhere;
  }

  lemma FailureGoes() returns (t: Store)
    ensures StoreOk(START) && Goes(START, Delete(A1), DELETED, DONE) && Goes(DELETED, WriteBlock(A2, 0, TWO), OVERWRITTEN, DONE)
    ensures Goes(OVERWRITTEN, ReadBlock(B1, 0), OVERWRITTEN, Reply(Correct, ONE))
    ensures Goes(OVERWRITTEN, Commit(B1), t, DONE) && Goes(t, ReadBlock(B1, 0), t, Reply(Correct, TWO))
  {
    hide *;
    PreparationGoes();
    Deletion();
    Served(START, Delete(A1), DELETED);
    Overwrite();
    Served(DELETED, WriteBlock(A2, 0, TWO), OVERWRITTEN);
    t := Turned();
    ServesGoes(START, Delete(A1), DELETED);
    ServesGoes(DELETED, WriteBlock(A2, 0, TWO), OVERWRITTEN);
    ServesGoes(OVERWRITTEN, Commit(B1), t);
  }

  lemma Failing() returns (t: Store)
    ensures Yields(START, FAILURE, OBSERVED, t)
  {
    t := FailureGoes();
    hide START, DELETED, OVERWRITTEN, Goes, Run, Replies, AllWellFormed, StoreOk;
    var states := [START, DELETED, OVERWRITTEN, OVERWRITTEN, t, t];
    assert Path(states, FAILURE, OBSERVED);
    PathYields(states, FAILURE, OBSERVED);
  }

  /**
   From a fresh store, under a hash without collisions, every request succeeds; the
   deletion is not harmless in the sound state it meets, and COMMIT then turns what
   B:1 reads from 1 into 2.
   */
  lemma UnguardedDeleteCorrupts()
    ensures CollisionFree(CFG)
    ensures Safe(CFG, START) && !DeleteHarmless(CFG, START, A1)
    ensures AllWellFormed(CFG, PREPARATION) && Run(CFG, Fresh(CFG), PREPARATION) == START
    ensures AllWellFormed(CFG, PREPARATION + FAILURE)
    ensures Replies(CFG, Fresh(CFG), PREPARATION + FAILURE) ==
            EIGHT + [DONE, DONE, Reply(Correct, ONE), DONE, Reply(Correct, TWO)]
  {
    NothingCollides();
    StartIsSafe();
    StartIsReached();
    PreparationGoes();
    DeleteIsNotHarmless();
    var t := Failing();
    hide CollisionFree, Safe, DeleteHarmless, Run, Replies, AllWellFormed, START, P0;
    YieldsOn(Fresh(CFG), PREPARATION, EIGHT, START, FAILURE, OBSERVED, t);
  }
}
