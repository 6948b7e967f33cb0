/** The simple view of the store: a map from file:tag to its contents. Written without blocks, links, bitmap or index. */
module PlainStore {
  import opened Common
  import opened BlockStore

  datatype File = File(size: int, data: seq<Block>, committed: bool)

  datatype Plain = Plain(files: set<string>, tags: map<FileTag, File>)

  function Resized(data: seq<Block>, count: nat, blockSize: nat): (r: seq<Block>)
    ensures |r| == count
    ensures forall i :: 0 <= i < count ==> r[i] == if i < |data| then data[i] else Zeros(blockSize)
  {
    if |data| < count then data + seq(count - |data|, _ => Zeros(blockSize)) else data[..count]
  }

  function PlainStep(blockSize: nat, a: Plain, op: Op): (r: (Plain, Reply))
    requires blockSize > 0
    requires op.Truncate? ==> op.size + blockSize > 0
    requires op.WriteBlock? ==> |op.data| >= blockSize
    ensures r.1.code != Insufficient
  {
    var no := (code: Code) => (a, Reply(code, Zeros(blockSize)));
    var ok := (a': Plain) => (a', Reply(Correct, Zeros(blockSize)));
    if op.Unknown? then no(Forbidden)
    else if op.Create? then
      if op.ft.file in a.files then no(Preexisting)
      else ok(Plain(a.files + {op.ft.file}, a.tags[op.ft := File(0, [], false)]))
    else if op.ft.file !in a.files || op.ft !in a.tags then no(Missing)
    else
      var f := a.tags[op.ft];
      match op
      case Truncate(ft, size) =>
        if f.committed then no(Forbidden)
        else ok(a.(tags := a.tags[ft := File(size, Resized(f.data, TruncDiv(size, blockSize), blockSize), false)]))
      case MakeTag(_, dst) =>
        if dst.file !in a.files then no(Missing)
        else if dst in a.tags then no(Preexisting)
        else ok(a.(tags := a.tags[dst := File(|f.data| * blockSize, f.data, false)]))
      case Commit(ft) =>
        ok(a.(tags := a.tags[ft := f.(committed := true)]))
      case WriteBlock(ft, n, data) =>
        if f.committed then no(Forbidden)
        else if !(0 <= n < |f.data|) then no(OutOfLimit)
        else ok(a.(tags := a.tags[ft := f.(data := f.data[n := data[..blockSize]])]))
      case ReadBlock(_, n) =>
        if !(0 <= n < |f.data|) then no(OutOfLimit)
        else (a, Reply(Correct, f.data[n]))
      case Delete(ft) =>
        ok(a.(tags := a.tags - {ft}))
  }

  /**
   The replies explain how the plain store went from `a` to `a'`: every request
   acts as its plain counterpart and gets its reply, but a write may instead be
   turned down for lack of space, changing nothing.
   */
  predicate Explains(blockSize: nat, a: Plain, ops: seq<Op>, replies: seq<Reply>, a': Plain)
    requires blockSize > 0
    requires forall i :: 0 <= i < |ops| ==> ops[i].Truncate? ==> ops[i].size + blockSize > 0
    requires forall i :: 0 <= i < |ops| ==> ops[i].WriteBlock? ==> |ops[i].data| >= blockSize
    decreases |ops|
  {
    if ops == [] then replies == [] && a' == a
    else
      && replies != []
      && if replies[0].code == Insufficient then
           ops[0].WriteBlock? && Explains(blockSize, a, ops[1..], replies[1..], a')
         else
           var (next, reply) := PlainStep(blockSize, a, ops[0]);
           reply == replies[0] && Explains(blockSize, next, ops[1..], replies[1..], a')
  }

  /** In the plain store a committed tag stays as it is until it is deleted. */
  lemma {:induction false} CommittedIsFrozen(blockSize: nat, a: Plain, ops: seq<Op>, replies: seq<Reply>, a': Plain, ft: FileTag)
    requires blockSize > 0
    requires forall i :: 0 <= i < |ops| ==> ops[i].Truncate? ==> ops[i].size + blockSize > 0
    requires forall i :: 0 <= i < |ops| ==> ops[i].WriteBlock? ==> |ops[i].data| >= blockSize
    requires Explains(blockSize, a, ops, replies, a')
    requires ft in a.tags && a.tags[ft].committed && ft.file in a.files
    requires Delete(ft) !in ops
    ensures ft in a'.tags && a'.tags[ft] == a.tags[ft]
    decreases |ops|
  {
    if ops != [] {
      assert ops[0] in ops && forall op :: op in ops[1..] ==> op in ops;
      if replies[0].code == Insufficient {
        CommittedIsFrozen(blockSize, a, ops[1..], replies[1..], a', ft);
      } else {
        CommittedIsFrozen(blockSize, PlainStep(blockSize, a, ops[0]).0, ops[1..], replies[1..], a', ft);
      }
    }
  }
}

/** The block store refines the plain store, step by step and over every guarded run. */
module StoreRefinement {
  import opened Common
  import opened BlockStore
  import opened StoreLinks
  import opened StoreSafety
  import opened StoreOperations
  import opened StoreWrites
  import opened PlainStore

  function Abstract(s: Store): (a: Plain)
    requires StoreOk(s)
  {
    Plain(s.files,
          map ft | ft in s.tags :: File(s.tags[ft].size, Contents(s.disk.content, s.tags[ft].blocks), s.tags[ft].committed))
  }

  /** What a request needs beyond being well formed, checkable before it is served. */
  ghost predicate Guarded(cfg: Config, s: Store, op: Op)
    requires StoreOk(s)
  {
    && WellFormed(cfg, op)
    && (Refusal(s, op).None? ==>
          && (op.Delete? ==> DeleteHarmless(cfg, s, op.ft))
          && (op.Commit? && !s.tags[op.ft].committed ==> CommitFaithful(cfg, s, op.ft)))
  }

  // ------------------------------------------------------- one lemma per operation

  /** A change of one tag's metadata over unchanged blocks. */
  lemma AbstractUpdate(s: Store, s': Store, ft: FileTag)
    requires StoreOk(s) && StoreOk(s') && s'.disk.content == s.disk.content
    requires ft in s'.tags && s'.tags == s.tags[ft := s'.tags[ft]]
    ensures var m := s'.tags[ft];
            Abstract(s').tags == Abstract(s).tags[ft := File(m.size, Contents(s.disk.content, m.blocks), m.committed)]
  {
  }

  lemma TruncateRefines(cfg: Config, s: Store, ft: FileTag, count: nat, size: int)
    requires Safe(cfg, s) && ft in s.tags && !s.tags[ft].committed
    ensures var s' := SetLength(cfg, s, ft, count, size);
            && s'.tags == s.tags[ft := s'.tags[ft]]
            && s'.tags[ft].size == size && !s'.tags[ft].committed
            && s'.disk.content == s.disk.content
            && Contents(s'.disk.content, s'.tags[ft].blocks)
               == Resized(Contents(s.disk.content, s.tags[ft].blocks), count, cfg.blockSize)
  {
    SetLengthKeepsSafe(cfg, s, ft, count, size);
    assert s.disk.content[0] == Zeros(cfg.blockSize);
    hide Safe, LinkFrom, DropAll, Contents, Resized;
    ResizedContents(s.disk.content, s.tags[ft].blocks, count, cfg.blockSize);
  }

  /** Zero blocks beyond the list, or a prefix of it. */
  lemma ResizedContents(content: seq<Block>, blocks: seq<nat>, count: nat, size: nat)
    requires |content| > 0 && content[0] == Zeros(size) && forall i :: 0 <= i < |blocks| ==> blocks[i] < |content|
    ensures if |blocks| < count then Contents(content, blocks + seq(count - |blocks|, _ => 0)) == Resized(Contents(content, blocks), count, size)
            else Contents(content, blocks[..count]) == Resized(Contents(content, blocks), count, size)
  {
  }

  lemma TruncateAbstract(cfg: Config, s: Store, ft: FileTag, size: int)
    requires Safe(cfg, s) && Guarded(cfg, s, Truncate(ft, size)) && Refusal(s, Truncate(ft, size)).None?
    ensures Abstract(TruncateFile(cfg, s, ft, size)) == PlainStep(cfg.blockSize, Abstract(s), Truncate(ft, size)).0
  {
    TruncateRefines(cfg, s, ft, TruncDiv(size, cfg.blockSize), size);
    AbstractUpdate(s, TruncateFile(cfg, s, ft, size), ft);
  }

  lemma TagAbstract(cfg: Config, s: Store, ft: FileTag, dst: FileTag)
    requires Safe(cfg, s) && Refusal(s, MakeTag(ft, dst)).None?
    ensures Abstract(TagFile(cfg, s, ft, dst)) == PlainStep(cfg.blockSize, Abstract(s), MakeTag(ft, dst)).0
  {
    assert StoreOk(s) && InRange(s.disk, s.tags[ft].blocks);
    hide Safe, TagFile, Contents, Fills, StoreOk;
    TagSafe(cfg, s, ft, dst);
    TagMeta(cfg, s, ft, dst);
    AbstractUpdate(s, TagFile(cfg, s, ft, dst), dst);
    ContentsLength(s.disk.content, s.tags[ft].blocks);
  }

  lemma TagMeta(cfg: Config, s: Store, ft: FileTag, dst: FileTag)
    requires StoreOk(s) && ft in s.tags
    ensures var r := TagFile(cfg, s, ft, dst);
            r.files == s.files && r.tags[dst] == Meta(|s.tags[ft].blocks| * cfg.blockSize, s.tags[ft].blocks, false)
  {
    hide LinkFrom;
  }

  lemma ContentsLength(content: seq<Block>, blocks: seq<nat>)
    requires forall i :: 0 <= i < |blocks| ==> blocks[i] < |content|
    ensures |Contents(content, blocks)| == |blocks|
  {
  }

  lemma CommitAbstract(cfg: Config, s: Store, ft: FileTag)
    requires Safe(cfg, s) && Guarded(cfg, s, Commit(ft)) && Refusal(s, Commit(ft)).None?
    ensures Safe(cfg, CommitFile(cfg, s, ft))
    ensures Abstract(CommitFile(cfg, s, ft)) == PlainStep(cfg.blockSize, Abstract(s), Commit(ft)).0
  {
    if s.tags[ft].committed {
      assert Abstract(s).tags[ft := Abstract(s).tags[ft].(committed := true)] == Abstract(s).tags;
    } else {
      CommitSafe(cfg, s, ft);
      CommitKeepsContents(cfg, s, ft);
      AbstractUpdate(s, CommitFile(cfg, s, ft), ft);
    }
  }

  lemma PlainWrite(cfg: Config, s: Store, ft: FileTag, n: nat, data: Block)
    requires cfg.Valid() && StoreOk(s) && Refusal(s, WriteBlock(ft, n, data)).None? && |data| >= cfg.blockSize
    ensures var a := Abstract(s);
            && ft in a.tags && n < |a.tags[ft].data|
            && PlainStep(cfg.blockSize, a, WriteBlock(ft, n, data)).0
               == a.(tags := a.tags[ft := a.tags[ft].(data := a.tags[ft].data[n := data[..cfg.blockSize]])])
  {
  }

  lemma WriteAbstract(cfg: Config, s: Store, ft: FileTag, n: nat, data: Block)
    requires Safe(cfg, s) && Refusal(s, WriteBlock(ft, n, data)).None? && |data| >= cfg.blockSize
    requires WriteFile(cfg, s, ft, n, data).1 == Correct
    ensures Abstract(WriteFile(cfg, s, ft, n, data).0) == PlainStep(cfg.blockSize, Abstract(s), WriteBlock(ft, n, data)).0
  {
    PlainWrite(cfg, s, ft, n, data);
    assert ft in s.tags && !s.tags[ft].committed && 0 <= n < |s.tags[ft].blocks|;
    hide *;
    WriteIsolation(cfg, s, ft, n, data);
    IsolatedAbstract(s, WriteFile(cfg, s, ft, n, data).0, ft, n, data[..cfg.blockSize]);
  }

  lemma IsolatedAbstract(s: Store, s': Store, ft: FileTag, n: nat, block: Block)
    requires StoreOk(s) && StoreOk(s') && ft in s.tags && n < |s.tags[ft].blocks|
    requires Isolated(s, s', ft, n, block)
    ensures var f := Abstract(s).tags[ft];
            Abstract(s') == Abstract(s).(tags := Abstract(s).tags[ft := f.(data := f.data[n := block])])
  {
    var a, a' := Abstract(s), Abstract(s');
    forall t | t in s.tags ensures a'.tags[t] == if t == ft then a.tags[t].(data := a.tags[t].data[n := block]) else a.tags[t] {
      IsolatedTag(s, s', ft, n, block, t);
    }
    hide Contents, StoreOk;
    assert a'.tags.Keys == a.tags.Keys;
    assert a'.tags == a.tags[ft := a.tags[ft].(data := a.tags[ft].data[n := block])];
  }

  lemma IsolatedTag(s: Store, s': Store, ft: FileTag, n: nat, block: Block, t: FileTag)
    requires StoreOk(s) && StoreOk(s') && ft in s.tags && n < |s.tags[ft].blocks| && t in s.tags
    requires Isolated(s, s', ft, n, block)
    ensures t in Abstract(s).tags && t in Abstract(s').tags && |Abstract(s).tags[t].data| == |s.tags[t].blocks|
    ensures var f := Abstract(s).tags[t]; Abstract(s').tags[t] == if t == ft then f.(data := f.data[n := block]) else f
  {
    var before, after := Contents(s.disk.content, s.tags[t].blocks), Contents(s'.disk.content, s'.tags[t].blocks);
    assert |before| == |after| == |s.tags[t].blocks|;
    forall i | 0 <= i < |before| ensures after[i] == if t == ft && i == n then block else before[i] {
    }
    hide StoreOk, Isolated;
    if t == ft { assert after == before[n := block]; } else { assert after == before; }
  }

  lemma DeleteAbstract(cfg: Config, s: Store, ft: FileTag)
    requires Safe(cfg, s) && Refusal(s, Delete(ft)).None?
    ensures Abstract(DeleteTag(cfg, s, ft)) == PlainStep(cfg.blockSize, Abstract(s), Delete(ft)).0
  {
    DeleteEffect(cfg, s, ft);
  }

  // -------------------------------------------------------------------- steps

  lemma StepSafe(cfg: Config, s: Store, op: Op)
    requires Safe(cfg, s) && Guarded(cfg, s, op)
    ensures Safe(cfg, Step(cfg, s, op).0)
  {
    if Refusal(s, op).None? {
      match op
      case Create(ft) => CreateSafe(cfg, s, ft);
      case Truncate(ft, size) => TruncateSafe(cfg, s, ft, size);
      case MakeTag(ft, dst) => TagSafe(cfg, s, ft, dst);
      case Commit(ft) => CommitAbstract(cfg, s, ft);
      case WriteBlock(ft, n, data) => WriteSafe(cfg, s, ft, n, data);
      case ReadBlock(_, _) =>
      case Delete(ft) => DeleteSafeIff(cfg, s, ft);
    }
  }

  lemma RefusalRefines(cfg: Config, s: Store, op: Op)
    requires Safe(cfg, s) && WellFormed(cfg, op) && Refusal(s, op).Some?
    ensures (Abstract(s), Step(cfg, s, op).1) == PlainStep(cfg.blockSize, Abstract(s), op)
  {
  }

  lemma ReplyRefines(cfg: Config, s: Store, op: Op)
    requires Safe(cfg, s) && WellFormed(cfg, op) && Refusal(s, op).None?
    ensures var reply := Step(cfg, s, op).1;
            && (reply.code == Insufficient ==> op.WriteBlock? && Step(cfg, s, op).0 == s)
            && (reply.code != Insufficient ==> reply == PlainStep(cfg.blockSize, Abstract(s), op).1 && reply.code == Correct)
  {
    if op.WriteBlock? {
      WriteFailsIff(cfg, s, op.ft, op.n, op.data);
    }
  }

  lemma ServedRefines(cfg: Config, s: Store, op: Op)
    requires Safe(cfg, s) && Guarded(cfg, s, op) && Refusal(s, op).None?
    requires Step(cfg, s, op).1.code == Correct
    ensures Abstract(Step(cfg, s, op).0) == PlainStep(cfg.blockSize, Abstract(s), op).0
  {
    match op
    case Create(ft) => CreateAbstract(cfg, s, ft);
    case Truncate(ft, size) => TruncateAbstract(cfg, s, ft, size);
    case MakeTag(ft, dst) => TagAbstract(cfg, s, ft, dst);
    case Commit(ft) => CommitAbstract(cfg, s, ft);
    case WriteBlock(ft, n, data) => WriteAbstract(cfg, s, ft, n, data);
    case ReadBlock(_, _) =>
    case Delete(ft) => DeleteAbstract(cfg, s, ft);
  }

  /** Every request acts as its plain counterpart with the plain reply, or is a write turned down for lack of space; failures change nothing. */
  lemma StepRefines(cfg: Config, s: Store, op: Op)
    requires Safe(cfg, s) && Guarded(cfg, s, op)
    ensures var (s', reply) := Step(cfg, s, op);
            && Safe(cfg, s')
            && (if reply.code == Insufficient then op.WriteBlock?
                else (Abstract(s'), reply) == PlainStep(cfg.blockSize, Abstract(s), op))
            && (reply.code != Correct ==> s' == s)
  {
    StepSafe(cfg, s, op);
    if Refusal(s, op).Some? {
      RefusalRefines(cfg, s, op);
    } else {
      ReplyRefines(cfg, s, op);
      if Step(cfg, s, op).1.code == Correct { ServedRefines(cfg, s, op); }
    }
  }

  lemma CreateAbstract(cfg: Config, s: Store, ft: FileTag)
    requires Safe(cfg, s) && Refusal(s, Create(ft)).None?
    ensures Abstract(CreateFile(s, ft)) == PlainStep(cfg.blockSize, Abstract(s), Create(ft)).0
  {
    AbstractUpdate(s, CreateFile(s, ft), ft);
    assert Contents(s.disk.content, []) == [];
  }

  // --------------------------------------------------------------------- runs

  ghost predicate RunGuarded(cfg: Config, s: Store, ops: seq<Op>)
    requires cfg.Valid() && StoreOk(s)
    decreases |ops|
  {
    ops == [] || (Guarded(cfg, s, ops[0]) && RunGuarded(cfg, Step(cfg, s, ops[0]).0, ops[1..]))
  }

  function Replies(cfg: Config, s: Store, ops: seq<Op>): (r: seq<Reply>)
    requires cfg.Valid() && StoreOk(s) && AllWellFormed(cfg, ops)
    decreases |ops|
  {
    if ops == [] then []
    else
      var (s', reply) := Step(cfg, s, ops[0]);
      [reply] + Replies(cfg, s', ops[1..])
  }

  lemma {:induction false} RunIsWellFormed(cfg: Config, s: Store, ops: seq<Op>)
    requires cfg.Valid() && StoreOk(s) && RunGuarded(cfg, s, ops)
    ensures AllWellFormed(cfg, ops)
    decreases |ops|
  {
    if ops != [] {
      RunIsWellFormed(cfg, Step(cfg, s, ops[0]).0, ops[1..]);
      assert ops == [ops[0]] + ops[1..];
    }
  }

  lemma {:induction false} RunRefines(cfg: Config, s: Store, ops: seq<Op>)
    requires Safe(cfg, s) && RunGuarded(cfg, s, ops) && AllWellFormed(cfg, ops)
    ensures Safe(cfg, Run(cfg, s, ops))
    ensures Explains(cfg.blockSize, Abstract(s), ops, Replies(cfg, s, ops), Abstract(Run(cfg, s, ops)))
    decreases |ops|
  {
    if ops != [] {
      var (s', reply) := Step(cfg, s, ops[0]);
      StepRefines(cfg, s, ops[0]);
      RunRefines(cfg, s', ops[1..]);
      assert Replies(cfg, s, ops)[1..] == Replies(cfg, s', ops[1..]);
    }
  }

  /** No two contents have the same hash. */
  ghost predicate CollisionFree(cfg: Config) {
    forall x: Block, y: Block :: cfg.hash(x) == cfg.hash(y) ==> x == y
  }

  /** The plain way to stay guarded: never delete a committed tag. */
  ghost predicate DeletesOnlyUncommitted(cfg: Config, s: Store, ops: seq<Op>)
    requires cfg.Valid() && StoreOk(s) && AllWellFormed(cfg, ops)
    decreases |ops|
  {
    ops == [] ||
    (&& (ops[0].Delete? && Refusal(s, ops[0]).None? ==> !s.tags[ops[0].ft].committed)
     && DeletesOnlyUncommitted(cfg, Step(cfg, s, ops[0]).0, ops[1..]))
  }

  lemma {:induction false} UncommittedDeletesSuffice(cfg: Config, s: Store, ops: seq<Op>)
    requires Safe(cfg, s) && CollisionFree(cfg)
    requires AllWellFormed(cfg, ops) && DeletesOnlyUncommitted(cfg, s, ops)
    ensures RunGuarded(cfg, s, ops)
    decreases |ops|
  {
    if ops != [] {
      if ops[0].Delete? && Refusal(s, ops[0]).None? {
        DeleteOfUncommittedIsHarmless(cfg, s, ops[0].ft);
      }
      if ops[0].Commit? && Refusal(s, ops[0]).None? {
        CollisionFreeCommits(cfg, s, ops[0].ft);
      }
      StepSafe(cfg, s, ops[0]);
      UncommittedDeletesSuffice(cfg, Step(cfg, s, ops[0]).0, ops[1..]);
    }
  }

  lemma CollisionFreeCommits(cfg: Config, s: Store, ft: FileTag)
    requires Safe(cfg, s) && CollisionFree(cfg) && ft in s.tags
    ensures CommitFaithful(cfg, s, ft)
  {
  }

  lemma FreshSafe(cfg: Config)
    requires cfg.Valid()
    ensures Safe(cfg, Fresh(cfg))
  {
    FreshBookkept(cfg);
    var s := Fresh(cfg);
    assert Slot(INITIAL, 0) in s.disk.links && s.disk.links[Slot(INITIAL, 0)] == 0;
    assert INITIAL in CommittedTags(s.tags);
  }

  function FreshPlain(cfg: Config): Plain {
    Plain({INITIAL.file}, map[INITIAL := File(cfg.blockSize, [Zeros(cfg.blockSize)], true)])
  }

  lemma FreshAbstract(cfg: Config)
    requires cfg.Valid()
    ensures Abstract(Fresh(cfg)) == FreshPlain(cfg)
  {
    assert Contents(Fresh(cfg).disk.content, [0]) == [Zeros(cfg.blockSize)];
  }

  /** Over every guarded run of a fresh store, the replies are those of the plain map. */
  lemma StoreRefinesPlain(cfg: Config, ops: seq<Op>)
    requires cfg.Valid() && RunGuarded(cfg, Fresh(cfg), ops)
    ensures AllWellFormed(cfg, ops)
    ensures var s := Run(cfg, Fresh(cfg), ops);
            && Safe(cfg, s)
            && Explains(cfg.blockSize, FreshPlain(cfg), ops, Replies(cfg, Fresh(cfg), ops), Abstract(s))
  {
    RunIsWellFormed(cfg, Fresh(cfg), ops);
    FreshSafe(cfg);
    RunRefines(cfg, Fresh(cfg), ops);
    FreshAbstract(cfg);
  }

  /** A committed tag reads the same in every later state while it exists. */
  lemma CommittedReadsTheSame(cfg: Config, s: Store, ops: seq<Op>, ft: FileTag)
    requires Safe(cfg, s) && RunGuarded(cfg, s, ops) && AllWellFormed(cfg, ops)
    requires ft in s.tags && s.tags[ft].committed && Delete(ft) !in ops
    ensures var s' := Run(cfg, s, ops);
            && ft in s'.tags && s'.tags[ft].committed
            && Contents(s'.disk.content, s'.tags[ft].blocks) == Contents(s.disk.content, s.tags[ft].blocks)
  {
    RunRefines(cfg, s, ops);
    CommittedIsFrozen(cfg.blockSize, Abstract(s), ops, Replies(cfg, s, ops), Abstract(Run(cfg, s, ops)), ft);
    var s' := Run(cfg, s, ops);
    assert Abstract(s').tags[ft] == Abstract(s).tags[ft];
  }

  /** The four redundant structures agree in every state of a guarded run. */
  lemma StructuresAgree(cfg: Config, ops: seq<Op>)
    requires cfg.Valid() && RunGuarded(cfg, Fresh(cfg), ops)
    ensures AllWellFormed(cfg, ops)
    ensures var s := Run(cfg, Fresh(cfg), ops); var d := s.disk;
            && (forall b: nat :: b < |d.bitmap| ==> (d.bitmap[b] <==> d.nlink[b] > 1))
            && (forall b: nat :: b < |d.bitmap| ==> (d.bitmap[b] <==> References(s.tags, b) != {}))
            && (forall h :: h in d.index ==>
                  && cfg.hash(d.content[d.index[h]]) == h
                  && d.bitmap[d.index[h]]
                  && exists p :: p in References(s.tags, d.index[h]) && s.tags[p.owner].committed)
            && d.content[0] == Zeros(cfg.blockSize) && d.bitmap[0]
  {
    StoreRefinesPlain(cfg, ops);
    var s := Run(cfg, Fresh(cfg), ops);
    var d := s.disk;
    var owners := CommittedTags(s.tags);
    forall b: nat | b < |d.bitmap|
      ensures (d.bitmap[b] <==> d.nlink[b] > 1) && (d.bitmap[b] <==> References(s.tags, b) != {})
    {
      UnusedIffAlone(d, b);
      HoldersAreReferences(d.links, s.tags, b);
      if Held(d.links, b) {
        var p :| p in d.links && d.links[p] == b;
        assert p in Holders(d.links, b);
      }
    }
    StillHeld(d.links, d.links, 0, owners);
    forall h | h in d.index
      ensures d.bitmap[d.index[h]] && exists p :: p in References(s.tags, d.index[h]) && s.tags[p.owner].committed
    {
      var b := d.index[h];
      StillHeld(d.links, d.links, b, owners);
      HoldersAreReferences(d.links, s.tags, b);
      var p :| p in d.links && d.links[p] == b && p.owner in owners;
      assert p in Holders(d.links, b);
    }
  }

  /** COMMIT leaves the tag canonical: two positions share a block iff their contents are equal. */
  lemma CommitIsCanonical(cfg: Config, s: Store, ft: FileTag)
    requires Safe(cfg, s) && ft in s.tags && !s.tags[ft].committed && CommitFaithful(cfg, s, ft)
    ensures var s' := CommitFile(cfg, s, ft); var after := s'.tags[ft].blocks; var content := s'.disk.content;
            && (forall i :: 0 <= i < |after| ==>
                  cfg.hash(content[after[i]]) in s'.disk.index && after[i] == s'.disk.index[cfg.hash(content[after[i]])])
            && (forall i, j :: 0 <= i < |after| && 0 <= j < |after| ==>
                  (after[i] == after[j] <==> content[after[i]] == content[after[j]]))
  {
    CommitLoop(cfg, s, ft);
    CommitKeepsContents(cfg, s, ft);
    var s' := CommitFile(cfg, s, ft);
    var before := s.tags[ft].blocks;
    var after := s'.tags[ft].blocks;
    var content := s.disk.content;
    forall i | 0 <= i < |after| ensures content[after[i]] == content[before[i]] {
      assert Contents(content, after)[i] == Contents(content, before)[i];
    }
  }
}
