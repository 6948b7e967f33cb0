/** When a READ or WRITE goes on with a freed page table, told from the states its turns reach, and runs in which the hazards strike. */
module MemoryHazards {
  import opened Common
  import opened Clock
  import opened Memory
  import opened MemoryInvariant
  import opened MemoryAccess
  import opened FlatMemory
  import opened MemoryRuns

  // ------------------------------------------------------------------ one turn

  /**
   The access finds memory full, its page beyond the end of its table, and the
   victim to be the last present page of that table.
   */
  ghost predicate Strikes(st: Setup, m: Memory, p: Pid, answer: Answer)
    requires Inv(st, m)
  {
    && answer.Loaded? && p !in m.pages && p.owner in m.lengths
    && |m.loaded| == st.frames && NextVictim(st, m).owner == p.owner
    && forall q :: q in m.pages && q.owner == p.owner && m.pages[q].present ==> q == NextVictim(st, m)
  }

  lemma TouchDanglesIff(st: Setup, m: Memory, p: Pid, write: bool, answer: Answer)
    requires Inv(st, m) && Answers(st, answer)
    ensures Touch(st, m, p, write, answer).1.Dangling? <==> Strikes(st, m, p, answer)
  {
    if p !in m.pages { DanglingIff(st, m, p, write); }
    hide LoadNew, LoadAbsent, PickVictim, Inv;
  }

  /** The page lies within its table, or a frame is free. */
  ghost predicate Room(st: Setup, m: Memory, ft: FileTag, num: nat, count: nat) {
    || (ft in m.lengths && num + count <= m.lengths[ft])
    || |m.loaded| + count <= st.frames
  }

  lemma RoomStrikesNot(st: Setup, m: Memory, ft: FileTag, num: nat, count: nat, answer: Answer)
    requires Inv(st, m) && Room(st, m, ft, num, count) && count > 0
    ensures !Strikes(st, m, Pid(ft, num), answer)
  {
  }

  lemma AssignGrowth(st: Setup, m: Memory, pending: set<Pid>)
    requires Tidy(st, m, None, pending) && forall p :: p in pending ==> p in m.pages && m.pages[p].present
    ensures FindFree(m.bitmap, 0).None? ==> |m.loaded| == st.frames
    ensures |AssignFrame(st, m).0.loaded| <= |m.loaded|
  {
    FullWhenNoneFree(st, m, pending);
    if FindFree(m.bitmap, 0).None? { var i := PickIsPicked(st, m); }
  }

  /** An access brings at most one page in, and leaves the length of its own table. */
  lemma AbsentGrowth(st: Setup, m: Memory, p: Pid, write: bool)
    requires Inv(st, m) && p in m.pages && !m.pages[p].present
    ensures var r := LoadAbsent(st, m, p, write);
            && |r.loaded| <= |m.loaded| + 1
            && p.owner in r.lengths && r.lengths[p.owner] == m.lengths[p.owner]
  {
    AbsentReady(st, m, p, write);
    MarkedTidy(st, m, p, write);
    AssignTidy(st, Marked(m, p, write), {p});
    AssignGrowth(st, Marked(m, p, write), {p});
    var (a, f) := AssignFrame(st, Marked(m, p, write));
    RegisterTidy(st, Placed(a, p, f), p, f);
    hide AssignFrame, FramesTidy, FrameList, HasPresent;
  }

  lemma NewGrowth(st: Setup, m: Memory, p: Pid, write: bool)
    requires Inv(st, m) && p !in m.pages && LoadNew(st, m, p, write).Some?
    ensures |LoadNew(st, m, p, write).value.loaded| <= |m.loaded| + 1
  {
    NewReady(st, m, p, write);
    AssignGrowth(st, m, {});
    var (a, f) := AssignFrame(st, m);
    RegisterTidy(st, ExtendTable(a, p.owner, p.num, Page(f, true, true, write)), p, f);
    hide AssignFrame, Tidy;
  }

  lemma TouchGrowth(st: Setup, m: Memory, p: Pid, write: bool, answer: Answer)
    requires Inv(st, m) && Answers(st, answer)
    requires Touch(st, m, p, write, answer).1.Done?
    ensures var r := Touch(st, m, p, write, answer).0;
            && |r.loaded| <= |m.loaded| + 1
            && (p in m.pages ==> p.owner in m.lengths && p.owner in r.lengths && r.lengths[p.owner] == m.lengths[p.owner])
  {
    if p in m.pages && !m.pages[p].present { AbsentGrowth(st, m, p, write); }
    if p !in m.pages && answer.Loaded? { NewGrowth(st, m, p, write); }
    hide LoadNew, LoadAbsent;
  }

  lemma RoomAfter(st: Setup, m: Memory, ft: FileTag, num: nat, count: nat, write: bool, answer: Answer)
    requires Inv(st, m) && Answers(st, answer) && Room(st, m, ft, num, count) && count > 0
    ensures var (r, outcome) := Touch(st, m, Pid(ft, num), write, answer);
            !outcome.Dangling? && (outcome.Done? ==> Room(st, r, ft, num + 1, count - 1))
  {
    RoomStrikesNot(st, m, ft, num, count, answer);
    TouchDanglesIff(st, m, Pid(ft, num), write, answer);
    if Touch(st, m, Pid(ft, num), write, answer).1.Done? { TouchGrowth(st, m, Pid(ft, num), write, answer); }
    assert ft in m.lengths && num < m.lengths[ft] ==> Pid(ft, num) in m.pages;
    hide Touch, Strikes, Inv;
  }

  // ------------------------------------------------------------------ the loops

  lemma WriteChunkTouches(st: Setup, m: Memory, p: Pid, off: nat, data: seq<byte>, answer: Answer)
    requires Inv(st, m) && Answers(st, answer) && off + |data| <= st.size
    ensures var (r, outcome) := WriteChunk(st, m, p, off, data, answer);
            && outcome == Touch(st, m, p, true, answer).1
            && r.lengths == Touch(st, m, p, true, answer).0.lengths && r.loaded == Touch(st, m, p, true, answer).0.loaded
  {
    hide Touch, Inv;
  }

  /** After `k` turns of the WRITE loop, none of which failed, the next one strikes. */
  ghost predicate WriteStruckAt(st: Setup, m: Memory, ft: FileTag, num: nat, off: nat, content: seq<byte>, ask: nat -> Answer, k: nat)
    requires Inv(st, m) && off < st.size && forall n :: Answers(st, ask(n))
  {
    var (r, outcome) := WriteLoop(st, m, ft, num, off, content, k, ask);
    outcome.Done? && Inv(st, r) && Strikes(st, r, Pid(ft, num + k), ask(num + k))
  }

  ghost predicate WriteStruck(st: Setup, m: Memory, ft: FileTag, num: nat, off: nat, content: seq<byte>, count: nat, ask: nat -> Answer)
    requires Inv(st, m) && off < st.size && forall n :: Answers(st, ask(n))
  {
    exists k: nat :: k < count && WriteStruckAt(st, m, ft, num, off, content, ask, k)
  }

  lemma WriteStruckFirst(st: Setup, m: Memory, ft: FileTag, num: nat, off: nat, content: seq<byte>, n: nat, ask: nat -> Answer)
    requires Inv(st, m) && off < st.size && forall n :: Answers(st, ask(n))
    requires n == Min(st.size - off, |content|) && n <= |content| && off + n <= st.size && Answers(st, ask(num))
    ensures WriteStruckAt(st, m, ft, num, off, content, ask, 0) <==>
            WriteChunk(st, m, Pid(ft, num), off, content[..n], ask(num)).1.Dangling?
  {
    hide Inv, Touch, WriteChunk, Strikes, WriteLoop;
    WriteLoopEnd(st, m, ft, num, off, content, ask);
    WriteChunkTouches(st, m, Pid(ft, num), off, content[..n], ask(num));
    TouchDanglesIff(st, m, Pid(ft, num), true, ask(num));
  }

  lemma WriteStruckLater(st: Setup, m: Memory, ft: FileTag, num: nat, off: nat, content: seq<byte>, n: nat, ask: nat -> Answer, k: nat)
    requires Inv(st, m) && off < st.size && forall n :: Answers(st, ask(n))
    requires n == Min(st.size - off, |content|) && n <= |content| && off + n <= st.size && Answers(st, ask(num)) && 0 < st.size
    ensures var (m', outcome) := WriteChunk(st, m, Pid(ft, num), off, content[..n], ask(num));
            if outcome.Done? then
              Inv(st, m') &&
              (WriteStruckAt(st, m, ft, num, off, content, ask, k + 1) <==>
               WriteStruckAt(st, m', ft, num + 1, 0, content[n..], ask, k))
            else !WriteStruckAt(st, m, ft, num, off, content, ask, k + 1)
  {
    hide Inv, WriteChunk, Strikes, WriteLoop;
    WriteLoopTurn(st, m, ft, num, off, content, k + 1, ask);
  }

  /** The WRITE loop goes on with a freed table exactly when one of its turns strikes in the state it reaches. */
  lemma {:induction false} WriteDanglesIff(st: Setup, m: Memory, ft: FileTag, num: nat, off: nat, content: seq<byte>, count: nat, ask: nat -> Answer)
    requires Inv(st, m) && off < st.size && forall n :: Answers(st, ask(n))
    ensures WriteLoop(st, m, ft, num, off, content, count, ask).1.Dangling? <==>
            WriteStruck(st, m, ft, num, off, content, count, ask)
    decreases count
  {
    hide Inv, WriteChunk, WriteLoop, WriteStruckAt, Min;
    if count == 0 {
      WriteLoopEnd(st, m, ft, num, off, content, ask);
    } else {
      WriteLoopTurn(st, m, ft, num, off, content, count, ask);
      var n := Min(st.size - off, |content|);
      var (m', outcome) := WriteChunk(st, m, Pid(ft, num), off, content[..n], ask(num));
      WriteStruckFirst(st, m, ft, num, off, content, n, ask);
      if outcome.Done? {
        var next, page, rest := m', num + 1, content[n..];
        forall k: nat | k > 0
          ensures WriteStruckAt(st, m, ft, num, off, content, ask, k) <==>
                  WriteStruckAt(st, next, ft, page, 0, rest, ask, k - 1)
        {
          WriteStruckLater(st, m, ft, num, off, content, n, ask, k - 1);
        }
        WriteDanglesIff(st, next, ft, page, 0, rest, count - 1, ask);
        WriteShift(st, m, ft, num, off, content, count, ask, next, page, rest);
      } else {
        forall k: nat | k > 0 ensures !WriteStruckAt(st, m, ft, num, off, content, ask, k) {
          WriteStruckLater(st, m, ft, num, off, content, n, ask, k - 1);
        }
        assert WriteStruckAt(st, m, ft, num, off, content, ask, 0) <==> outcome.Dangling?;
      }
    }
  }

  lemma WriteShift(st: Setup, m: Memory, ft: FileTag, num: nat, off: nat, content: seq<byte>, count: nat, ask: nat -> Answer, next: Memory, page: nat, rest: seq<byte>)
    requires Inv(st, m) && off < st.size && (forall i :: Answers(st, ask(i))) && Inv(st, next) && count > 0
    requires !WriteStruckAt(st, m, ft, num, off, content, ask, 0)
    requires forall k: nat :: k > 0 ==>
               (WriteStruckAt(st, m, ft, num, off, content, ask, k) <==>
                WriteStruckAt(st, next, ft, page, 0, rest, ask, k - 1))
    ensures WriteStruck(st, m, ft, num, off, content, count, ask) <==>
            WriteStruck(st, next, ft, page, 0, rest, count - 1, ask)
  {
    hide WriteStruckAt, Inv;
    if k: nat :| k < count && WriteStruckAt(st, m, ft, num, off, content, ask, k) {
      assert WriteStruckAt(st, next, ft, page, 0, rest, ask, k - 1);
    }
    if k: nat :| k < count - 1 && WriteStruckAt(st, next, ft, page, 0, rest, ask, k) {
      assert WriteStruckAt(st, next, ft, page, 0, rest, ask, (k + 1) - 1);
      assert WriteStruckAt(st, m, ft, num, off, content, ask, k + 1);
    }
  }

  /** Pages within the table, or enough free frames, keep the WRITE loop from it. */
  lemma {:induction false} WriteWithRoom(st: Setup, m: Memory, ft: FileTag, num: nat, off: nat, content: seq<byte>, count: nat, ask: nat -> Answer)
    requires Inv(st, m) && off < st.size && (forall n :: Answers(st, ask(n))) && Room(st, m, ft, num, count)
    ensures !WriteLoop(st, m, ft, num, off, content, count, ask).1.Dangling?
    decreases count
  {
    hide Inv, Touch, WriteChunk, WriteLoop;
    if count == 0 {
      WriteLoopEnd(st, m, ft, num, off, content, ask);
    } else {
      WriteLoopTurn(st, m, ft, num, off, content, count, ask);
      var n := Min(st.size - off, |content|);
      var (m', outcome) := WriteChunk(st, m, Pid(ft, num), off, content[..n], ask(num));
      WriteChunkTouches(st, m, Pid(ft, num), off, content[..n], ask(num));
      RoomAfter(st, m, ft, num, count, true, ask(num));
      if outcome.Done? {
        WriteWithRoom(st, m', ft, num + 1, 0, content[n..], count - 1, ask);
      }
    }
  }

  lemma ReadChunkTouches(st: Setup, m: Memory, p: Pid, off: nat, n: nat, answer: Answer)
    requires Inv(st, m) && Answers(st, answer) && off + n <= st.size
    ensures var (r, _, outcome) := ReadChunk(st, m, p, off, n, answer);
            && outcome == Touch(st, m, p, false, answer).1 && r == Touch(st, m, p, false, answer).0
  {
    hide Touch, Inv, FrameOf;
  }

  /** After `k` turns of the READ loop, none of which failed, the next one strikes. */
  ghost predicate ReadStruckAt(st: Setup, m: Memory, ft: FileTag, num: nat, off: nat, length: nat, ask: nat -> Answer, read: seq<byte>, k: nat)
    requires Inv(st, m) && off < st.size && forall n :: Answers(st, ask(n))
  {
    var (r, _, outcome) := ReadLoop(st, m, ft, num, off, length, k, ask, read);
    outcome.Done? && Inv(st, r) && Strikes(st, r, Pid(ft, num + k), ask(num + k))
  }

  ghost predicate ReadStruck(st: Setup, m: Memory, ft: FileTag, num: nat, off: nat, length: nat, count: nat, ask: nat -> Answer, read: seq<byte>)
    requires Inv(st, m) && off < st.size && forall n :: Answers(st, ask(n))
  {
    exists k: nat :: k < count && ReadStruckAt(st, m, ft, num, off, length, ask, read, k)
  }

  lemma ReadStruckFirst(st: Setup, m: Memory, ft: FileTag, num: nat, off: nat, length: nat, n: nat, ask: nat -> Answer, read: seq<byte>)
    requires Inv(st, m) && off < st.size && forall n :: Answers(st, ask(n))
    requires n == Min(st.size - off, length) && n <= length && off + n <= st.size && Answers(st, ask(num))
    ensures ReadStruckAt(st, m, ft, num, off, length, ask, read, 0) <==>
            ReadChunk(st, m, Pid(ft, num), off, n, ask(num)).2.Dangling?
  {
    hide Inv, Touch, ReadChunk, Strikes, ReadLoop;
    ReadLoopEnd(st, m, ft, num, off, length, ask, read);
    ReadChunkTouches(st, m, Pid(ft, num), off, n, ask(num));
    TouchDanglesIff(st, m, Pid(ft, num), false, ask(num));
  }

  lemma ReadStruckLater(st: Setup, m: Memory, ft: FileTag, num: nat, off: nat, length: nat, n: nat, ask: nat -> Answer, read: seq<byte>, k: nat)
    requires Inv(st, m) && off < st.size && forall n :: Answers(st, ask(n))
    requires n == Min(st.size - off, length) && n <= length && off + n <= st.size && Answers(st, ask(num)) && 0 < st.size
    ensures var (m', chunk, outcome) := ReadChunk(st, m, Pid(ft, num), off, n, ask(num));
            if outcome.Done? then
              Inv(st, m') &&
              (ReadStruckAt(st, m, ft, num, off, length, ask, read, k + 1) <==>
               ReadStruckAt(st, m', ft, num + 1, 0, length - n, ask, read + chunk, k))
            else !ReadStruckAt(st, m, ft, num, off, length, ask, read, k + 1)
  {
    hide Inv, ReadChunk, Strikes, ReadLoop;
    ReadLoopTurn(st, m, ft, num, off, length, k + 1, ask, read);
  }

  /** The READ loop goes on with a freed table exactly when one of its turns strikes in the state it reaches. */
  lemma {:induction false} ReadDanglesIff(st: Setup, m: Memory, ft: FileTag, num: nat, off: nat, length: nat, count: nat, ask: nat -> Answer, read: seq<byte>)
    requires Inv(st, m) && off < st.size && forall n :: Answers(st, ask(n))
    ensures ReadLoop(st, m, ft, num, off, length, count, ask, read).2.Dangling? <==>
            ReadStruck(st, m, ft, num, off, length, count, ask, read)
    decreases count
  {
    hide Inv, ReadChunk, ReadLoop, ReadStruckAt, Min;
    if count == 0 {
      ReadLoopEnd(st, m, ft, num, off, length, ask, read);
    } else {
      ReadLoopTurn(st, m, ft, num, off, length, count, ask, read);
      var n := Min(st.size - off, length);
      var (m', chunk, outcome) := ReadChunk(st, m, Pid(ft, num), off, n, ask(num));
      ReadStruckFirst(st, m, ft, num, off, length, n, ask, read);
      if outcome.Done? {
        var next, page, rest, after := m', num + 1, length - n, read + chunk;
        forall k: nat | k > 0
          ensures ReadStruckAt(st, m, ft, num, off, length, ask, read, k) <==>
                  ReadStruckAt(st, next, ft, page, 0, rest, ask, after, k - 1)
        {
          ReadStruckLater(st, m, ft, num, off, length, n, ask, read, k - 1);
        }
        ReadDanglesIff(st, next, ft, page, 0, rest, count - 1, ask, after);
        ReadShift(st, m, ft, num, off, length, count, ask, read, next, page, rest, after);
      } else {
        forall k: nat | k > 0 ensures !ReadStruckAt(st, m, ft, num, off, length, ask, read, k) {
          ReadStruckLater(st, m, ft, num, off, length, n, ask, read, k - 1);
        }
        assert ReadStruckAt(st, m, ft, num, off, length, ask, read, 0) <==> outcome.Dangling?;
      }
    }
  }

  lemma ReadShift(st: Setup, m: Memory, ft: FileTag, num: nat, off: nat, length: nat, count: nat, ask: nat -> Answer, read: seq<byte>, next: Memory, page: nat, rest: nat, after: seq<byte>)
    requires Inv(st, m) && off < st.size && (forall i :: Answers(st, ask(i))) && Inv(st, next) && count > 0
    requires !ReadStruckAt(st, m, ft, num, off, length, ask, read, 0)
    requires forall k: nat :: k > 0 ==>
               (ReadStruckAt(st, m, ft, num, off, length, ask, read, k) <==>
                ReadStruckAt(st, next, ft, page, 0, rest, ask, after, k - 1))
    ensures ReadStruck(st, m, ft, num, off, length, count, ask, read) <==>
            ReadStruck(st, next, ft, page, 0, rest, count - 1, ask, after)
  {
    hide ReadStruckAt, Inv;
    if k: nat :| k < count && ReadStruckAt(st, m, ft, num, off, length, ask, read, k) {
      assert ReadStruckAt(st, next, ft, page, 0, rest, ask, after, k - 1);
    }
    if k: nat :| k < count - 1 && ReadStruckAt(st, next, ft, page, 0, rest, ask, after, k) {
      assert ReadStruckAt(st, next, ft, page, 0, rest, ask, after, (k + 1) - 1);
      assert ReadStruckAt(st, m, ft, num, off, length, ask, read, k + 1);
    }
  }

  /** Pages within the table, or enough free frames, keep the READ loop from it. */
  lemma {:induction false} ReadWithRoom(st: Setup, m: Memory, ft: FileTag, num: nat, off: nat, length: nat, count: nat, ask: nat -> Answer, read: seq<byte>)
    requires Inv(st, m) && off < st.size && (forall n :: Answers(st, ask(n))) && Room(st, m, ft, num, count)
    ensures !ReadLoop(st, m, ft, num, off, length, count, ask, read).2.Dangling?
    decreases count
  {
    hide Inv, Touch, ReadChunk, ReadLoop;
    if count == 0 {
      ReadLoopEnd(st, m, ft, num, off, length, ask, read);
    } else {
      ReadLoopTurn(st, m, ft, num, off, length, count, ask, read);
      var n := Min(st.size - off, length);
      var (m', chunk, outcome) := ReadChunk(st, m, Pid(ft, num), off, n, ask(num));
      ReadChunkTouches(st, m, Pid(ft, num), off, n, ask(num));
      RoomAfter(st, m, ft, num, count, false, ask(num));
      if outcome.Done? {
        ReadWithRoom(st, m', ft, num + 1, 0, length - n, count - 1, ask, read + chunk);
      }
    }
  }

  // ------------------------------------------------------------------ requests

  /** Some turn of the request strikes in the state the turns before it reach. */
  ghost predicate Struck(st: Setup, m: Memory, r: Request)
    requires Inv(st, m) && Sensible(st, r)
  {
    match r
    case WriteAt(ft, base, content, ask) =>
      WriteStruck(st, m, ft, PageOf(st, base), ByteOf(st, base), content, Turns(st, |content|), ask)
    case ReadAt(ft, base, length, ask) =>
      ReadStruck(st, m, ft, PageOf(st, base), ByteOf(st, base), length, Turns(st, length), ask, [])
    case FlushOf(_, _) => false
  }

  /** A request ends with a freed table exactly when one of its turns strikes. */
  lemma ServeDanglesIff(st: Setup, m: Memory, r: Request)
    requires Inv(st, m) && Sensible(st, r)
    ensures Serve(st, m, r).1.Dangling? <==> Struck(st, m, r)
  {
    hide Inv, WriteLoop, ReadLoop, WriteStruck, ReadStruck, Turns;
    match r {
      case WriteAt(ft, base, content, ask) =>
        TransferStart(st, m, ft, base, content, 1, ask);
        WriteDanglesIff(st, m, ft, PageOf(st, base), ByteOf(st, base), content, Turns(st, |content|), ask);
      case ReadAt(ft, base, length, ask) =>
        TransferStart(st, m, ft, base, [0], length, ask);
        ReadDanglesIff(st, m, ft, PageOf(st, base), ByteOf(st, base), length, Turns(st, length), ask, []);
      case FlushOf(_, _) =>
    }
  }

  /** Known before the call: the pages the request covers lie in its table, or there is a free frame for each of them. */
  ghost predicate HasRoom(st: Setup, m: Memory, r: Request)
    requires st.Valid()
  {
    match r
    case WriteAt(ft, base, content, _) => Room(st, m, ft, PageOf(st, base), Turns(st, |content|))
    case ReadAt(ft, base, length, _) => Room(st, m, ft, PageOf(st, base), Turns(st, length))
    case FlushOf(_, _) => true
  }

  /** With room, no request ends with a freed table. */
  lemma RoomSuffices(st: Setup, m: Memory, r: Request)
    requires Inv(st, m) && Sensible(st, r) && HasRoom(st, m, r)
    ensures !Serve(st, m, r).1.Dangling?
  {
    hide Inv, WriteLoop, ReadLoop, Room, Turns;
    match r {
      case WriteAt(ft, base, content, ask) =>
        TransferStart(st, m, ft, base, content, 1, ask);
        WriteWithRoom(st, m, ft, PageOf(st, base), ByteOf(st, base), content, Turns(st, |content|), ask);
      case ReadAt(ft, base, length, ask) =>
        TransferStart(st, m, ft, base, [0], length, ask);
        ReadWithRoom(st, m, ft, PageOf(st, base), ByteOf(st, base), length, Turns(st, length), ask, []);
      case FlushOf(_, _) =>
    }
  }

  // ------------------------------------------------------------------ the hazards strike

  const FT := FileTag("A", "1")
  const BLANK: Answer := Loaded([0])

  /** Every block can be read, and holds one zero byte. */
  const ASK: nat -> Answer := (n: nat) => BLANK

  /** A page extends its table in the first free frame. */
  lemma FreshLoad(st: Setup, m: Memory, p: Pid, f: nat, write: bool)
    requires Inv(st, m) && p !in m.pages && FindFree(m.bitmap, 0) == Some(f)
    ensures |m.loaded| == f < st.frames && f < |m.bitmap|
    ensures var e := ExtendTable(m, p.owner, p.num, Page(f, true, true, write));
            LoadNew(st, m, p, write) == Some(e.(loaded := m.loaded + [p], bitmap := m.bitmap[f := true], history := m.history + [p]))
  {
    FullWhenNoneFree(st, m, {});
    NewReady(st, m, p, write);
    var e := ExtendTable(m, p.owner, p.num, Page(f, true, true, write));
    assert AssignFrame(st, m) == (m, f);
    assert e.loaded == m.loaded && e.bitmap == m.bitmap && |m.bitmap| == st.frames;
    RegisterTidy(st, e, p, f);
    RegisterShape(st, e, p, f, |m.loaded|);
    assert LoadNew(st, m, p, write) == Some(Register(st, e, p));
    hide *;
    InsertedLast(m.loaded, p);
  }

  lemma InsertedLast(s: seq<Pid>, p: Pid)
    ensures InsertAt(s, |s|, p) == s + [p]
  {
  }

  lemma PokeByte(st: Setup, bytes: seq<byte>, f: nat, x: byte)
    requires st.size == 1 && |bytes| == Start(1, st.frames) && f < st.frames
    ensures f < |bytes| && Poke(st, bytes, f, 0, [x]) == bytes[f := x]
  {
    StartIsProduct(1, f);
    StartIsProduct(1, st.frames);
  }

  /** Loading a new page into a free frame of one byte, and writing that byte. */
  lemma FreshWrite(st: Setup, m: Memory, num: nat, f: nat, x: byte)
    requires Inv(st, m) && st.size == 1 && Pid(FT, num) !in m.pages && FindFree(m.bitmap, 0) == Some(f)
    ensures |m.loaded| == f < |m.bytes| && f < |m.bitmap|
    ensures var p := Pid(FT, num);
            var e := ExtendTable(m, FT, num, Page(f, true, true, true));
            WriteChunk(st, m, p, 0, [x], BLANK)
            == (e.(loaded := m.loaded + [p], bitmap := m.bitmap[f := true], bytes := m.bytes[f := x], history := m.history + [p]), Done)
  {
    var p := Pid(FT, num);
    FreshLoad(st, m, p, f, true);
    PokeByte(st, m.bytes, f, x);
    assert Touch(st, m, p, true, BLANK) == (LoadNew(st, m, p, true).value, Done);
    hide Touch, LoadNew, Poke, Inv, Shaped;
  }

  /** The first page of a table, written in an empty memory. */
  function FirstLoaded(st: Setup, x: byte): Memory
    requires st.frames > 0 && st.size == 1
  {
    Memory(map[FT := 1], map[Pid(FT, 0) := Page(0, true, true, true)], [Pid(FT, 0)],
           Empty(st).bitmap[0 := true], seq(st.frames, _ => 0 as byte)[0 := x], 0, [], [Pid(FT, 0)])
  }

  lemma FirstState(st: Setup, x: byte)
    requires st.frames > 0 && st.size == 1
    ensures |Empty(st).bytes| == |Empty(st).bitmap| == st.frames && FindFree(Empty(st).bitmap, 0) == Some(0)
    ensures Pid(FT, 0) !in Empty(st).pages
    ensures ExtendTable(Empty(st), FT, 0, Page(0, true, true, true)).(
              loaded := Empty(st).loaded + [Pid(FT, 0)], bitmap := Empty(st).bitmap[0 := true], bytes := Empty(st).bytes[0 := x],
              history := Empty(st).history + [Pid(FT, 0)])
            == FirstLoaded(st, x)
  {
    StartIsProduct(1, st.frames);
    assert Empty(st).bytes == seq(st.frames, _ => 0 as byte);
    assert AbsentPages(FT, 0, 0) == map[];
    assert [] + [Pid(FT, 0)] == [Pid(FT, 0)];
  }

  lemma FirstWritten(st: Setup, x: byte)
    requires st.frames > 0 && st.size == 1
    ensures Inv(st, Empty(st)) && WriteChunk(st, Empty(st), Pid(FT, 0), 0, [x], BLANK) == (FirstLoaded(st, x), Done)
    ensures Inv(st, FirstLoaded(st, x))
  {
    EmptyInv(st);
    FirstState(st, x);
    hide *;
    FreshWrite(st, Empty(st), 0, 0, x);
  }

  /** A WRITE of one or two bytes over pages of one byte. */
  lemma ServeBytes(st: Setup, m: Memory, base: nat, content: seq<byte>)
    requires Inv(st, m) && st.size == 1 && 1 <= |content| <= 2
    ensures Answers(st, BLANK) && Sensible(st, WriteAt(FT, base, content, ASK))
    ensures Serve(st, m, WriteAt(FT, base, content, ASK)) == WriteLoop(st, m, FT, base, 0, content, |content|, ASK)
  {
    ByteAddress(st, base, |content|);
    assert forall n :: Answers(st, ASK(n));
    hide *;
    TransferStart(st, m, FT, base, content, 1, ASK);
    assert Sensible(st, WriteAt(FT, base, content, ASK)) by { SensibleBytes(st, base, content); }
    ServeWrite(st, m, FT, base, content, ASK);
  }

  lemma ByteAddress(st: Setup, base: nat, n: nat)
    requires st.Valid() && st.size == 1
    ensures PageOf(st, base) == base && ByteOf(st, base) == 0 && Turns(st, n) == n
  {
  }

  lemma SensibleBytes(st: Setup, base: nat, content: seq<byte>)
    requires st.size == 1 && |content| > 0
    ensures Sensible(st, WriteAt(FT, base, content, ASK))
  {
  }

  lemma ServeWrite(st: Setup, m: Memory, ft: FileTag, base: nat, content: seq<byte>, ask: nat -> Answer)
    requires Inv(st, m) && |content| > 0 && (forall n :: Answers(st, ask(n))) && Sensible(st, WriteAt(ft, base, content, ask))
    ensures Serve(st, m, WriteAt(ft, base, content, ask)) == WriteMemory(st, m, ft, base, content, ask)
  {
    hide Inv, WriteMemory;
  }

  /** With its one frame holding page 0, the next access to page 1 of that table strikes. */
  lemma OneFrameStrikes(st: Setup, x: byte)
    requires st.frames == 1 && st.size == 1 && Inv(st, FirstLoaded(st, x))
    ensures Strikes(st, FirstLoaded(st, x), Pid(FT, 1), BLANK)
  {
    var m := FirstLoaded(st, x);
    assert |m.loaded| == 1 && m.loaded[0] == Pid(FT, 0);
    hide Inv;
  }

  lemma SecondDangles(st: Setup, x: byte, y: byte)
    requires st.frames == 1 && st.size == 1 && Inv(st, FirstLoaded(st, x))
    ensures Answers(st, BLANK) && WriteChunk(st, FirstLoaded(st, x), Pid(FT, 1), 0, [y], BLANK).1.Dangling?
  {
    assert Answers(st, BLANK);
    hide *;
    OneFrameStrikes(st, x);
    TouchDanglesIff(st, FirstLoaded(st, x), Pid(FT, 1), true, BLANK);
    WriteChunkTouches(st, FirstLoaded(st, x), Pid(FT, 1), 0, [y], BLANK);
  }

  /** A turn of the WRITE loop over pages of one byte. */
  lemma ByteTurn(st: Setup, m: Memory, num: nat, x: byte, rest: seq<byte>, count: nat)
    requires Inv(st, m) && st.size == 1 && count > 0
    ensures var (next, outcome) := WriteChunk(st, m, Pid(FT, num), 0, [x], BLANK);
            var whole := WriteLoop(st, m, FT, num, 0, [x] + rest, count, ASK);
            if outcome.Done? then Inv(st, next) && whole == WriteLoop(st, next, FT, num + 1, 0, rest, count - 1, ASK)
            else whole == (next, outcome)
  {
    var content := [x] + rest;
    assert content[..1] == [x] && content[1..] == rest;
    hide Inv, WriteChunk, WriteLoop;
    WriteLoopTurn(st, m, FT, num, 0, content, count, ASK);
  }

  /** In a memory of one frame, a WRITE of two pages to a new table goes on with a table it has freed, under either policy. */
  lemma OneFrameDangles(policy: Policy)
    ensures var st := Setup(1, 1, policy); var r := WriteAt(FT, 0, [7, 8], ASK);
            Inv(st, Empty(st)) && Sensible(st, r) && Serve(st, Empty(st), r).1.Dangling?
  {
    var st := Setup(1, 1, policy);
    var m := FirstLoaded(st, 7);
    assert [7] + [8] == [7, 8] && [8] + [] == [8];
    hide *;
    FirstWritten(st, 7);
    ServeBytes(st, Empty(st), 0, [7, 8]);
    SecondDangles(st, 7, 8);
    ByteTurn(st, Empty(st), 0, 7, [8], 2);
    ByteTurn(st, m, 1, 8, [], 1);
  }

  // ------------------------------------------------------------------ write-back under another number

  /** Page 2 of the same table written next, in a memory of two frames: page 1 joins the table absent, as frame 0. */
  const LRU := Setup(2, 1, Lru)
  const TWICE := Memory(
    map[FT := 3],
    map[Pid(FT, 0) := Page(0, true, true, true), Pid(FT, 1) := Page(0, false, true, false), Pid(FT, 2) := Page(1, true, true, true)],
    [Pid(FT, 0), Pid(FT, 2)], [true, true], [7, 8], 0, [], [Pid(FT, 0), Pid(FT, 2)])

  lemma SecondState()
    ensures var m := FirstLoaded(LRU, 7);
            && |m.bytes| == |m.bitmap| == 2 && Pid(FT, 2) !in m.pages && FindFree(m.bitmap, 0) == Some(1)
            && ExtendTable(m, FT, 2, Page(1, true, true, true)).(
                 loaded := m.loaded + [Pid(FT, 2)], bitmap := m.bitmap[1 := true], bytes := m.bytes[1 := 8],
                 history := m.history + [Pid(FT, 2)]) == TWICE
  {
    var m := FirstLoaded(LRU, 7);
    assert m.bitmap == [true, false] && m.bytes == [7, 0];
    assert FindFree(m.bitmap, 0) == FindFree(m.bitmap, 1) == Some(1);
    assert AbsentPages(FT, 1, 1) == map[];
    assert AbsentPages(FT, 1, 2) == map[Pid(FT, 1) := Page(0, false, true, false)];
    assert [Pid(FT, 0)] + [Pid(FT, 2)] == [Pid(FT, 0), Pid(FT, 2)];
  }

  lemma SecondWritten()
    ensures Inv(LRU, FirstLoaded(LRU, 7))
    ensures WriteChunk(LRU, FirstLoaded(LRU, 7), Pid(FT, 2), 0, [8], BLANK) == (TWICE, Done)
  {
    FirstWritten(LRU, 7);
    SecondState();
    assert LRU.size == 1;
    hide *;
    FreshWrite(LRU, FirstLoaded(LRU, 7), 2, 1, 8);
  }

  /** One byte written to one page. */
  lemma ByteServed(st: Setup, m: Memory, num: nat, x: byte, next: Memory)
    requires Inv(st, m) && st.size == 1 && WriteChunk(st, m, Pid(FT, num), 0, [x], BLANK) == (next, Done)
    ensures var r := WriteAt(FT, num, [x], ASK); Sensible(st, r) && Serve(st, m, r) == (next, Done) && Inv(st, next)
  {
    assert [x] + [] == [x];
    hide *;
    ServeBytes(st, m, num, [x]);
    ByteTurn(st, m, num, x, [], 1);
    WriteLoopEnd(st, next, FT, num + 1, 0, [], ASK);
  }

  lemma ReachesTwo(st: Setup, m: Memory, a: Request, b: Request, m1: Memory, m2: Memory)
    requires Inv(st, m) && Sensible(st, a) && Serve(st, m, a) == (m1, Done)
    requires Inv(st, m1) && Sensible(st, b) && Serve(st, m1, b) == (m2, Done) && Inv(st, m2)
    ensures Reaches(st, m, [a, b], m2)
  {
    hide Inv, Serve, Sensible;
    assert [b][1..] == [] && Reaches(st, m1, [b], m2);
    assert [a, b][1..] == [b];
  }

  /** The run: two writes of one byte, after which the page evicted next, modified, is written back as page 1 though it is page 0. */
  lemma WriteBackMisses()
    ensures var rs := [WriteAt(FT, 0, [7], ASK), WriteAt(FT, 2, [8], ASK)];
            Inv(LRU, Empty(LRU)) && Reaches(LRU, Empty(LRU), rs, TWICE)
    ensures Inv(LRU, TWICE) && |TWICE.loaded| == LRU.frames
    ensures NextVictim(LRU, TWICE) == Pid(FT, 0) && TWICE.pages[Pid(FT, 0)].modified && WrittenBackAs(LRU, TWICE) == 1
  {
    assert LRU.size == 1 && LRU.frames == 2 && Pid(FT, 0) in TWICE.pages && TWICE.pages[Pid(FT, 0)].modified;
    hide *;
    var m := FirstLoaded(LRU, 7);
    FirstWritten(LRU, 7);
    SecondWritten();
    ByteServed(LRU, Empty(LRU), 0, 7, m);
    ByteServed(LRU, m, 2, 8, TWICE);
    ReachesTwo(LRU, Empty(LRU), WriteAt(FT, 0, [7], ASK), WriteAt(FT, 2, [8], ASK), m, TWICE);
    VictimOfTwo();
  }

  lemma VictimOfTwo()
    requires Inv(LRU, TWICE)
    ensures |TWICE.loaded| == LRU.frames
    ensures NextVictim(LRU, TWICE) == Pid(FT, 0) && WrittenBackAs(LRU, TWICE) == 1
  {
    var (picked, v) := PickVictim(LRU, TWICE);
    assert v == Pid(FT, 0) && picked.pages == TWICE.pages && picked.lengths == TWICE.lengths;
    hide PickVictim, Inv;
    assert PageWithFrame(picked, FT, 0, 3) == PageWithFrame(picked, FT, 0, 2) == Some(1);
  }
}
