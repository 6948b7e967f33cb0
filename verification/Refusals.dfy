/** What a READ or WRITE answers when the storage refuses a page: the code of the first one refused. */
module Refusals {
  import opened Common
  import opened Memory
  import opened MemoryInvariant
  import opened MemoryAccess
  import opened FlatMemory
  import opened MemoryRuns
  import opened MemoryHazards

  /** The page is not in memory, and the storage does not give its block. */
  ghost predicate Denied(m: Memory, p: Pid, answer: Answer, code: Code) {
    !(p in m.pages && m.pages[p].present) && answer == Refused(code)
  }

  lemma TouchFailsIff(st: Setup, m: Memory, p: Pid, write: bool, answer: Answer, code: Code)
    requires Inv(st, m) && Answers(st, answer)
    ensures Touch(st, m, p, write, answer).1 == Failed(code) <==> Denied(m, p, answer, code)
  {
    hide LoadNew, LoadAbsent, Inv;
  }

  lemma FailedKeeps(st: Setup, m: Memory, p: Pid, write: bool, answer: Answer)
    requires Inv(st, m) && Answers(st, answer)
    ensures Touch(st, m, p, write, answer).1.Failed? ==> Touch(st, m, p, write, answer).0 == m
  {
    hide LoadNew, LoadAbsent, Inv;
  }

  /** The first `k` turns of the WRITE loop succeed, and the storage refuses the page of the next one, which is not in memory. */
  ghost predicate WriteRefusedAt(st: Setup, m: Memory, ft: FileTag, num: nat, off: nat, content: seq<byte>, ask: nat -> Answer, k: nat, code: Code)
    requires Inv(st, m) && off < st.size && forall n :: Answers(st, ask(n))
  {
    var (s, outcome) := WriteLoop(st, m, ft, num, off, content, k, ask);
    outcome.Done? && Denied(s, Pid(ft, num + k), ask(num + k), code)
  }

  lemma WriteRefusedFirst(st: Setup, m: Memory, ft: FileTag, num: nat, off: nat, content: seq<byte>, n: nat, ask: nat -> Answer, code: Code)
    requires Inv(st, m) && off < st.size && forall n :: Answers(st, ask(n))
    requires n == Min(st.size - off, |content|) && n <= |content| && off + n <= st.size && Answers(st, ask(num))
    ensures WriteRefusedAt(st, m, ft, num, off, content, ask, 0, code) <==> WriteChunk(st, m, Pid(ft, num), off, content[..n], ask(num)).1 == Failed(code)
  {
    hide Inv, Touch, WriteChunk, WriteLoop;
    WriteLoopEnd(st, m, ft, num, off, content, ask);
    WriteChunkTouches(st, m, Pid(ft, num), off, content[..n], ask(num));
    TouchFailsIff(st, m, Pid(ft, num), true, ask(num), code);
  }

  lemma WriteRefusedLater(st: Setup, m: Memory, ft: FileTag, num: nat, off: nat, content: seq<byte>, n: nat, ask: nat -> Answer, k: nat, code: Code)
    requires Inv(st, m) && off < st.size && forall n :: Answers(st, ask(n))
    requires n == Min(st.size - off, |content|) && n <= |content| && off + n <= st.size && Answers(st, ask(num)) && 0 < st.size
    ensures var (next, outcome) := WriteChunk(st, m, Pid(ft, num), off, content[..n], ask(num));
            if outcome.Done? then
              Inv(st, next) &&
              (WriteRefusedAt(st, m, ft, num, off, content, ask, k + 1, code) <==>
               WriteRefusedAt(st, next, ft, num + 1, 0, content[n..], ask, k, code))
            else !WriteRefusedAt(st, m, ft, num, off, content, ask, k + 1, code)
  {
    hide Inv, WriteChunk, WriteLoop, Denied;
    WriteLoopTurn(st, m, ft, num, off, content, k + 1, ask);
  }

  /** A WRITE loop that fails stops at such a turn, with the storage's code. */
  lemma {:induction false} WriteFailsAt(st: Setup, m: Memory, ft: FileTag, num: nat, off: nat, content: seq<byte>, count: nat, ask: nat -> Answer, code: Code) returns (k: nat)
    requires Inv(st, m) && off < st.size && forall n :: Answers(st, ask(n))
    requires WriteLoop(st, m, ft, num, off, content, count, ask).1 == Failed(code)
    ensures k < count && WriteRefusedAt(st, m, ft, num, off, content, ask, k, code)
    decreases count
  {
    hide *;
    if count == 0 {
      WriteLoopEnd(st, m, ft, num, off, content, ask);
      assert false;
    } else {
      WriteLoopTurn(st, m, ft, num, off, content, count, ask);
      var n := Min(st.size - off, |content|);
      var (next, outcome) := WriteChunk(st, m, Pid(ft, num), off, content[..n], ask(num));
      if outcome.Done? {
        var later := WriteFailsAt(st, next, ft, num + 1, 0, content[n..], count - 1, ask, code);
        WriteRefusedLater(st, m, ft, num, off, content, n, ask, later, code);
        k := later + 1;
      } else {
        WriteRefusedFirst(st, m, ft, num, off, content, n, ask, code);
        k := 0;
      }
    }
  }

  /** At such a turn the WRITE loop fails with that code, leaving the state the turns before it reach. */
  lemma {:induction false} WriteStopsThere(st: Setup, m: Memory, ft: FileTag, num: nat, off: nat, content: seq<byte>, count: nat, ask: nat -> Answer, code: Code, k: nat)
    requires Inv(st, m) && off < st.size && (forall n :: Answers(st, ask(n))) && k < count
    requires WriteRefusedAt(st, m, ft, num, off, content, ask, k, code)
    ensures WriteLoop(st, m, ft, num, off, content, count, ask).0 == WriteLoop(st, m, ft, num, off, content, k, ask).0
    ensures WriteLoop(st, m, ft, num, off, content, count, ask).1 == Failed(code)
    decreases k
  {
    hide *;
    WriteLoopTurn(st, m, ft, num, off, content, count, ask);
    var n := Min(st.size - off, |content|);
    var (next, outcome) := WriteChunk(st, m, Pid(ft, num), off, content[..n], ask(num));
    if k == 0 {
      WriteRefusedFirst(st, m, ft, num, off, content, n, ask, code);
      WriteChunkTouches(st, m, Pid(ft, num), off, content[..n], ask(num));
      FailedKeeps(st, m, Pid(ft, num), true, ask(num));
      WriteFailedKeeps(st, m, Pid(ft, num), off, content[..n], ask(num));
      WriteLoopEnd(st, m, ft, num, off, content, ask);
    } else {
      WriteRefusedLater(st, m, ft, num, off, content, n, ask, k - 1, code);
      WriteLoopTurn(st, m, ft, num, off, content, k, ask);
      WriteStopsThere(st, next, ft, num + 1, 0, content[n..], count - 1, ask, code, k - 1);
    }
  }

  lemma WriteFailedKeeps(st: Setup, m: Memory, p: Pid, off: nat, data: seq<byte>, answer: Answer)
    requires Inv(st, m) && Answers(st, answer) && off + |data| <= st.size
    ensures WriteChunk(st, m, p, off, data, answer).1.Failed? ==> WriteChunk(st, m, p, off, data, answer).0 == m
  {
    FailedKeeps(st, m, p, true, answer);
    hide Touch, Inv, FrameOf;
  }

  /** The first `k` turns of the READ loop succeed, and the storage refuses the page of the next one, which is not in memory. */
  ghost predicate ReadRefusedAt(st: Setup, m: Memory, ft: FileTag, num: nat, off: nat, length: nat, ask: nat -> Answer, read: seq<byte>, k: nat, code: Code)
    requires Inv(st, m) && off < st.size && forall n :: Answers(st, ask(n))
  {
    var (s, _, outcome) := ReadLoop(st, m, ft, num, off, length, k, ask, read);
    outcome.Done? && Denied(s, Pid(ft, num + k), ask(num + k), code)
  }

  lemma ReadRefusedFirst(st: Setup, m: Memory, ft: FileTag, num: nat, off: nat, length: nat, n: nat, ask: nat -> Answer, read: seq<byte>, code: Code)
    requires Inv(st, m) && off < st.size && forall n :: Answers(st, ask(n))
    requires n == Min(st.size - off, length) && n <= length && off + n <= st.size && Answers(st, ask(num))
    ensures ReadRefusedAt(st, m, ft, num, off, length, ask, read, 0, code) <==> ReadChunk(st, m, Pid(ft, num), off, n, ask(num)).2 == Failed(code)
  {
    hide Inv, Touch, ReadChunk, ReadLoop;
    ReadLoopEnd(st, m, ft, num, off, length, ask, read);
    ReadChunkTouches(st, m, Pid(ft, num), off, n, ask(num));
    TouchFailsIff(st, m, Pid(ft, num), false, ask(num), code);
  }

  lemma ReadRefusedLater(st: Setup, m: Memory, ft: FileTag, num: nat, off: nat, length: nat, n: nat, ask: nat -> Answer, read: seq<byte>, k: nat, code: Code)
    requires Inv(st, m) && off < st.size && forall n :: Answers(st, ask(n))
    requires n == Min(st.size - off, length) && n <= length && off + n <= st.size && Answers(st, ask(num)) && 0 < st.size
    ensures var (next, chunk, outcome) := ReadChunk(st, m, Pid(ft, num), off, n, ask(num));
            if outcome.Done? then
              Inv(st, next) &&
              (ReadRefusedAt(st, m, ft, num, off, length, ask, read, k + 1, code) <==>
               ReadRefusedAt(st, next, ft, num + 1, 0, length - n, ask, read + chunk, k, code))
            else !ReadRefusedAt(st, m, ft, num, off, length, ask, read, k + 1, code)
  {
    hide Inv, ReadChunk, ReadLoop, Denied;
    ReadLoopTurn(st, m, ft, num, off, length, k + 1, ask, read);
  }

  /** A READ loop that fails stops at such a turn, with the storage's code. */
  lemma {:induction false} ReadFailsAt(st: Setup, m: Memory, ft: FileTag, num: nat, off: nat, length: nat, count: nat, ask: nat -> Answer, read: seq<byte>, code: Code) returns (k: nat)
    requires Inv(st, m) && off < st.size && forall n :: Answers(st, ask(n))
    requires ReadLoop(st, m, ft, num, off, length, count, ask, read).2 == Failed(code)
    ensures k < count && ReadRefusedAt(st, m, ft, num, off, length, ask, read, k, code)
    decreases count
  {
    hide *;
    if count == 0 {
      ReadLoopEnd(st, m, ft, num, off, length, ask, read);
      assert false;
    } else {
      ReadLoopTurn(st, m, ft, num, off, length, count, ask, read);
      var n := Min(st.size - off, length);
      var (next, chunk, outcome) := ReadChunk(st, m, Pid(ft, num), off, n, ask(num));
      if outcome.Done? {
        var later := ReadFailsAt(st, next, ft, num + 1, 0, length - n, count - 1, ask, read + chunk, code);
        ReadRefusedLater(st, m, ft, num, off, length, n, ask, read, later, code);
        k := later + 1;
      } else {
        ReadRefusedFirst(st, m, ft, num, off, length, n, ask, read, code);
        k := 0;
      }
    }
  }

  /** At such a turn the READ loop fails with that code, leaving the state the turns before it reach. */
  lemma {:induction false} ReadStopsThere(st: Setup, m: Memory, ft: FileTag, num: nat, off: nat, length: nat, count: nat, ask: nat -> Answer, read: seq<byte>, code: Code, k: nat)
    requires Inv(st, m) && off < st.size && (forall n :: Answers(st, ask(n))) && k < count
    requires ReadRefusedAt(st, m, ft, num, off, length, ask, read, k, code)
    ensures ReadLoop(st, m, ft, num, off, length, count, ask, read).0 == ReadLoop(st, m, ft, num, off, length, k, ask, read).0
    ensures ReadLoop(st, m, ft, num, off, length, count, ask, read).2 == Failed(code)
    decreases k
  {
    hide *;
    ReadLoopTurn(st, m, ft, num, off, length, count, ask, read);
    var n := Min(st.size - off, length);
    var (next, chunk, outcome) := ReadChunk(st, m, Pid(ft, num), off, n, ask(num));
    if k == 0 {
      ReadRefusedFirst(st, m, ft, num, off, length, n, ask, read, code);
      ReadChunkTouches(st, m, Pid(ft, num), off, n, ask(num));
      FailedKeeps(st, m, Pid(ft, num), false, ask(num));
      ReadFailedKeeps(st, m, Pid(ft, num), off, n, ask(num));
      ReadLoopEnd(st, m, ft, num, off, length, ask, read);
    } else {
      ReadRefusedLater(st, m, ft, num, off, length, n, ask, read, k - 1, code);
      ReadLoopTurn(st, m, ft, num, off, length, k, ask, read);
      ReadStopsThere(st, next, ft, num + 1, 0, length - n, count - 1, ask, read + chunk, code, k - 1);
    }
  }

  lemma ReadFailedKeeps(st: Setup, m: Memory, p: Pid, off: nat, n: nat, answer: Answer)
    requires Inv(st, m) && Answers(st, answer) && off + n <= st.size
    ensures ReadChunk(st, m, p, off, n, answer).2.Failed? ==> ReadChunk(st, m, p, off, n, answer).0 == m
  {
    FailedKeeps(st, m, p, false, answer);
    hide Touch, Inv, FrameOf;
  }

  // ------------------------------------------------------------------ requests

  /** Turn `k` of the request is the first one refused, with that code. */
  ghost predicate RefusedAt(st: Setup, m: Memory, r: Request, k: nat, code: Code)
    requires Inv(st, m) && Sensible(st, r)
  {
    match r
    case WriteAt(ft, base, content, ask) =>
      k < Turns(st, |content|) && WriteRefusedAt(st, m, ft, PageOf(st, base), ByteOf(st, base), content, ask, k, code)
    case ReadAt(ft, base, length, ask) =>
      k < Turns(st, length) && ReadRefusedAt(st, m, ft, PageOf(st, base), ByteOf(st, base), length, ask, [], k, code)
    case FlushOf(_, _) => false
  }

  /** A request fails with a code exactly when it is that of the first page, not in memory when its turn comes, that the storage refuses. */
  lemma ServeFailsIff(st: Setup, m: Memory, r: Request, code: Code)
    requires Inv(st, m) && Sensible(st, r)
    ensures Serve(st, m, r).1 == Failed(code) <==> exists k :: RefusedAt(st, m, r, k, code)
  {
    hide Inv, WriteLoop, ReadLoop, WriteRefusedAt, ReadRefusedAt, Turns, PageOf, ByteOf;
    match r {
      case WriteAt(ft, base, content, ask) =>
        TransferStart(st, m, ft, base, content, 1, ask);
        if Serve(st, m, r).1 == Failed(code) {
          var k := WriteFailsAt(st, m, ft, PageOf(st, base), ByteOf(st, base), content, Turns(st, |content|), ask, code);
          assert RefusedAt(st, m, r, k, code);
        }
        if k :| RefusedAt(st, m, r, k, code) {
          WriteStopsThere(st, m, ft, PageOf(st, base), ByteOf(st, base), content, Turns(st, |content|), ask, code, k);
        }
      case ReadAt(ft, base, length, ask) =>
        TransferStart(st, m, ft, base, [0], length, ask);
        if Serve(st, m, r).1 == Failed(code) {
          var k := ReadFailsAt(st, m, ft, PageOf(st, base), ByteOf(st, base), length, Turns(st, length), ask, [], code);
          assert RefusedAt(st, m, r, k, code);
        }
        if k :| RefusedAt(st, m, r, k, code) {
          ReadStopsThere(st, m, ft, PageOf(st, base), ByteOf(st, base), length, Turns(st, length), ask, [], code, k);
        }
      case FlushOf(_, _) =>
    }
  }
}
