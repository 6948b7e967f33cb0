/** The worker's interpreter loop and its listening thread as an object they update in place. */
module InterpreterModule {
  import opened Common
  import opened Scheduler
  import opened Preemption
  import opened PreemptionInvariant
  import opened Readings

  /**
   What happens around one line: whether an interrupt is read just before it,
   whether the instruction succeeds, whether writing memory back does.
   */
  datatype Choice = Choice(heard: bool, ok: bool, flushed: bool)

  function Before(d: Station, c: Choice): Station {
    if c.heard && d.inbox != [] && d.inbox[0].Evict? then Hear(d) else d
  }

  /** Turn after turn while there is a task, up to a crash; with the lines executed. */
  function Turns(script: seq<Line>, d: Station, cs: seq<Choice>): (Station, seq<int>)
    decreases |cs|
  {
    if cs == [] || d.current.None? || Crashes(script, Before(d, cs[0]), cs[0].ok) then (d, [])
    else
      var ready := Before(d, cs[0]);
      var (last, more) := Turns(script, Turn(script, ready, cs[0].ok, cs[0].flushed), cs[1..]);
      (last, Ran(script, ready) + more)
  }

  lemma BeforeCarried(d: Station, c: Choice, w: WorkerId, id: Id, length: nat, ran: nat, stored: int)
    requires Carried(d, w, id, length, ran, stored)
    ensures Carried(Before(d, c), w, id, length, ran, stored) && Before(d, c).current == d.current
  {
    if c.heard && d.inbox != [] && d.inbox[0].Evict? { HearCarried(d, w, id, length, ran, stored); }
  }

  /** A stretch of the loop executes consecutive lines from where the token is, and the token follows. */
  lemma {:induction false} TurnsCarried(script: seq<Line>, d: Station, cs: seq<Choice>, w: WorkerId, id: Id, ran: nat, stored: int)
    requires WellEnded(script) && Working(d, id, ran) && ran < |script|
    ensures var (last, lines) := Turns(script, d, cs);
            && (forall i :: 0 <= i < |lines| ==> lines[i] == ran + i)
            && (last.current.None? <==> Answering(last, ran + |lines|))
            && (last.current.Some? <==> Working(last, id, ran + |lines|))
            && ran + |lines| <= |script|
            && (last.current.Some? || last.outbox[|last.outbox| - 1].WasEvicted? ==> ran + |lines| < |script|)
    decreases |cs|
  {
    hide *;
    TokenAt(d, id, ran);
    if cs != [] && !Crashes(script, Before(d, cs[0]), cs[0].ok) {
      TurnLeaves(script, d, cs[0], w, id, ran, stored);
      TurnsNext(script, d, cs);
      var next := Turn(script, Before(d, cs[0]), cs[0].ok, cs[0].flushed);
      TokenAt(next, id, ran + 1);
      if next.current.Some? { TurnsCarried(script, next, cs[1..], w, id, ran + 1, stored); } else { TurnsEnd(script, next, cs[1..]); }
    } else {
      TurnsEnd(script, d, cs);
    }
  }

  lemma TokenAt(d: Station, id: Id, ran: nat)
    ensures Working(d, id, ran) ==> d.current.Some?
    ensures Answering(d, ran) ==> d.current.None? && d.outbox != []
  {
  }

  lemma TurnsEnd(script: seq<Line>, d: Station, cs: seq<Choice>)
    requires cs == [] || d.current.None? || Crashes(script, Before(d, cs[0]), cs[0].ok)
    ensures Turns(script, d, cs) == (d, [])
  {
  }

  lemma TurnsNext(script: seq<Line>, d: Station, cs: seq<Choice>)
    requires cs != [] && d.current.Some? && Before(d, cs[0]).current.Some? && !Crashes(script, Before(d, cs[0]), cs[0].ok)
    ensures var ready := Before(d, cs[0]); var (last, more) := Turns(script, Turn(script, ready, cs[0].ok, cs[0].flushed), cs[1..]);
            Turns(script, d, cs) == (last, Ran(script, ready) + more)
  {
    hide Turn, Crashes, Before, Ran;
  }

  /** One turn of a working interpreter. */
  lemma TurnLeaves(script: seq<Line>, d: Station, c: Choice, w: WorkerId, id: Id, ran: nat, stored: int)
    requires WellEnded(script) && Working(d, id, ran) && ran < |script| && !Crashes(script, Before(d, c), c.ok)
    ensures var ready := Before(d, c);
            && ready.current.Some? && Ran(script, ready) == [ran] && ran + 1 <= |script|
            && var next := Turn(script, ready, c.ok, c.flushed);
               if next.current.Some? then Working(next, id, ran + 1) && ran + 1 < |script|
               else Answering(next, ran + 1) && (next.outbox[|next.outbox| - 1].WasEvicted? ==> ran + 1 < |script|)
  {
    BeforeCarried(d, c, w, id, |script|, ran, stored);
    TurnCarried(script, Before(d, c), w, id, ran, stored, c.ok, c.flushed);
    BeforeInbox(d, c);
    hide WellEnded, Ran, Crashes, Before;
  }

  lemma BeforeInbox(d: Station, c: Choice)
    requires OnlyInterrupts(d.inbox)
    ensures OnlyInterrupts(Before(d, c).inbox) && Before(d, c).current == d.current
  {
  }

  class Interpreter {
    var inbox: seq<Order>
    var outbox: seq<Reply>
    var current: Option<Task>
    var interrupted: bool

    function View(): Station
      reads this
    {
      Station(inbox, outbox, current, interrupted)
    }

    constructor ()
      ensures View() == DESK
    {
      inbox, outbox, current, interrupted := [], [], None, false;
    }

    /** The listening thread takes one message: a query to run, or an interrupt. */
    method Listen()
      requires inbox != []
      modifies this
      ensures View() == Hear(old(View()))
    {
      var message := inbox[0];
      inbox := inbox[1..];
      match message {
        case Launch(_, id, pc) => current := Some(Task(id, pc));
        case Evict(_, _) => interrupted := true;
      }
    }

    /** Reads the interrupt flag and clears it. */
    method TakeInterrupt() returns (pending: bool)
      modifies `interrupted
      ensures pending == old(interrupted) && !interrupted
    {
      pending := interrupted;
      interrupted := false;
    }

    /** Executes one line of the script: it answers what its turn answers when no interrupt is pending. */
    method ExecuteLine(line: Line, ok: bool, ghost script: seq<Line>)
      requires current.Some? && HasLine(script, current.value.pc) && line == script[current.value.pc]
      modifies `outbox
      ensures outbox == Turn(script, old(View()).(interrupted := false), ok, true).outbox
      ensures !ok || line.End? ==> outbox == old(outbox) + [HasFinished]
      ensures ok && line.Read? ==> outbox == old(outbox) + [ReadResult]
      ensures ok && line.Other? ==> outbox == old(outbox)
    {
      if !ok {
        outbox := outbox + [HasFinished];
      } else {
        match line {
          case End => outbox := outbox + [HasFinished];
          case Read => outbox := outbox + [ReadResult];
          case Other =>
        }
      }
    }

    /** One turn: fetch, execute, look for an interrupt, go on; an interrupt taken on END is a crash. */
    method TakeTurn(script: seq<Line>, c: Choice) returns (ran: seq<int>, crashed: bool)
      requires current.Some?
      modifies `outbox, `current, `interrupted
      ensures crashed == Crashes(script, old(View()), c.ok) && ran == Ran(script, old(View()))
      ensures !crashed ==> View() == Turn(script, old(View()), c.ok, c.flushed)
      ensures Reads(outbox) == old(Reads(outbox)) + if c.ok && IsAt(script, old(View()), Read) then 1 else 0
    {
      hide Reads;
      ghost var was := View();
      TurnReads(script, was, c.ok, c.flushed);
      var task := current.value;
      var pc := task.pc;
      ran, crashed := [], false;
      if !HasLine(script, pc) {
        current := None;
        return;
      }
      ran := [pc];
      ExecuteLine(script[pc], c.ok, script);
      if !c.ok {
        current := None;
        return;
      }
      var stop := TakeInterrupt();
      if stop {
        if script[pc].End? {
          crashed := true;
          return;
        }
        outbox := outbox + [if c.flushed then WasEvicted(pc + 1) else HasFinished];
        current := None;
        return;
      }
      pc := pc + 1;
      current := if HasLine(script, pc) then Some(task.(pc := pc)) else None;
    }

    /** The interpreter loop, for as long as there are lines and choices. */
    method Interpret(script: seq<Line>, cs: seq<Choice>) returns (ran: seq<int>)
      modifies this
      ensures (View(), ran) == Turns(script, old(View()), cs)
    {
      ran := [];
      var i := 0;
      assert cs[0..] == cs && [] + Turns(script, View(), cs).1 == Turns(script, View(), cs).1;
      while i < |cs| && current.Some? && !Crashes(script, Before(View(), cs[i]), cs[i].ok)
        invariant 0 <= i <= |cs|
        invariant After(script, View(), cs[i..], ran) == Turns(script, old(View()), cs)
      {
        TurnsFrom(script, View(), cs, i, ran);
        if cs[i].heard && inbox != [] && inbox[0].Evict? { Listen(); }
        var lines, crashed := TakeTurn(script, cs[i]);
        ran := ran + lines;
        i := i + 1;
      }
      assert ran + [] == ran;
    }
  }

  /** What a turn adds to the results sent; at a crash the end was all it said. */
  lemma TurnReads(script: seq<Line>, d: Station, ok: bool, flushed: bool)
    requires d.current.Some?
    ensures Reads(d.outbox + [HasFinished]) == Reads(d.outbox)
    ensures !Crashes(script, d, ok) ==>
              Reads(Turn(script, d, ok, flushed).outbox) == Reads(d.outbox) + if ok && IsAt(script, d, Read) then 1 else 0
  {
    ReadsAppend(d.outbox, [HasFinished]);
    ReadsOne(HasFinished);
    if !Crashes(script, d, ok) {
      TurnAnswers(script, d, ok, flushed);
      var out := Turn(script, d, ok, flushed).outbox;
      hide Turn, Reads;
      assert out == d.outbox + out[|d.outbox|..];
      ReadsAppend(d.outbox, out[|d.outbox|..]);
    }
  }

  /** What the rest of the loop adds to what was already run. */
  ghost function After(script: seq<Line>, d: Station, cs: seq<Choice>, ran: seq<int>): (Station, seq<int>) {
    var (last, more) := Turns(script, d, cs); (last, ran + more)
  }

  lemma TurnsFrom(script: seq<Line>, d: Station, cs: seq<Choice>, i: nat, ran: seq<int>)
    requires i < |cs| && d.current.Some? && !Crashes(script, Before(d, cs[i]), cs[i].ok)
    ensures var ready := Before(d, cs[i]);
            After(script, d, cs[i..], ran) ==
            After(script, Turn(script, ready, cs[i].ok, cs[i].flushed), cs[i + 1..], ran + Ran(script, ready))
  {
    var ready := Before(d, cs[i]);
    assert cs[i..][0] == cs[i] && cs[i..][1..] == cs[i + 1..];
    var more := Turns(script, Turn(script, ready, cs[i].ok, cs[i].flushed), cs[i + 1..]).1;
    assert ran + (Ran(script, ready) + more) == ran + Ran(script, ready) + more;
  }
}
