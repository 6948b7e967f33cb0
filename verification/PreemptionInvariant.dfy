/** Exactly-once, in-order execution over every run of the joined system. */
module PreemptionInvariant {
  import opened Common
  import opened Scheduler
  import opened SchedulerInvariant
  import opened SchedulerRuns
  import opened Preemption

  /** END is the last line and no other. */
  predicate WellEnded(script: seq<Line>) {
    |script| > 0 && forall i :: 0 <= i < |script| ==> (script[i].End? <==> i == |script| - 1)
  }

  /** The indices 0, 1, ... in order, with no gap and no repeat. */
  predicate Consecutive(lines: seq<int>) {
    forall i :: 0 <= i < |lines| ==> lines[i] == i
  }

  ghost predicate OnlyInterrupts(inbox: seq<Order>) {
    forall i :: 0 <= i < |inbox| ==> inbox[i].Evict?
  }

  ghost predicate OnlyReads(outbox: seq<Reply>) {
    forall i :: 0 <= i < |outbox| ==> outbox[i].ReadResult?
  }

  ghost predicate Idle(d: Station) {
    OnlyInterrupts(d.inbox) && d.outbox == [] && d.current.None?
  }

  /** The query is on its way: one launch in the inbox. */
  ghost predicate Travelling(d: Station, w: WorkerId, id: Id, pc: int) {
    && d.outbox == [] && d.current.None?
    && exists k :: 0 <= k < |d.inbox| && d.inbox[k] == Launch(w, id, pc)
                   && OnlyInterrupts(d.inbox[..k]) && OnlyInterrupts(d.inbox[k + 1..])
  }

  ghost predicate Working(d: Station, id: Id, pc: int) {
    OnlyInterrupts(d.inbox) && OnlyReads(d.outbox) && d.current == Some(Task(id, pc))
  }

  /** The last answer is on its way: the end, or the line to go on at. */
  ghost predicate Answering(d: Station, pc: int) {
    && OnlyInterrupts(d.inbox) && d.current.None? && d.outbox != []
    && OnlyReads(d.outbox[..|d.outbox| - 1])
    && (d.outbox[|d.outbox| - 1].HasFinished? || d.outbox[|d.outbox| - 1] == WasEvicted(pc))
  }

  /** Where the one token of a query that a worker runs is: `ran` lines done, `stored` the master's counter. */
  ghost predicate Carried(d: Station, w: WorkerId, id: Id, length: nat, ran: nat, stored: int) {
    || (Travelling(d, w, id, ran) && stored == ran && ran < length)
    || (Working(d, id, ran) && ran < length)
    || (Answering(d, ran) && (d.outbox[|d.outbox| - 1].WasEvicted? ==> ran < length))
  }

  ghost predicate StationOk(scripts: Id -> seq<Line>, s: System, w: WorkerId)
    requires w in s.stations && w in s.master.workers
  {
    var id := s.master.workers[w];
    if id < 0 then Idle(s.stations[w])
    else
      && id in s.log && id in s.master.queries
      && Carried(s.stations[w], w, id as Id, |scripts(id as Id)|, |s.log[id as Id]|, s.master.queries[id as Id].pc)
  }

  ghost predicate Waits(m: Master, id: Id) {
    id in m.arrived || id in m.ready || id in m.evicted
  }

  /** A query that waits goes on right after the last line it ran, and that line exists. */
  ghost predicate WaitingOk(scripts: Id -> seq<Line>, s: System, id: Id) {
    Waits(s.master, id) ==> id in s.log && id in s.master.queries && s.master.queries[id].pc == |s.log[id]| < |scripts(id)|
  }

  /** Logs, stations and waiting queries agree. */
  ghost predicate AllOk(scripts: Id -> seq<Line>, s: System) {
    && s.stations.Keys == s.master.workers.Keys
    && (forall id :: id in s.log ==> Consecutive(s.log[id]) && |s.log[id]| <= |scripts(id)|)
    && (forall w :: w in s.stations ==> StationOk(scripts, s, w))
    && (forall id :: WaitingOk(scripts, s, id))
  }

  ghost predicate Steady(st: Setup, scripts: Id -> seq<Line>, s: System) {
    Inv(st, s.master) && AllOk(scripts, s)
  }

  // ------------------------------------------------------------------- worker

  /** Reading a message moves the token from the inbox to the interpreter, or leaves it. */
  lemma HearCarried(d: Station, w: WorkerId, id: Id, length: nat, ran: nat, stored: int)
    requires Carried(d, w, id, length, ran, stored) && d.inbox != []
    ensures Carried(Hear(d), w, id, length, ran, stored)
  {
    var r := Hear(d);
    if Travelling(d, w, id, ran) {
      var k :| 0 <= k < |d.inbox| && d.inbox[k] == Launch(w, id, ran)
               && OnlyInterrupts(d.inbox[..k]) && OnlyInterrupts(d.inbox[k + 1..]);
      if k == 0 {
        assert Working(r, id, ran);
      } else {
        assert d.inbox[0] == d.inbox[..k][0];
        assert r.inbox[k - 1] == Launch(w, id, ran);
        assert r.inbox[..k - 1] == d.inbox[..k][1..] && r.inbox[k..] == d.inbox[k + 1..];
        assert Travelling(r, w, id, ran);
      }
    } else {
      assert d.inbox[0].Evict?;
    }
  }

  /** Executing a line advances the token with the log. */
  lemma TurnCarried(script: seq<Line>, d: Station, w: WorkerId, id: Id, ran: nat, stored: int, ok: bool, flushed: bool)
    requires WellEnded(script) && Carried(d, w, id, |script|, ran, stored) && d.current.Some? && !Crashes(script, d, ok)
    ensures d.current == Some(Task(id, ran)) && Ran(script, d) == [ran]
    ensures Carried(Turn(script, d, ok, flushed), w, id, |script|, ran + 1, stored)
  {
    assert Working(d, id, ran);
    var r := Turn(script, d, ok, flushed);
    if r.current.None? {
      assert |r.outbox| > |d.outbox|;
      var n := |r.outbox| - 1;
      assert forall i :: 0 <= i < n ==> r.outbox[..n][i].ReadResult?;
      assert Answering(r, ran + 1);
    } else {
      assert Working(r, id, ran + 1);
    }
  }

  /** One more interrupt changes nothing of where the token is. */
  lemma InterruptCarried(d: Station, o: Order, w: WorkerId, id: Id, length: nat, ran: nat, stored: int)
    requires Carried(d, w, id, length, ran, stored) && o.Evict?
    ensures Carried(d.(inbox := d.inbox + [o]), w, id, length, ran, stored)
  {
    if Travelling(d, w, id, ran) { InterruptTravelling(d, o, w, id, ran); }
    hide Travelling;
  }

  lemma InterruptTravelling(d: Station, o: Order, w: WorkerId, id: Id, ran: nat)
    requires Travelling(d, w, id, ran) && o.Evict?
    ensures Travelling(d.(inbox := d.inbox + [o]), w, id, ran)
  {
    var r := d.(inbox := d.inbox + [o]);
    var k :| 0 <= k < |d.inbox| && d.inbox[k] == Launch(w, id, ran)
             && OnlyInterrupts(d.inbox[..k]) && OnlyInterrupts(d.inbox[k + 1..]);
    assert r.inbox[k] == Launch(w, id, ran);
    assert r.inbox[..k] == d.inbox[..k] && r.inbox[k + 1..] == d.inbox[k + 1..] + [o];
  }

  lemma LaunchCarried(d: Station, w: WorkerId, id: Id, length: nat, ran: nat)
    requires Idle(d) && ran < length
    ensures Carried(d.(inbox := d.inbox + [Launch(w, id, ran)]), w, id, length, ran, ran)
  {
    var r := d.(inbox := d.inbox + [Launch(w, id, ran)]);
    var k := |d.inbox|;
    assert r.inbox[k] == Launch(w, id, ran) && r.inbox[..k] == d.inbox && r.inbox[k + 1..] == [];
  }

  /** What the next answer says of the token, and what is left when the master takes it. */
  lemma AnswerCarried(d: Station, w: WorkerId, id: Id, length: nat, ran: nat, stored: int)
    requires Carried(d, w, id, length, ran, stored) && d.outbox != []
    ensures d.outbox[0].WasEvicted? ==> d.outbox[0] == WasEvicted(ran) && ran < length
    ensures var r := d.(outbox := d.outbox[1..]);
            if d.outbox[0].ReadResult? then Carried(r, w, id, length, ran, stored) else Idle(r)
  {
    var r := d.(outbox := d.outbox[1..]);
    if Answering(d, ran) && |d.outbox| > 1 {
      assert d.outbox[0] == d.outbox[..|d.outbox| - 1][0];
      assert r.outbox[..|r.outbox| - 1] == d.outbox[..|d.outbox| - 1][1..];
      assert Answering(r, ran);
    }
  }
}
