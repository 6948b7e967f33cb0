/** FIFO in the joined system of master and workers: which turn of a worker decides whether a wanted query comes back. */
module FifoSystem {
  import opened Common
  import opened Scheduler
  import opened SchedulerInvariant
  import opened SchedulerRuns
  import opened SchedulerPolicies
  import opened Preemption
  import opened PreemptionInvariant
  import opened PreemptionRuns

  /** The worker runs a query whose client is still there. */
  ghost predicate Wanted(m: Master, w: WorkerId) {
    w in m.workers && m.workers[w] >= 0 && m.workers[w] in m.queries && !m.queries[m.workers[w] as Id].disconnected
  }

  /** A line other than END of a query still wanted is executed with the interrupt flag set, and memory can be written back. */
  ghost predicate Spoils(scripts: Id -> seq<Line>, s: System, a: Move) {
    && a.Execute? && a.ok && a.flushed && a.at in s.stations
    && s.stations[a.at].interrupted && s.stations[a.at].current.Some?
    && var task := s.stations[a.at].current.value;
       && HasLine(scripts(task.id), task.pc) && !scripts(task.id)[task.pc].End?
       && task.id in s.master.queries && !s.master.queries[task.id].disconnected
  }

  ghost predicate NeverSpoils(st: Setup, scripts: Id -> seq<Line>, s: System, moves: seq<Move>)
    requires Feasible(st, scripts, s, moves)
    decreases |moves|
  {
    moves == [] ||
    (!Spoils(scripts, s, moves[0]) && NeverSpoils(st, scripts, SystemStep(st, scripts, s, moves[0]), moves[1..]))
  }

  // ------------------------------------------------------------------ what no other move does

  predicate NoEviction(outbox: seq<Reply>) {
    forall i :: 0 <= i < |outbox| ==> !outbox[i].WasEvicted?
  }

  /** No eviction of a wanted query is on its way. */
  ghost predicate Quiet(s: System) {
    forall w :: w in s.stations && Wanted(s.master, w) ==> NoEviction(s.stations[w].outbox)
  }

  /** A query that a worker runs after a step, and that is wanted, was so before, unless it was just dispatched. */
  ghost predicate WantedBefore(m: Master, r: Master, e: Event) {
    forall w :: Wanted(r, w) ==> (e.Dispatch? && e.worker == w) || (Wanted(m, w) && m.workers[w] == r.workers[w])
  }

  lemma SettledWanted(m: Master, r: Master, e: Event)
    requires r.workers == m.workers && forall id :: id in r.queries ==> id in m.queries && (m.queries[id].disconnected ==> r.queries[id].disconnected)
    ensures WantedBefore(m, r, e)
  {
  }

  lemma StepWanted(st: Setup, m: Master, e: Event)
    requires Inv(st, m) && Allowed(st, m, e) && !Faults(st, m, e)
    ensures WantedBefore(m, Step(st, m, e).0, e)
  {
    hide Conserved, Paired, Tokens, Ranked, Sorted, ReadyStep, Preempt, HangupStep, Remove, Insert, Displaced, Place, Ages;
    match e {
      case MakeReady(at) => ReadyWanted(st, m, at);
      case Tick(id, order) => TickKeeps(st, m, id, order); SettledWanted(m, Step(st, m, e).0, e);
      case Hangup(id) => HangupWanted(m, id);
      case Arrive(_) => ArriveWanted(st, m, e);
      case _ =>
    }
  }

  lemma ArriveWanted(st: Setup, m: Master, e: Event)
    requires Inv(st, m) && e.Arrive? && Allowed(st, m, e)
    ensures WantedBefore(m, Step(st, m, e).0, e)
  {
    forall w | w in m.workers ensures m.workers[w] != m.next { NotWaitingIfBusy(st, m, w); }
  }

  lemma HangupWanted(m: Master, id: Id)
    requires id in m.queries
    ensures WantedBefore(m, HangupStep(m, id).0, Hangup(id))
  {
    hide Remove;
  }

  lemma ReadyWanted(st: Setup, m: Master, at: nat)
    requires Stored(m) && Allowed(st, m, MakeReady(at)) && !Faults(st, m, MakeReady(at))
    ensures WantedBefore(m, ReadyStep(st, m, at).0, MakeReady(at))
  {
    SettleFlags(st, Enter(m, at), NextReady(m));
    hide Settle, Insert, Sorted, Displaced;
    SettledWanted(m, ReadyStep(st, m, at).0, MakeReady(at));
  }

  lemma SettleFlags(st: Setup, m: Master, id: Id)
    requires id in m.queries && Known(m, m.executing)
    requires Displaced(st, m, id).Some? ==> Busy(m, Displaced(st, m, id).value)
    ensures var r := Settle(st, m, id).0;
            && r.workers == m.workers && r.queries.Keys == m.queries.Keys
            && forall q :: q in m.queries ==> r.queries[q].disconnected == m.queries[q].disconnected
  {
    PreemptKeeps(st, m, id);
    hide Preempt, Displaced;
  }

  // ------------------------------------------------------------------ steps of the system

  lemma {:induction false} DeliverOutbox(stations: map<WorkerId, Station>, orders: seq<Order>)
    ensures var r := Deliver(stations, orders);
            r.Keys == stations.Keys && forall v :: v in stations ==> r[v].outbox == stations[v].outbox
    decreases |orders|
  {
    if orders != [] && orders[0].worker in stations {
      var d := stations[orders[0].worker];
      DeliverOutbox(stations[orders[0].worker := d.(inbox := d.inbox + [orders[0]])], orders[1..]);
    }
  }

  /** The master takes the oldest answer of one worker, and adds none. */
  lemma PlanOutbox(st: Setup, s: System, e: Event)
    requires CanPlan(st, s, e)
    ensures var t := PlanStep(st, s, e);
            forall v :: v in t.stations ==>
              || t.stations[v].outbox == []
              || (v in s.stations && (t.stations[v].outbox == s.stations[v].outbox
                                      || (s.stations[v].outbox != [] && t.stations[v].outbox == s.stations[v].outbox[1..])))
  {
    DeliverOutbox(s.stations, Step(st, s.master, e).1);
    hide Step, Allowed, Faults, Stored, Deliver;
  }

  lemma IdleOutbox(st: Setup, scripts: Id -> seq<Line>, s: System, w: WorkerId)
    requires Steady(st, scripts, s) && w in s.stations && w in s.master.workers && s.master.workers[w] == -1
    ensures s.stations[w].outbox == []
  {
    assert StationOk(scripts, s, w);
    hide Inv;
  }

  lemma PlanQuiet(st: Setup, scripts: Id -> seq<Line>, s: System, e: Event)
    requires Steady(st, scripts, s) && CanPlan(st, s, e) && Quiet(s)
    ensures Quiet(PlanStep(st, s, e))
  {
    var t := PlanStep(st, s, e);
    PlanOutbox(st, s, e);
    StepWanted(st, s.master, e);
    assert t.master == Step(st, s.master, e).0;
    if e.Dispatch? {
      SameWorkers(scripts, s, e.worker);
      IdleOutbox(st, scripts, s, e.worker);
    }
    hide *;
    forall w | w in t.stations && Wanted(t.master, w) ensures NoEviction(t.stations[w].outbox) {
      QuietAt(s, t, e, w);
    }
    QuietIf(t);
  }

  lemma QuietIf(s: System)
    requires forall w :: w in s.stations && Wanted(s.master, w) ==> NoEviction(s.stations[w].outbox)
    ensures Quiet(s)
  {
  }

  lemma QuietAt(s: System, t: System, e: Event, w: WorkerId)
    requires Quiet(s) && WantedBefore(s.master, t.master, e) && w in t.stations && Wanted(t.master, w)
    requires e.Dispatch? && e.worker in s.stations ==> s.stations[e.worker].outbox == []
    requires || t.stations[w].outbox == []
             || (w in s.stations && (t.stations[w].outbox == s.stations[w].outbox
                                     || (s.stations[w].outbox != [] && t.stations[w].outbox == s.stations[w].outbox[1..])))
    ensures NoEviction(t.stations[w].outbox)
  {
  }

  lemma ReceiveQuiet(st: Setup, scripts: Id -> seq<Line>, s: System, w: WorkerId)
    requires Quiet(s) && Can(st, scripts, s, Receive(w))
    ensures Quiet(SystemStep(st, scripts, s, Receive(w)))
  {
    hide Wanted;
  }

  lemma ExecuteQuiet(st: Setup, scripts: Id -> seq<Line>, s: System, w: WorkerId, ok: bool, flushed: bool)
    requires Steady(st, scripts, s) && Quiet(s) && Can(st, scripts, s, Execute(w, ok, flushed))
    requires forall id: Id :: WellEnded(scripts(id))
    requires !Spoils(scripts, s, Execute(w, ok, flushed))
    ensures Quiet(SystemStep(st, scripts, s, Execute(w, ok, flushed)))
  {
    TurnOk(st, scripts, s, w, ok, flushed);
    if Wanted(s.master, w) { TurnQuiet(scripts(s.stations[w].current.value.id), s.stations[w], ok, flushed); }
    hide Steady, WellEnded, Turn, NoEviction, Crashes, Ran;
  }

  lemma TurnQuiet(script: seq<Line>, d: Station, ok: bool, flushed: bool)
    requires d.current.Some? && !Crashes(script, d, ok) && NoEviction(d.outbox)
    requires !(d.interrupted && ok && flushed && HasLine(script, d.current.value.pc) && !script[d.current.value.pc].End?)
    ensures NoEviction(Turn(script, d, ok, flushed).outbox)
  {
  }

  lemma SystemStepQuiet(st: Setup, scripts: Id -> seq<Line>, s: System, a: Move)
    requires Steady(st, scripts, s) && Quiet(s) && Can(st, scripts, s, a) && forall id: Id :: WellEnded(scripts(id))
    requires !Spoils(scripts, s, a)
    ensures Quiet(SystemStep(st, scripts, s, a))
  {
    hide Steady, Quiet, WellEnded, CanPlan, PlanStep, Spoils, Turn, Hear;
    match a {
      case Plan(e) => PlanQuiet(st, scripts, s, e);
      case Receive(w) => ReceiveQuiet(st, scripts, s, w);
      case Execute(w, ok, flushed) => ExecuteQuiet(st, scripts, s, w, ok, flushed);
    }
  }

  /** With no eviction of a wanted query on its way, the master takes none back. */
  lemma QuietTakesNone(st: Setup, scripts: Id -> seq<Line>, s: System, e: Event)
    requires Quiet(s) && CanPlan(st, s, e)
    ensures !GivesBack(s.master, e)
  {
    if e.Answer? && Wanted(s.master, e.worker) {
      assert NoEviction(s.stations[e.worker].outbox);
      assert !s.stations[e.worker].outbox[0].WasEvicted?;
    }
    hide Step, Allowed, Faults;
  }

  // ------------------------------------------------------------------ runs

  /** What the master does in the run. */
  function Events(moves: seq<Move>): seq<Event> {
    if moves == [] then []
    else (if moves[0].Plan? then [moves[0].e] else []) + Events(moves[1..])
  }

  lemma {:induction false} EventsPossible(st: Setup, scripts: Id -> seq<Line>, s: System, moves: seq<Move>)
    requires Feasible(st, scripts, s, moves)
    ensures Possible(st, s.master, Events(moves)) && After(st, s.master, Events(moves)) == Outcome(st, scripts, s, moves).master
    decreases |moves|
  {
    if moves != [] {
      var t := SystemStep(st, scripts, s, moves[0]);
      NextMaster(st, scripts, s, moves);
      hide Step, Allowed, Faults, Stored, Can, SystemStep, Events;
      EventsPossible(st, scripts, t, moves[1..]);
      if moves[0].Plan? {
        var es := Events(moves);
        assert es[0] == moves[0].e && es[1..] == Events(moves[1..]);
      }
    }
  }

  lemma {:induction false} QuietRun(st: Setup, scripts: Id -> seq<Line>, s: System, moves: seq<Move>)
    requires Steady(st, scripts, s) && Quiet(s) && Feasible(st, scripts, s, moves) && NeverSpoils(st, scripts, s, moves)
    requires forall id: Id :: WellEnded(scripts(id))
    ensures Possible(st, s.master, Events(moves)) && NeverGivesBack(st, s.master, Events(moves))
    decreases |moves|
  {
    EventsPossible(st, scripts, s, moves);
    if moves != [] {
      var t := SystemStep(st, scripts, s, moves[0]);
      SystemStepSteady(st, scripts, s, moves[0]);
      SystemStepQuiet(st, scripts, s, moves[0]);
      assert moves[0].Plan? ==> CanPlan(st, s, moves[0].e);
      NextMaster(st, scripts, s, moves);
      hide Can, SystemStep, Steady, Quiet, WellEnded, Spoils, GivesBack, Events, NeverGivesBack, CanPlan, Possible;
      QuietRun(st, scripts, t, moves[1..]);
      if moves[0].Plan? {
        QuietTakesNone(st, scripts, s, moves[0].e);
        OneMoreEvent(st, s.master, moves[0].e, Events(moves[1..]));
      }
    }
  }

  /** The events of a run, and where its first move leaves the master. */
  lemma NextMaster(st: Setup, scripts: Id -> seq<Line>, s: System, moves: seq<Move>)
    requires moves != [] && Can(st, scripts, s, moves[0])
    ensures var t := SystemStep(st, scripts, s, moves[0]); var a := moves[0];
            if a.Plan? then
              && Stored(s.master) && Allowed(st, s.master, a.e) && !Faults(st, s.master, a.e)
              && t.master == Step(st, s.master, a.e).0 && Events(moves) == [a.e] + Events(moves[1..])
            else t.master == s.master && Events(moves) == Events(moves[1..])
  {
    hide Step, Allowed, Faults, Stored, Deliver, Turn, Hear, Crashes;
  }

  lemma OneMoreEvent(st: Setup, m: Master, e: Event, rest: seq<Event>)
    requires Stored(m) && Allowed(st, m, e) && !Faults(st, m, e)
    requires Possible(st, m, [e] + rest) && !GivesBack(m, e)
    requires Possible(st, Step(st, m, e).0, rest) && NeverGivesBack(st, Step(st, m, e).0, rest)
    ensures NeverGivesBack(st, m, [e] + rest)
  {
    assert ([e] + rest)[0] == e && ([e] + rest)[1..] == rest;
    hide Step, Allowed, Faults, Stored, GivesBack;
  }

  /**
   FIFO over master and workers: unless a line of a query still wanted is executed
   with the interrupt flag set, dispatched queries, Ready and New stay in admission
   order throughout and Desalojo stays empty.
   */
  lemma FifoKeepsOrder(st: Setup, scripts: Id -> seq<Line>, moves: seq<Move>)
    requires st.algorithm == Fifo && (forall id: Id :: WellEnded(scripts(id)))
    requires Feasible(st, scripts, ORIGIN, moves) && NeverSpoils(st, scripts, ORIGIN, moves)
    ensures Possible(st, START, Events(moves)) && AlwaysInOrder(st, START, Events(moves))
    ensures InOrder(Outcome(st, scripts, ORIGIN, moves).master)
  {
    OriginSteady(st, scripts);
    EventsPossible(st, scripts, ORIGIN, moves);
    QuietRun(st, scripts, ORIGIN, moves);
    hide Feasible, NeverSpoils, Outcome, Steady, Possible, After, NeverGivesBack, AlwaysInOrder, Inv;
    StartInv(st);
    InOrderFromIff(st, START, Events(moves));
  }

  // ------------------------------------------------------------------ the turn is decisive

  lemma {:induction false} Joined(st: Setup, scripts: Id -> seq<Line>, s: System, moves: seq<Move>, more: seq<Move>)
    requires Feasible(st, scripts, s, moves) && Feasible(st, scripts, Outcome(st, scripts, s, moves), more)
    ensures Feasible(st, scripts, s, moves + more)
    ensures Outcome(st, scripts, s, moves + more) == Outcome(st, scripts, Outcome(st, scripts, s, moves), more)
    decreases |moves|
  {
    hide Can, SystemStep;
    if moves == [] {
      assert moves + more == more;
    } else {
      assert (moves + more)[0] == moves[0] && (moves + more)[1..] == moves[1..] + more;
      Joined(st, scripts, SystemStep(st, scripts, s, moves[0]), moves[1..], more);
    }
  }

  lemma Single(st: Setup, scripts: Id -> seq<Line>, s: System, a: Move)
    requires Can(st, scripts, s, a)
    ensures Feasible(st, scripts, s, [a]) && Outcome(st, scripts, s, [a]) == SystemStep(st, scripts, s, a)
  {
    assert [a][1..] == [];
    hide Can, SystemStep;
  }

  /** Taking an answer of a wanted query is possible. */
  lemma CanTake(st: Setup, s: System, w: WorkerId)
    requires Inv(st, s.master) && Wanted(s.master, w) && w in s.stations && s.stations[w].outbox != []
    ensures CanPlan(st, s, Answer(w, s.stations[w].outbox[0]))
  {
    hide Conserved, Paired, Tokens, Ranked;
  }

  lemma ReadTaken(st: Setup, s: System, w: WorkerId)
    requires CanPlan(st, s, Answer(w, ReadResult)) && Wanted(s.master, w)
    ensures var t := PlanStep(st, s, Answer(w, ReadResult));
            Wanted(t.master, w) && w in t.stations && t.stations[w].outbox == s.stations[w].outbox[1..]
  {
  }

  lemma EvictionTaken(st: Setup, s: System, w: WorkerId, pc: int)
    requires CanPlan(st, s, Answer(w, WasEvicted(pc))) && Wanted(s.master, w)
    ensures GivesBack(s.master, Answer(w, WasEvicted(pc))) && !InOrder(PlanStep(st, s, Answer(w, WasEvicted(pc))).master)
  {
    hide Increasing, Remove;
  }

  lemma PlanMove(st: Setup, scripts: Id -> seq<Line>, s: System, e: Event)
    requires CanPlan(st, s, e)
    ensures Can(st, scripts, s, Plan(e)) && SystemStep(st, scripts, s, Plan(e)) == PlanStep(st, s, e)
  {
    hide CanPlan, PlanStep;
  }

  /** Taking only answers, the master comes to take back a wanted query. */
  ghost predicate GivenBackBy(st: Setup, scripts: Id -> seq<Line>, s: System, answers: seq<Move>) {
    && (forall i :: 0 <= i < |answers| ==> answers[i].Plan? && answers[i].e.Answer?)
    && Feasible(st, scripts, s, answers) && !InOrder(Outcome(st, scripts, s, answers).master)
  }

  lemma GivenBackNow(st: Setup, scripts: Id -> seq<Line>, s: System, e: Event)
    requires e.Answer? && CanPlan(st, s, e) && !InOrder(PlanStep(st, s, e).master)
    ensures GivenBackBy(st, scripts, s, [Plan(e)])
  {
    PlanMove(st, scripts, s, e);
    Single(st, scripts, s, Plan(e));
    hide Feasible, Outcome, InOrder, CanPlan, Can, PlanStep, SystemStep;
  }

  lemma GivenBackLater(st: Setup, scripts: Id -> seq<Line>, s: System, e: Event, more: seq<Move>)
    requires e.Answer? && CanPlan(st, s, e) && GivenBackBy(st, scripts, PlanStep(st, s, e), more)
    ensures GivenBackBy(st, scripts, s, [Plan(e)] + more)
  {
    hide Feasible, Outcome, InOrder, CanPlan, Can, PlanStep, SystemStep;
    PlanMove(st, scripts, s, e);
    Single(st, scripts, s, Plan(e));
    Joined(st, scripts, s, [Plan(e)], more);
  }

  predicate EndsEvicted(out: seq<Reply>) {
    out != [] && (forall i :: 0 <= i < |out| - 1 ==> out[i].ReadResult?) && out[|out| - 1].WasEvicted?
  }

  /** The answers before the eviction are readings. */
  lemma {:induction false} Drain(st: Setup, scripts: Id -> seq<Line>, s: System, w: WorkerId) returns (answers: seq<Move>)
    requires Steady(st, scripts, s) && (forall id: Id :: WellEnded(scripts(id)))
    requires Wanted(s.master, w) && w in s.stations && EndsEvicted(s.stations[w].outbox)
    ensures GivenBackBy(st, scripts, s, answers)
    decreases |s.stations[w].outbox|
  {
    var out := s.stations[w].outbox;
    var e := Answer(w, out[0]);
    assert |out| > 1 ==> out[0] == ReadResult && EndsEvicted(out[1..]);
    assert |out| == 1 ==> out[0].WasEvicted?;
    CanTake(st, s, w);
    hide *;
    if |out| == 1 {
      EvictionTaken(st, s, w, out[0].pc);
      GivenBackNow(st, scripts, s, e);
      answers := [Plan(e)];
    } else {
      ReadTaken(st, s, w);
      PlannedSteady(st, scripts, s, e);
      answers := Drain(st, scripts, PlanStep(st, s, e), w);
      GivenBackLater(st, scripts, s, e, answers);
      answers := [Plan(e)] + answers;
    }
  }

  /** What such a turn leaves: the query wanted, its eviction the last answer of its worker. */
  lemma Spoiled(st: Setup, scripts: Id -> seq<Line>, s: System, a: Move)
    requires Steady(st, scripts, s) && Can(st, scripts, s, a) && Spoils(scripts, s, a)
    requires forall id: Id :: WellEnded(scripts(id))
    ensures a.Execute?
    ensures var t := SystemStep(st, scripts, s, a);
            && a.at in t.stations && Wanted(t.master, a.at)
            && EndsEvicted(t.stations[a.at].outbox)
  {
    var w, d := a.at, s.stations[a.at];
    assert StationOk(scripts, s, w);
    assert OnlyReads(d.outbox);
    TurnOk(st, scripts, s, w, a.ok, a.flushed);
    hide Inv, WellEnded, AllOk;
  }

  lemma Returned(st: Setup, scripts: Id -> seq<Line>, s: System, answers: seq<Move>)
    requires GivenBackBy(st, scripts, s, answers)
    ensures forall i :: 0 <= i < |answers| ==> answers[i].Plan? && answers[i].e.Answer?
    ensures Feasible(st, scripts, s, answers) && !InOrder(Outcome(st, scripts, s, answers).master)
  {
  }

  /** After such a turn the master needs only to take that worker's answers to have a wanted query given back. */
  lemma SpoiledIsGivenBack(st: Setup, scripts: Id -> seq<Line>, moves: seq<Move>, a: Move) returns (answers: seq<Move>)
    requires (forall id: Id :: WellEnded(scripts(id))) && Feasible(st, scripts, ORIGIN, moves)
    requires Can(st, scripts, Outcome(st, scripts, ORIGIN, moves), a) && Spoils(scripts, Outcome(st, scripts, ORIGIN, moves), a)
    ensures forall i :: 0 <= i < |answers| ==> answers[i].Plan? && answers[i].e.Answer?
    ensures Feasible(st, scripts, ORIGIN, moves + ([a] + answers))
    ensures !InOrder(Outcome(st, scripts, ORIGIN, moves + ([a] + answers)).master)
  {
    hide *;
    OriginSteady(st, scripts);
    OutcomeSteady(st, scripts, ORIGIN, moves);
    var s := Outcome(st, scripts, ORIGIN, moves);
    Spoiled(st, scripts, s, a);
    SystemStepSteady(st, scripts, s, a);
    answers := Drain(st, scripts, SystemStep(st, scripts, s, a), a.at);
    Returned(st, scripts, SystemStep(st, scripts, s, a), answers);
    Single(st, scripts, s, a);
    Joined(st, scripts, s, [a], answers);
    Joined(st, scripts, ORIGIN, moves, [a] + answers);
  }

  /** The first such turn of a run. */
  lemma {:induction false} FirstSpoil(st: Setup, scripts: Id -> seq<Line>, s: System, moves: seq<Move>) returns (before: seq<Move>, a: Move)
    requires Feasible(st, scripts, s, moves) && !NeverSpoils(st, scripts, s, moves)
    ensures Feasible(st, scripts, s, before)
    ensures Can(st, scripts, Outcome(st, scripts, s, before), a) && Spoils(scripts, Outcome(st, scripts, s, before), a)
    decreases |moves|
  {
    hide Can, SystemStep, Spoils;
    if Spoils(scripts, s, moves[0]) {
      before, a := [], moves[0];
    } else {
      before, a := FirstSpoil(st, scripts, SystemStep(st, scripts, s, moves[0]), moves[1..]);
      assert ([moves[0]] + before)[0] == moves[0] && ([moves[0]] + before)[1..] == before;
      before := [moves[0]] + before;
    }
  }

  ghost predicate OrderedRun(st: Setup, scripts: Id -> seq<Line>, moves: seq<Move>) {
    Feasible(st, scripts, ORIGIN, moves) ==> InOrder(Outcome(st, scripts, ORIGIN, moves).master)
  }

  ghost predicate UnspoiledRun(st: Setup, scripts: Id -> seq<Line>, moves: seq<Move>) {
    Feasible(st, scripts, ORIGIN, moves) ==> NeverSpoils(st, scripts, ORIGIN, moves)
  }

  /**
   FIFO order holds in every run of master and workers exactly when in no run a
   line of a query still wanted is executed with the interrupt flag set.
   */
  lemma FifoOrderIffUnspoiled(st: Setup, scripts: Id -> seq<Line>)
    requires st.algorithm == Fifo && forall id: Id :: WellEnded(scripts(id))
    ensures (forall moves :: OrderedRun(st, scripts, moves)) <==> (forall moves :: UnspoiledRun(st, scripts, moves))
  {
    hide Feasible, Outcome, NeverSpoils, InOrder, WellEnded, Can, Spoils;
    if moves :| !UnspoiledRun(st, scripts, moves) {
      var before, a := FirstSpoil(st, scripts, ORIGIN, moves);
      var answers := SpoiledIsGivenBack(st, scripts, before, a);
      assert !OrderedRun(st, scripts, before + ([a] + answers));
    } else {
      forall moves | Feasible(st, scripts, ORIGIN, moves) ensures OrderedRun(st, scripts, moves) {
        assert UnspoiledRun(st, scripts, moves);
        FifoKeepsOrder(st, scripts, moves);
      }
      assert forall moves :: OrderedRun(st, scripts, moves);
    }
  }
}
