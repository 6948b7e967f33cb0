/**
 A run in FIFO mode in which a query whose client is still there is evicted: the
 interrupt meant for a query that had just reached END stays pending in the worker.
 */
module StaleInterrupt {
  import opened Common
  import opened Scheduler
  import opened SchedulerPolicies
  import opened Preemption
  import opened PreemptionInvariant

  const SETUP := Setup(Fifo, false)
  const SCRIPTS: Id -> seq<Line> := (id: Id) => if id == 0 then [End] else [Other, End]

  const FRESH := Query(0, 0, Created, false, false)
  const READY := Query(0, 0, Waiting, false, false)
  const BUSY := Query(0, 0, Running, false, false)
  const LEFT := Query(0, 0, Evicting, true, false)
  const OVER := Query(0, 0, Finished, true, false)

  // The masters of the run, in order.
  const M1 := START.(next := 1, queries := map[0 := FRESH], arrived := [0], semWaiting := 1)
  const M2 := M1.(next := 2, queries := map[0 := FRESH, 1 := FRESH], arrived := [0, 1], semWaiting := 2)
  const M3 := M2.(workers := map[0 := -1])
  const M4 := M3.(queries := map[0 := READY, 1 := FRESH], arrived := [1], ready := [0], semWaiting := 1, semReady := 1)
  const M5 := M4.(queries := map[0 := READY, 1 := READY], arrived := [], ready := [0, 1], semWaiting := 0, semReady := 2)
  const M6 := M5.(queries := map[0 := BUSY, 1 := READY], ready := [1], executing := [0], workers := map[0 := 0],
                  semReady := 1, started := [0])
  const M7 := M6.(queries := map[0 := LEFT, 1 := READY])
  const M8 := M7.(queries := map[0 := OVER, 1 := READY], executing := [], done := [0], workers := map[0 := -1], semExit := 1)
  const M9 := M8.(queries := map[0 := OVER, 1 := BUSY], ready := [], executing := [1], workers := map[0 := 1],
                  semReady := 0, started := [0, 1])

  const GO0 := Launch(0, 0, 0)
  const GO1 := Launch(0, 1, 0)
  const STOP0 := Evict(0, 0)

  const LOG0: map<Id, seq<int>> := map[0 := [], 1 := []]
  const LOG1: map<Id, seq<int>> := map[0 := [0], 1 := []]

  ghost predicate Goes(m: Master, e: Event, r: Master, orders: seq<Order>) {
    Stored(m) && Allowed(SETUP, m, e) && !Faults(SETUP, m, e) && Step(SETUP, m, e) == (r, orders)
  }

  lemma Admitted()
    ensures Goes(START, Arrive(0), M1, [])
    ensures Goes(M1, Arrive(0), M2, [])
  {
    assert START.queries[0 := FRESH] == M1.queries && START.arrived + [0] == M1.arrived;
    assert M2.queries == M1.queries[1 := FRESH];
    assert M1.arrived + [1] == M2.arrived;
  }

  lemma Joined()
    ensures Goes(M2, Connect(0), M3, [])
  {
  }

  lemma FirstReady()
    ensures Goes(M3, MakeReady(0), M4, [])
  {
    assert M3.arrived[0] == 0 && M3.arrived[1..] == [1];
    assert Insert(M3.ready, 0, 0) == [0];
    assert M3.queries[0 := READY] == M4.queries && M4.queries[0 := READY] == M4.queries;
  }

  lemma SecondReady()
    ensures Goes(M4, MakeReady(1), M5, [])
  {
    assert M4.arrived[0] == 1 && M4.arrived[1..] == [];
    assert Insert(M4.ready, 1, 1) == [0, 1];
    assert M4.queries[1 := READY] == M5.queries && M5.queries[1 := READY] == M5.queries;
  }

  lemma FirstDispatched()
    ensures Goes(M5, Dispatch(0, 0), M6, [GO0])
  {
    FirstGoes();
    assert Place(SETUP, M5.queries, M5.executing, 0, 0);
    hide DispatchStep;
  }

  lemma FirstGoes()
    ensures M5.ready == [0, 1] && M5.executing == [] && M5.workers[0] == -1 && DispatchStep(M5, 0, 0) == (M6, [GO0])
  {
    assert M5.ready[0] == 0 && M5.ready[1..] == [1] && M5.started + [0] == M6.started;
    assert Insert(M5.executing, 0, 0) == [0];
    assert M5.queries[0 := BUSY] == M6.queries;
    assert M5.workers[0 := 0] == M6.workers;
  }

  lemma HungUp()
    ensures Goes(M6, Hangup(0), M7, [STOP0])
  {
    assert M6.workers[0] == 0;
    assert Busy(M6, 0);
    assert WorkerRunning(M6, 0) == 0;
    assert M6.queries[0 := LEFT] == M7.queries;
  }

  lemma Ended()
    ensures Goes(M7, Answer(0, HasFinished), M8, [])
  {
    assert Remove(M7.executing, 0) == [];
    assert M7.done + [0] == M8.done;
    assert M7.queries[0 := OVER] == M8.queries;
    assert M7.workers[0 := -1] == M8.workers;
  }

  lemma SecondDispatched()
    ensures Goes(M8, Dispatch(0, 0), M9, [GO1])
  {
    SecondGoes();
    assert Place(SETUP, M8.queries, M8.executing, 0, 1);
    hide DispatchStep;
  }

  lemma SecondGoes()
    ensures M8.ready == [1] && M8.executing == [] && M8.workers[0] == -1 && DispatchStep(M8, 0, 0) == (M9, [GO1])
  {
    assert M8.ready[0] == 1 && M8.ready[1..] == [] && M8.started + [1] == M9.started;
    assert Insert(M8.executing, 0, 1) == [1];
    assert M8.queries[1 := BUSY] == M9.queries;
    assert M8.workers[0 := 1] == M9.workers;
  }

  // ---------------------------------------------------------- the joined system

  ghost predicate Leads(s: System, a: Move, t: System) {
    Can(SETUP, SCRIPTS, s, a) && SystemStep(SETUP, SCRIPTS, s, a) == t
  }

  /** The master sends nothing, or one message to worker 0. */
  lemma Planned(s: System, e: Event, r: Master, orders: seq<Order>, stations: map<WorkerId, Station>)
    requires Goes(s.master, e, r, orders) && !e.Connect? && !e.LoseWorker? && !e.Answer?
    requires if orders == [] then stations == s.stations
             else |orders| == 1 && orders[0].worker in s.stations
                  && stations == s.stations[orders[0].worker := s.stations[orders[0].worker].(
                                   inbox := s.stations[orders[0].worker].inbox + orders)]
    ensures Leads(s, Plan(e), System(r, stations, if e.Arrive? then s.log[s.master.next := []] else s.log))
  {
    hide Step, Allowed, Faults, Stored;
    if orders != [] {
      assert orders == [orders[0]] && orders[1..] == [];
      assert Deliver(stations, orders[1..]) == stations;
    }
  }

  lemma Taken(s: System, w: WorkerId, reply: Reply, r: Master)
    requires Goes(s.master, Answer(w, reply), r, [])
    requires w in s.stations && s.stations[w].outbox != [] && s.stations[w].outbox[0] == reply
    ensures Leads(s, Plan(Answer(w, reply)),
                  System(r, s.stations[w := s.stations[w].(outbox := s.stations[w].outbox[1..])], s.log))
  {
    hide Step, Allowed, Faults, Stored;
  }

  lemma Chain(s: System, a: Move, t: System, rest: seq<Move>)
    requires Leads(s, a, t) && Feasible(SETUP, SCRIPTS, t, rest)
    ensures Feasible(SETUP, SCRIPTS, s, [a] + rest)
    ensures Outcome(SETUP, SCRIPTS, s, [a] + rest) == Outcome(SETUP, SCRIPTS, t, rest)
  {
    hide Can, SystemStep;
    assert ([a] + rest)[0] == a && ([a] + rest)[1..] == rest;
  }

  function At(m: Master, d: Station, log: map<Id, seq<int>>): System {
    System(m, map[0 := d], log)
  }

  const S1 := System(M1, map[], map[0 := []])
  const S2 := System(M2, map[], LOG0)
  const S3 := At(M3, DESK, LOG0)
  const S4 := At(M4, DESK, LOG0)
  const S5 := At(M5, DESK, LOG0)
  const S6 := At(M6, Station([GO0], [], None, false), LOG0)
  const S7 := At(M6, Station([], [], Some(Task(0, 0)), false), LOG0)
  const S8 := At(M7, Station([STOP0], [], Some(Task(0, 0)), false), LOG0)
  const S9 := At(M7, Station([STOP0], [HasFinished], None, false), LOG1)
  const S10 := At(M8, Station([STOP0], [], None, false), LOG1)
  const S11 := At(M9, Station([STOP0, GO1], [], None, false), LOG1)
  const S12 := At(M9, Station([GO1], [], None, true), LOG1)
  const S13 := At(M9, Station([], [], Some(Task(1, 0)), true), LOG1)
  const S14 := At(M9, Station([], [WasEvicted(1)], None, false), LOG1[1 := [0]])

  lemma Prepared()
    ensures Leads(ORIGIN, Plan(Arrive(0)), S1) && Leads(S1, Plan(Arrive(0)), S2) && Leads(S2, Plan(Connect(0)), S3)
  {
    Admitted();
    Joined();
    hide Step, Allowed, Faults, Stored;
    assert map[0 := []][1 := []] == LOG0;
    assert ORIGIN.stations == map[];
  }

  lemma Queued()
    ensures Leads(S3, Plan(MakeReady(0)), S4) && Leads(S4, Plan(MakeReady(1)), S5)
  {
    FirstReady();
    SecondReady();
    hide Goes, Leads;
    Planned(S3, MakeReady(0), M4, [], S4.stations);
    Planned(S4, MakeReady(1), M5, [], S5.stations);
  }

  lemma Sent()
    ensures Leads(S5, Plan(Dispatch(0, 0)), S6) && Leads(S10, Plan(Dispatch(0, 0)), S11)
  {
    FirstDispatched();
    SecondDispatched();
    hide Goes, Leads;
    assert DESK.inbox + [GO0] == [GO0];
    assert S6.stations == S5.stations[0 := DESK.(inbox := DESK.inbox + [GO0])];
    Planned(S5, Dispatch(0, 0), M6, [GO0], S6.stations);
    assert [STOP0] + [GO1] == [STOP0, GO1];
    assert S11.stations == S10.stations[0 := S10.stations[0].(inbox := S10.stations[0].inbox + [GO1])];
    Planned(S10, Dispatch(0, 0), M9, [GO1], S11.stations);
  }

  lemma Interrupted()
    ensures Leads(S7, Plan(Hangup(0)), S8)
  {
    HungUp();
    hide Goes, Leads;
    assert S7.stations[0].inbox + [STOP0] == [STOP0];
    assert S8.stations == S7.stations[0 := S7.stations[0].(inbox := S7.stations[0].inbox + [STOP0])];
    Planned(S7, Hangup(0), M7, [STOP0], S8.stations);
  }

  lemma Closed()
    ensures Leads(S9, Plan(Answer(0, HasFinished)), S10)
  {
    Ended();
    hide Goes, Leads;
    assert [HasFinished][1..] == [];
    assert S10.stations == S9.stations[0 := S9.stations[0].(outbox := S9.stations[0].outbox[1..])];
    Taken(S9, 0, HasFinished, M8);
  }

  lemma Heard()
    ensures Leads(S6, Receive(0), S7) && Leads(S11, Receive(0), S12) && Leads(S12, Receive(0), S13)
  {
    assert S7.stations == S6.stations[0 := Hear(S6.stations[0])];
    assert [STOP0, GO1][1..] == [GO1];
    assert S12.stations == S11.stations[0 := Hear(S11.stations[0])];
    assert S13.stations == S12.stations[0 := Hear(S12.stations[0])];
  }

  lemma Ran0()
    ensures Leads(S8, Execute(0, true, true), S9)
  {
    assert S8.stations[0].outbox + [HasFinished] == [HasFinished];
    assert S9.stations == S8.stations[0 := Turn(SCRIPTS(0), S8.stations[0], true, true)];
    assert [] + Ran(SCRIPTS(0), S8.stations[0]) == [0];
    assert LOG1 == LOG0[0 := [0]];
  }

  lemma Ran1()
    ensures Leads(S13, Execute(0, true, true), S14)
  {
    assert S13.stations[0].outbox + [WasEvicted(1)] == [WasEvicted(1)];
    assert S14.stations == S13.stations[0 := Turn(SCRIPTS(1), S13.stations[0], true, true)];
    assert [] + Ran(SCRIPTS(1), S13.stations[0]) == [0];
  }

  lemma Rewind(s: System, a: Move, t: System, rest: seq<Move>, goal: System) returns (moves: seq<Move>)
    requires Leads(s, a, t) && Feasible(SETUP, SCRIPTS, t, rest) && Outcome(SETUP, SCRIPTS, t, rest) == goal
    ensures Feasible(SETUP, SCRIPTS, s, moves) && Outcome(SETUP, SCRIPTS, s, moves) == goal
  {
    Chain(s, a, t, rest);
    moves := [a] + rest;
  }

  /** Up to where query 0 is at END and the interrupt for it is on its way. */
  lemma Beginning(rest: seq<Move>, goal: System) returns (moves: seq<Move>)
    requires Feasible(SETUP, SCRIPTS, S8, rest) && Outcome(SETUP, SCRIPTS, S8, rest) == goal
    ensures Feasible(SETUP, SCRIPTS, ORIGIN, moves) && Outcome(SETUP, SCRIPTS, ORIGIN, moves) == goal
  {
    Prepared();
    Queued();
    Sent();
    Interrupted();
    Heard();
    hide Leads, Feasible, Outcome;
    moves := Rewind(S7, Plan(Hangup(0)), S8, rest, goal);
    moves := Rewind(S6, Receive(0), S7, moves, goal);
    moves := Rewind(S5, Plan(Dispatch(0, 0)), S6, moves, goal);
    moves := Rewind(S4, Plan(MakeReady(1)), S5, moves, goal);
    moves := Rewind(S3, Plan(MakeReady(0)), S4, moves, goal);
    moves := Rewind(S2, Plan(Connect(0)), S3, moves, goal);
    moves := Rewind(S1, Plan(Arrive(0)), S2, moves, goal);
    moves := Rewind(ORIGIN, Plan(Arrive(0)), S1, moves, goal);
  }

  lemma Reached() returns (moves: seq<Move>)
    ensures Feasible(SETUP, SCRIPTS, ORIGIN, moves) && Outcome(SETUP, SCRIPTS, ORIGIN, moves) == S14
  {
    Sent();
    Closed();
    Heard();
    Ran0();
    Ran1();
    hide Leads;
    moves := Rewind(S13, Execute(0, true, true), S14, [], S14);
    moves := Rewind(S12, Receive(0), S13, moves, S14);
    moves := Rewind(S11, Receive(0), S12, moves, S14);
    moves := Rewind(S10, Plan(Dispatch(0, 0)), S11, moves, S14);
    moves := Rewind(S9, Plan(Answer(0, HasFinished)), S10, moves, S14);
    moves := Rewind(S8, Execute(0, true, true), S9, moves, S14);
    moves := Beginning(moves, S14);
  }

  /** The run: in FIFO mode, with scripts that end well, the master next takes back a query whose client never left. */
  lemma StillWantedIsEvicted() returns (moves: seq<Move>, e: Event)
    ensures SETUP.algorithm == Fifo && forall id: Id :: WellEnded(SCRIPTS(id))
    ensures Feasible(SETUP, SCRIPTS, ORIGIN, moves)
    ensures var s := Outcome(SETUP, SCRIPTS, ORIGIN, moves); CanPlan(SETUP, s, e) && GivesBack(s.master, e)
  {
    moves := Reached();
    e := Answer(0, WasEvicted(1));
    assert M9.workers[0] == 1 && M9.queries[1] == BUSY;
    hide Feasible, Outcome;
  }

  /** Another end of it: the interrupt is read before END, and taken right after it. */
  lemma InterruptMeetsEnd() returns (moves: seq<Move>)
    ensures forall id: Id :: WellEnded(SCRIPTS(id))
    ensures Feasible(SETUP, SCRIPTS, ORIGIN, moves)
    ensures var s := Outcome(SETUP, SCRIPTS, ORIGIN, moves);
            0 in s.stations && s.stations[0].current == Some(Task(0, 0)) && Crashes(SCRIPTS(0), s.stations[0], true)
  {
    var goal := At(M7, Station([], [], Some(Task(0, 0)), true), LOG0);
    assert Hear(S8.stations[0]) == goal.stations[0];
    assert goal.stations == S8.stations[0 := Hear(S8.stations[0])];
    assert Leads(S8, Receive(0), goal);
    moves := Rewind(S8, Receive(0), goal, [], goal);
    moves := Beginning(moves, goal);
    hide Feasible, Outcome, Leads;
  }
}
