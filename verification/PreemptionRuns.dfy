/** Every step of the joined system keeps the token discipline, so every run executes in order, once. */
module PreemptionRuns {
  import opened Common
  import opened Scheduler
  import opened SchedulerInvariant
  import opened SchedulerRuns
  import opened Preemption
  import opened PreemptionInvariant

  // ------------------------------------------------------------------- worker

  lemma ReceiveSteady(st: Setup, scripts: Id -> seq<Line>, s: System, w: WorkerId)
    requires Steady(st, scripts, s) && Can(st, scripts, s, Receive(w))
    ensures Steady(st, scripts, SystemStep(st, scripts, s, Receive(w)))
  {
    hide Inv, Carried, Hear;
    var t := SystemStep(st, scripts, s, Receive(w));
    HearOk(scripts, s, w);
    forall v | v in t.stations ensures StationOk(scripts, t, v) {
      assert StationOk(scripts, s, v);
    }
    forall id ensures WaitingOk(scripts, t, id) { assert WaitingOk(scripts, s, id); }
  }

  lemma HearOk(scripts: Id -> seq<Line>, s: System, w: WorkerId)
    requires w in s.stations && w in s.master.workers && StationOk(scripts, s, w) && s.stations[w].inbox != []
    ensures StationOk(scripts, s.(stations := s.stations[w := Hear(s.stations[w])]), w)
  {
    var id, d := s.master.workers[w], s.stations[w];
    if id >= 0 {
      HearCarried(d, w, id as Id, |scripts(id as Id)|, |s.log[id as Id]|, s.master.queries[id as Id].pc);
    } else {
      assert d.inbox[0].Evict?;
    }
  }

  lemma ExecuteSteady(st: Setup, scripts: Id -> seq<Line>, s: System, w: WorkerId, ok: bool, flushed: bool)
    requires Steady(st, scripts, s) && Can(st, scripts, s, Execute(w, ok, flushed))
    requires forall id: Id :: WellEnded(scripts(id))
    ensures Steady(st, scripts, SystemStep(st, scripts, s, Execute(w, ok, flushed)))
  {
    hide Inv, Carried, Turn, Crashes, WellEnded;
    var t := SystemStep(st, scripts, s, Execute(w, ok, flushed));
    var id := s.stations[w].current.value.id;
    TurnOk(st, scripts, s, w, ok, flushed);
    forall v | v in t.stations ensures StationOk(scripts, t, v) {
      assert StationOk(scripts, s, v);
      if v != w { OtherQuery(st, s, w, v); }
    }
    forall q ensures WaitingOk(scripts, t, q) {
      assert WaitingOk(scripts, s, q);
      if q == id { NotWaiting(st, s.master, w); }
    }
    forall q | q in t.log ensures Consecutive(t.log[q]) && |t.log[q]| <= |scripts(q)| {
      assert q in s.log;
    }
  }

  /** Running queries do not wait. */
  lemma NotWaiting(st: Setup, m: Master, w: WorkerId)
    requires Inv(st, m) && w in m.workers && m.workers[w] >= 0
    ensures !Waits(m, m.workers[w] as Id) && m.workers[w] in m.queries && m.workers[w] < m.next
  {
    Exclusive(m, m.workers[w] as Id);
  }

  lemma OtherQuery(st: Setup, s: System, w: WorkerId, v: WorkerId)
    requires Inv(st, s.master) && w in s.master.workers && v in s.master.workers && v != w
    ensures s.master.workers[w] >= 0 ==> s.master.workers[v] != s.master.workers[w]
  {
  }

  lemma TurnOk(st: Setup, scripts: Id -> seq<Line>, s: System, w: WorkerId, ok: bool, flushed: bool)
    requires Steady(st, scripts, s) && Can(st, scripts, s, Execute(w, ok, flushed))
    requires forall id: Id :: WellEnded(scripts(id))
    ensures s.master.workers[w] == s.stations[w].current.value.id
    ensures var t, id := SystemStep(st, scripts, s, Execute(w, ok, flushed)), s.stations[w].current.value.id;
            && StationOk(scripts, t, w) && t.log == s.log[id := s.log[id] + [|s.log[id]|]]
            && |s.log[id]| < |scripts(id)|
  {
    hide Inv, Turn, Crashes, WellEnded;
    var id, d := s.master.workers[w], s.stations[w];
    assert StationOk(scripts, s, w);
    assert id >= 0;
    TurnCarried(scripts(id as Id), d, w, id as Id, |s.log[id as Id]|, s.master.queries[id as Id].pc, ok, flushed);
  }

  // ------------------------------------------------------------------- master

  /** Events that send at most an interrupt and leave workers and counters alone. */
  predicate Calm(e: Event) {
    !e.Connect? && !e.Dispatch? && !e.Answer? && !e.LoseWorker?
  }

  ghost predicate InterruptsOf(m: Master, orders: seq<Order>) {
    && |orders| <= 1
    && (orders != [] ==> orders[0].Evict? && WorkerOf(m, orders[0].id, orders[0].worker))
  }

  /** Program counters stay, and only a new query joins those that wait. */
  ghost predicate CountersKept(m: Master, r: Master) {
    && (forall id :: id in m.queries && id in r.queries ==> r.queries[id].pc == m.queries[id].pc)
    && (forall id :: Waits(r, id) && !Waits(m, id) ==> id == m.next && id in r.queries && r.queries[id].pc == 0)
  }

  lemma CalmStep(st: Setup, m: Master, e: Event)
    requires Inv(st, m) && Allowed(st, m, e) && !Faults(st, m, e) && Calm(e)
    ensures var (r, orders) := Step(st, m, e);
            r.workers == m.workers && InterruptsOf(m, orders) && CountersKept(m, r)
  {
    hide Conserved, Paired, Tokens, Ranked, Sorted, HangupStep, ReadyStep, Preempt, Remove;
    match e {
      case MakeReady(at) => ReadyCalm(st, m, at);
      case Tick(id, order) => TickCalm(st, m, id, order);
      case Hangup(id) => HangupCalm(m, id);
      case _ =>
    }
  }

  lemma HangupCalm(m: Master, id: Id)
    requires id in m.queries
    ensures var (r, orders) := HangupStep(m, id); r.workers == m.workers && InterruptsOf(m, orders) && CountersKept(m, r)
  {
    RemoveMembers(m.ready, id);
    hide Remove;
  }

  lemma PreemptCalm(st: Setup, m: Master, id: Id)
    requires id in m.queries && Known(m, m.executing)
    requires Displaced(st, m, id).Some? ==> Busy(m, Displaced(st, m, id).value)
    ensures InterruptsOf(m, Preempt(st, m, id).1)
  {
    hide Displaced;
  }

  lemma EnterCalm(m: Master, at: nat)
    requires (m.evicted != [] || m.arrived != []) && NextReady(m) in m.queries && at <= |m.ready| && m.semWaiting > 0
    ensures Enter(m, at).workers == m.workers && CountersKept(m, Enter(m, at))
  {
    forall id | id in Enter(m, at).ready ensures id in m.ready || id == NextReady(m) {
      assert multiset(Insert(m.ready, at, NextReady(m)))[id] == (multiset(m.ready) + multiset{NextReady(m)})[id];
    }
    hide Insert;
  }

  lemma ReadyCalm(st: Setup, m: Master, at: nat)
    requires Stored(m) && Allowed(st, m, MakeReady(at)) && !Faults(st, m, MakeReady(at))
    ensures var (r, orders) := ReadyStep(st, m, at); r.workers == m.workers && InterruptsOf(m, orders) && CountersKept(m, r)
  {
    ReadyKeeps(st, m, at);
    PreemptCalm(st, Enter(m, at), NextReady(m));
    assert InterruptsOf(Enter(m, at), ReadyStep(st, m, at).1) by { hide Preempt, Enter, Displaced, Sorted, Stored; }
    EnterCalm(m, at);
    hide Enter, ReadyStep, Displaced, Sorted, Allowed, Faults, Stored;
  }

  lemma TickCalm(st: Setup, m: Master, id: Id, order: seq<Id>)
    requires Stored(m) && Allowed(st, m, Tick(id, order)) && !Faults(st, m, Tick(id, order))
    ensures var (r, orders) := Step(st, m, Tick(id, order));
            r.workers == m.workers && InterruptsOf(m, orders) && CountersKept(m, r)
  {
    TickKeeps(st, m, id, order);
    PreemptCalm(st, Aged(m, id).(ready := order), id);
    hide Preempt, Displaced, Sorted;
    forall q | q in order ensures q in m.ready {
      assert multiset(order)[q] == multiset(m.ready)[q];
    }
  }

  lemma CalmSteady(st: Setup, scripts: Id -> seq<Line>, s: System, e: Event)
    requires Inv(st, s.master) && AllOk(scripts, s) && CanPlan(st, s, e) && Calm(e)
    requires forall id: Id :: WellEnded(scripts(id))
    ensures AllOk(scripts, PlanStep(st, s, e))
  {
    var t := PlanStep(st, s, e);
    var orders := Step(st, s.master, e).1;
    CalmStep(st, s.master, e);
    StepInv(st, s.master, e);
    CalmPlan(st, s, e);
    if !e.Arrive? { NextIsNew(st, s.master, e); }
    hide Step, Allowed, Faults, Inv, CanPlan, PlanStep, StationOk, WaitingOk, Deliver, InterruptsOf, CountersKept, Consecutive;
    Delivered(scripts, s, orders);
    KeptOk(st, scripts, s, t);
  }

  lemma CalmPlan(st: Setup, s: System, e: Event)
    requires CanPlan(st, s, e) && Calm(e)
    ensures PlanStep(st, s, e) ==
            System(Step(st, s.master, e).0, Deliver(s.stations, Step(st, s.master, e).1),
                   if e.Arrive? then s.log[s.master.next := []] else s.log)
  {
    hide Step, Allowed, Faults, Stored, Deliver;
  }

  /** The tokens stay where they are when workers and counters do. */
  lemma KeptOk(st: Setup, scripts: Id -> seq<Line>, s: System, t: System)
    requires Inv(st, s.master) && Inv(st, t.master) && AllOk(scripts, s) && forall id: Id :: WellEnded(scripts(id))
    requires t.master.workers == s.master.workers && CountersKept(s.master, t.master) && t.stations.Keys == s.stations.Keys
    requires forall w :: w in t.stations ==> StationOk(scripts, s.(stations := t.stations), w)
    requires t.log == s.log || t.log == s.log[s.master.next := []]
    requires s.master.next in t.master.queries ==> t.log == s.log[s.master.next := []]
    ensures AllOk(scripts, t)
  {
    hide Inv, Carried;
    forall w | w in t.stations ensures StationOk(scripts, t, w) {
      NotWaitingIfBusy(st, s.master, w);
      NotWaitingIfBusy(st, t.master, w);
      assert StationOk(scripts, s.(stations := t.stations), w);
    }
    forall id ensures WaitingOk(scripts, t, id) {
      assert WaitingOk(scripts, s, id);
      WaitingKnown(st, s.master, id);
      WaitingKnown(st, t.master, id);
      assert WellEnded(scripts(id));
    }
  }

  /** Only an arrival admits a query. */
  lemma NextIsNew(st: Setup, m: Master, e: Event)
    requires Inv(st, m) && Allowed(st, m, e) && !Faults(st, m, e) && Calm(e) && !e.Arrive?
    ensures m.next !in Step(st, m, e).0.queries
  {
    assert m.next !in m.queries;
    hide Conserved, Paired, Tokens, Ranked, Sorted, Preempt, Remove;
    match e {
      case MakeReady(at) => ReadyKeeps(st, m, at);
      case Tick(id, order) => TickKeeps(st, m, id, order);
      case _ =>
    }
  }

  lemma NotWaitingIfBusy(st: Setup, m: Master, w: WorkerId)
    requires Inv(st, m) && w in m.workers
    ensures m.workers[w] >= 0 ==> m.workers[w] in m.queries && m.workers[w] < m.next
  {
    if m.workers[w] >= 0 { NotWaiting(st, m, w); }
  }

  lemma WaitingKnown(st: Setup, m: Master, id: Id)
    requires Inv(st, m)
    ensures Waits(m, id) ==> id in m.queries && id < m.next
  {
    Exclusive(m, id);
  }

  /** An interrupt reaches the worker it is for, and no token moves. */
  lemma Delivered(scripts: Id -> seq<Line>, s: System, orders: seq<Order>)
    requires s.stations.Keys == s.master.workers.Keys && InterruptsOf(s.master, orders)
    requires forall w :: w in s.stations ==> StationOk(scripts, s, w)
    ensures var r := s.(stations := Deliver(s.stations, orders));
            r.stations.Keys == s.stations.Keys && forall w :: w in r.stations ==> StationOk(scripts, r, w)
  {
    var r := s.(stations := Deliver(s.stations, orders));
    if orders == [] {
      assert r == s;
    } else {
      var o := orders[0];
      var d := s.stations[o.worker];
      var e := d.(inbox := d.inbox + [o]);
      assert o.worker in s.stations && orders[1..] == [];
      assert Deliver(s.stations[o.worker := e], orders[1..]) == s.stations[o.worker := e];
      assert r.stations == s.stations[o.worker := e];
      hide Deliver, Carried;
      assert StationOk(scripts, s, o.worker);
      InterruptCarried(d, o, o.worker, o.id, |scripts(o.id)|, |s.log[o.id]|, s.master.queries[o.id].pc);
      forall w | w in r.stations ensures StationOk(scripts, r, w) {
        assert StationOk(scripts, s, w);
      }
    }
  }

  // ------------------------------------------------------- workers and answers

  lemma ConnectSteady(scripts: Id -> seq<Line>, s: System, t: System, w: WorkerId)
    requires AllOk(scripts, s) && w !in s.master.workers && t.log == s.log
    requires t.master == s.master.(workers := s.master.workers[w := -1]) && t.stations == s.stations[w := DESK]
    ensures AllOk(scripts, t)
  {
    hide Carried, Consecutive;
    forall v | v in t.stations ensures StationOk(scripts, t, v) {
      if v != w { assert StationOk(scripts, s, v); }
    }
    forall id ensures WaitingOk(scripts, t, id) { assert WaitingOk(scripts, s, id); }
  }

  lemma LossSteady(scripts: Id -> seq<Line>, s: System, t: System, w: WorkerId)
    requires AllOk(scripts, s) && w in s.master.workers && s.master.workers[w] >= 0 && s.master.workers[w] in s.master.queries
    requires t.log == s.log && t.master == LossStep(s.master, w) && t.stations == s.stations - {w}
    ensures AllOk(scripts, t)
  {
    hide Carried, Consecutive, Remove;
    forall v | v in t.stations ensures StationOk(scripts, t, v) { assert StationOk(scripts, s, v); }
    forall id ensures WaitingOk(scripts, t, id) { assert WaitingOk(scripts, s, id); }
  }

  lemma DispatchSteady(scripts: Id -> seq<Line>, s: System, t: System, w: WorkerId, at: nat)
    requires Conserved(s.master) && Paired(s.master) && AllOk(scripts, s) && w in s.master.workers && s.master.workers[w] == -1
    requires s.master.ready != [] && s.master.ready[0] in s.master.queries && at <= |s.master.executing| && s.master.semReady > 0
    requires t.log == s.log && t.master == DispatchStep(s.master, w, at).0
    requires t.stations == s.stations[w := s.stations[w].(
                inbox := s.stations[w].inbox + [Launch(w, s.master.ready[0], s.master.queries[s.master.ready[0]].pc)])]
    ensures AllOk(scripts, t)
  {
    DispatchWorkers(s.master, w, at);
    hide DispatchStep, StationOk, WaitingOk, Consecutive, Paired, Conserved;
    DispatchStations(scripts, s, t, w, at);
    forall q ensures WaitingOk(scripts, t, q) {
      assert WaitingOk(scripts, s, q);
      DispatchWaiting(scripts, s, t, w, at, q);
    }
  }

  lemma DispatchWorkers(m: Master, w: WorkerId, at: nat)
    requires w in m.workers && m.ready != [] && m.ready[0] in m.queries && at <= |m.executing| && m.semReady > 0
    ensures var r := DispatchStep(m, w, at).0;
            && r.workers == m.workers[w := m.ready[0]] && r.workers.Keys == m.workers.Keys && r.queries.Keys == m.queries.Keys
            && (forall q :: q in m.queries ==> r.queries[q].pc == m.queries[q].pc)
            && forall q :: Waits(r, q) ==> Waits(m, q)
  {
    hide Insert;
  }

  lemma DispatchWaiting(scripts: Id -> seq<Line>, s: System, t: System, w: WorkerId, at: nat, q: Id)
    requires w in s.master.workers && s.master.ready != [] && s.master.ready[0] in s.master.queries
    requires at <= |s.master.executing| && s.master.semReady > 0
    requires t.log == s.log && t.master == DispatchStep(s.master, w, at).0 && WaitingOk(scripts, s, q)
    ensures WaitingOk(scripts, t, q)
  {
    DispatchWorkers(s.master, w, at);
    hide DispatchStep;
  }

  lemma DispatchStations(scripts: Id -> seq<Line>, s: System, t: System, w: WorkerId, at: nat)
    requires s.stations.Keys == s.master.workers.Keys && forall v :: v in s.stations ==> StationOk(scripts, s, v)
    requires w in s.master.workers && s.master.workers[w] == -1
    requires s.master.ready != [] && s.master.ready[0] in s.master.queries && at <= |s.master.executing| && s.master.semReady > 0
    requires WaitingOk(scripts, s, s.master.ready[0])
    requires t.log == s.log && t.master == DispatchStep(s.master, w, at).0
    requires t.stations == s.stations[w := s.stations[w].(
                inbox := s.stations[w].inbox + [Launch(w, s.master.ready[0], s.master.queries[s.master.ready[0]].pc)])]
    ensures t.stations.Keys == t.master.workers.Keys && forall v :: v in t.stations ==> StationOk(scripts, t, v)
  {
    var id := s.master.ready[0];
    DispatchWorkers(s.master, w, at);
    hide Carried, DispatchStep, Idle;
    assert Waits(s.master, id);
    assert StationOk(scripts, s, w);
    LaunchCarried(s.stations[w], w, id, |scripts(id)|, |s.log[id]|);
    forall v | v in t.stations ensures StationOk(scripts, t, v) { assert StationOk(scripts, s, v); }
  }

  lemma AnswerSteady(st: Setup, scripts: Id -> seq<Line>, s: System, t: System, w: WorkerId, reply: Reply)
    requires Inv(st, s.master) && AllOk(scripts, s) && w in s.master.workers && s.master.workers[w] >= 0
    requires s.master.workers[w] in s.master.queries && w in s.stations
    requires s.stations[w].outbox != [] && s.stations[w].outbox[0] == reply
    requires t.log == s.log && t.master == AnswerStep(s.master, w, reply)
    requires t.stations == s.stations[w := s.stations[w].(outbox := s.stations[w].outbox[1..])]
    ensures AllOk(scripts, t)
  {
    var m, id, d := s.master, s.master.workers[w] as Id, s.stations[w];
    hide Carried, Consecutive, Inv, Remove, Idle;
    assert StationOk(scripts, s, w);
    AnswerCarried(d, w, id, |scripts(id)|, |s.log[id]|, m.queries[id].pc);
    hide StationOk, AnswerStep, WaitingOk;
    AnswerStations(st, scripts, s, t, w, reply);
    AnswerWaiting(st, scripts, s, t, w, reply);
    assert t.master.workers.Keys == s.master.workers.Keys by { AnswerWorkers(m, w, reply); }
  }

  lemma AnswerWorkers(m: Master, w: WorkerId, reply: Reply)
    requires w in m.workers && m.workers[w] >= 0 && m.workers[w] in m.queries
    ensures var r := AnswerStep(m, w, reply);
            && r.workers == (if reply.ReadResult? then m.workers else m.workers[w := -1])
            && r.workers.Keys == m.workers.Keys
            && r.queries.Keys == m.queries.Keys
            && forall q :: q in m.queries && q != m.workers[w] ==> r.queries[q] == m.queries[q]
    ensures reply.ReadResult? ==> AnswerStep(m, w, reply).queries[m.workers[w] as Id].pc == m.queries[m.workers[w] as Id].pc
  {
    hide Remove;
  }

  lemma AnswerStations(st: Setup, scripts: Id -> seq<Line>, s: System, t: System, w: WorkerId, reply: Reply)
    requires Inv(st, s.master) && w in s.stations && w in s.master.workers && s.master.workers[w] >= 0 && s.master.workers[w] in s.master.queries
    requires s.stations.Keys == s.master.workers.Keys && forall v :: v in s.stations ==> StationOk(scripts, s, v)
    requires s.stations[w].outbox != [] && s.stations[w].outbox[0] == reply
    requires t.log == s.log && t.master == AnswerStep(s.master, w, reply)
    requires t.stations == s.stations[w := s.stations[w].(outbox := s.stations[w].outbox[1..])]
    ensures t.stations.Keys == t.master.workers.Keys && forall v :: v in t.stations ==> StationOk(scripts, t, v)
  {
    var m, id, d := s.master, s.master.workers[w] as Id, s.stations[w];
    AnswerWorkers(m, w, reply);
    hide Carried, Inv, AnswerStep, Idle;
    assert StationOk(scripts, s, w);
    AnswerCarried(d, w, id, |scripts(id)|, |s.log[id]|, m.queries[id].pc);
    forall v | v in t.stations ensures StationOk(scripts, t, v) {
      assert StationOk(scripts, s, v);
      if v != w { OtherQuery(st, s, w, v); }
    }
  }

  lemma AnswerWaiting(st: Setup, scripts: Id -> seq<Line>, s: System, t: System, w: WorkerId, reply: Reply)
    requires Inv(st, s.master) && w in s.master.workers && s.master.workers[w] >= 0 && s.master.workers[w] in s.master.queries
    requires forall q :: WaitingOk(scripts, s, q)
    requires t.log == s.log && t.master == AnswerStep(s.master, w, reply)
    requires s.master.workers[w] in s.log
    requires var id := s.master.workers[w] as Id; reply.WasEvicted? ==> reply.pc == |s.log[id]| < |scripts(id)|
    ensures forall q :: WaitingOk(scripts, t, q)
  {
    var id := s.master.workers[w] as Id;
    NotWaiting(st, s.master, w);
    hide Inv, Remove;
    forall q ensures WaitingOk(scripts, t, q) {
      assert WaitingOk(scripts, s, q);
      if q == id { assert Waits(t.master, q) ==> reply == WasEvicted(|s.log[id]|); }
    }
  }

  lemma PlanSteady(st: Setup, scripts: Id -> seq<Line>, s: System, e: Event)
    requires Inv(st, s.master) && AllOk(scripts, s) && CanPlan(st, s, e) && forall id: Id :: WellEnded(scripts(id))
    ensures AllOk(scripts, PlanStep(st, s, e))
  {
    hide AllOk, AnswerStep, LossStep, WellEnded;
    var t := PlanStep(st, s, e);
    match e {
      case Connect(w) => ConnectSteady(scripts, s, t, w);
      case LoseWorker(w) => LossSteady(scripts, s, t, w);
      case Answer(w, reply) =>
        SameWorkers(scripts, s, w);
        AnswerSteady(st, scripts, s, t, w, reply);
      case Dispatch(w, at) => DispatchOk(st, scripts, s, w, at);
      case _ => CalmSteady(st, scripts, s, e);
    }
  }

  lemma SameWorkers(scripts: Id -> seq<Line>, s: System, w: WorkerId)
    requires AllOk(scripts, s)
    ensures w in s.stations <==> w in s.master.workers
  {
  }

  lemma DispatchOk(st: Setup, scripts: Id -> seq<Line>, s: System, w: WorkerId, at: nat)
    requires Inv(st, s.master) && AllOk(scripts, s) && CanPlan(st, s, Dispatch(w, at))
    ensures AllOk(scripts, PlanStep(st, s, Dispatch(w, at)))
  {
    var t := PlanStep(st, s, Dispatch(w, at));
    var o := Launch(w, s.master.ready[0], s.master.queries[s.master.ready[0]].pc);
    SameWorkers(scripts, s, w);
    var u := s.stations[w := s.stations[w].(inbox := s.stations[w].inbox + [o])];
    assert Step(st, s.master, Dispatch(w, at)).1 == [o];
    assert [o][1..] == [];
    assert Deliver(u, []) == u;
    assert t.stations == u;
    hide AllOk, DispatchStep;
    DispatchSteady(scripts, s, t, w, at);
  }

  // --------------------------------------------------------------------- runs

  lemma PlannedSteady(st: Setup, scripts: Id -> seq<Line>, s: System, e: Event)
    requires Steady(st, scripts, s) && CanPlan(st, s, e) && forall id: Id :: WellEnded(scripts(id))
    ensures Steady(st, scripts, PlanStep(st, s, e))
  {
    hide Inv, Step, Allowed, Faults, AllOk, Stored, Deliver, WellEnded;
    PlanSteady(st, scripts, s, e);
    StepInv(st, s.master, e);
  }

  lemma SystemStepSteady(st: Setup, scripts: Id -> seq<Line>, s: System, a: Move)
    requires Steady(st, scripts, s) && Can(st, scripts, s, a) && forall id: Id :: WellEnded(scripts(id))
    ensures Steady(st, scripts, SystemStep(st, scripts, s, a))
  {
    hide Steady, CanPlan, PlanStep, WellEnded, Turn, Hear;
    match a {
      case Plan(e) => PlannedSteady(st, scripts, s, e);
      case Receive(w) => ReceiveSteady(st, scripts, s, w);
      case Execute(w, ok, flushed) => ExecuteSteady(st, scripts, s, w, ok, flushed);
    }
  }

  lemma OriginSteady(st: Setup, scripts: Id -> seq<Line>)
    ensures Steady(st, scripts, ORIGIN)
  {
    StartInv(st);
  }

  lemma {:induction false} OutcomeSteady(st: Setup, scripts: Id -> seq<Line>, s: System, moves: seq<Move>)
    requires Steady(st, scripts, s) && Feasible(st, scripts, s, moves) && forall id: Id :: WellEnded(scripts(id))
    ensures Steady(st, scripts, Outcome(st, scripts, s, moves))
    decreases |moves|
  {
    if moves != [] {
      SystemStepSteady(st, scripts, s, moves[0]);
      hide Steady, Can, SystemStep, WellEnded;
      OutcomeSteady(st, scripts, SystemStep(st, scripts, s, moves[0]), moves[1..]);
    }
  }

  /**
   Whatever the schedule of preemptions, requeues and worker changes, the lines
   executed for a query are 0, 1, 2, ... with no gap or repeat, and none lies
   beyond END.
   */
  lemma ExecutedOnceInOrder(st: Setup, scripts: Id -> seq<Line>, moves: seq<Move>, id: Id)
    requires (forall q: Id :: WellEnded(scripts(q))) && Feasible(st, scripts, ORIGIN, moves)
    ensures var s := Outcome(st, scripts, ORIGIN, moves);
            id in s.log ==> |s.log[id]| <= |scripts(id)| && forall i :: 0 <= i < |s.log[id]| ==> s.log[id][i] == i
  {
    OriginSteady(st, scripts);
    OutcomeSteady(st, scripts, ORIGIN, moves);
    hide Feasible, Outcome, Inv, WellEnded;
  }

  /** A waiting query is sent, next time, the line after the last one executed, and that line exists. */
  lemma ResumesWhereItStopped(st: Setup, scripts: Id -> seq<Line>, moves: seq<Move>, id: Id)
    requires (forall q: Id :: WellEnded(scripts(q))) && Feasible(st, scripts, ORIGIN, moves)
    requires Waits(Outcome(st, scripts, ORIGIN, moves).master, id)
    ensures var s := Outcome(st, scripts, ORIGIN, moves);
            && id in s.log && id in s.master.queries
            && s.master.queries[id].pc == |s.log[id]| && HasLine(scripts(id), s.master.queries[id].pc)
  {
    OriginSteady(st, scripts);
    OutcomeSteady(st, scripts, ORIGIN, moves);
    var s := Outcome(st, scripts, ORIGIN, moves);
    hide Feasible, Outcome, Inv, WellEnded;
    assert WaitingOk(scripts, s, id);
  }

  /** No worker goes silent: a query it runs has a line to execute, its launch to read, or its last answer on its way. */
  lemma NeverSilent(st: Setup, scripts: Id -> seq<Line>, moves: seq<Move>, w: WorkerId)
    requires (forall q: Id :: WellEnded(scripts(q))) && Feasible(st, scripts, ORIGIN, moves)
    requires w in Outcome(st, scripts, ORIGIN, moves).master.workers
    ensures var s := Outcome(st, scripts, ORIGIN, moves);
            w in s.stations &&
            var d, id := s.stations[w], s.master.workers[w];
            id >= 0 ==>
              || (exists pc :: Launch(w, id, pc) in d.inbox && HasLine(scripts(id as Id), pc))
              || (d.outbox != [] && !d.outbox[|d.outbox| - 1].ReadResult?)
              || (d.current.Some? && d.current.value.id == id && HasLine(scripts(id as Id), d.current.value.pc))
  {
    OriginSteady(st, scripts);
    OutcomeSteady(st, scripts, ORIGIN, moves);
    var s := Outcome(st, scripts, ORIGIN, moves);
    hide Feasible, Outcome, Inv, WellEnded;
    assert StationOk(scripts, s, w);
  }
}
