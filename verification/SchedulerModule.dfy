/** The master's queues, lists and semaphores as an object that its threads update in place. */
module SchedulerModule {
  import opened Common
  import opened Scheduler
  import opened SchedulerInvariant
  import opened SchedulerRuns

  /** The event may happen, does not fault, and leaves this state and these messages. */
  ghost predicate Takes(st: Setup, m: Master, e: Event, r: Master, orders: seq<Order>) {
    Stored(m) && Allowed(st, m, e) && !Faults(st, m, e) && Step(st, m, e) == (r, orders)
  }

  /** The list of workers and their queries name the same workers, each once. */
  ghost predicate Listed(connected: seq<WorkerId>, running: map<WorkerId, int>) {
    && (forall w :: w in connected <==> w in running)
    && forall i, j :: 0 <= i < j < |connected| ==> connected[i] != connected[j]
  }

  class Planner {
    const setup: Setup
    var next: Id
    var queries: map<Id, Query>
    var arrived: seq<Id>
    var ready: seq<Id>
    var executing: seq<Id>
    var evicted: seq<Id>
    var done: seq<Id>
    var connected: seq<WorkerId>
    var running: map<WorkerId, int>
    var semWaiting: nat
    var semReady: nat
    var semExit: nat
    ghost var strays: nat
    ghost var started: seq<Id>

    ghost function View(): Master
      reads this
    {
      Master(next, queries, arrived, ready, executing, evicted, done, running,
             semWaiting, semReady, semExit, strays, started)
    }

    ghost predicate Valid()
      reads this
    {
      Listed(connected, running) && Inv(setup, View())
    }

    constructor (setup: Setup)
      ensures Valid() && View() == START && this.setup == setup
    {
      this.setup := setup;
      next, queries := 0, map[];
      arrived, ready, executing, evicted, done := [], [], [], [], [];
      connected, running := [], map[];
      semWaiting, semReady, semExit := 0, 0, 0;
      strays, started := 0, [];
      new;
      StartInv(setup);
    }

    // -------------------------------------------------------------- monitors

    /** The worker that runs the query, the first found. */
    method WorkerExecuting(id: Id) returns (w: Option<WorkerId>)
      requires Listed(connected, running)
      ensures w.Some? <==> Busy(View(), id)
      ensures w.Some? ==> WorkerOf(View(), id, w.value)
    {
      var i := 0;
      while i < |connected|
        invariant 0 <= i <= |connected|
        invariant forall j :: 0 <= j < i ==> running[connected[j]] != id
      {
        if running[connected[i]] == id { return Some(connected[i]); }
        i := i + 1;
      }
      w := None;
    }

    method AllWorkersBusy() returns (all: bool)
      requires Listed(connected, running)
      ensures all <==> AllBusy(View())
    {
      var i := 0;
      while i < |connected|
        invariant 0 <= i <= |connected|
        invariant forall j :: 0 <= j < i ==> running[connected[j]] >= 0
      {
        if running[connected[i]] < 0 { return false; }
        i := i + 1;
      }
      all := true;
    }

    /** Where the list takes the query: at its end, or after everything not worse. */
    method PlaceFor(list: seq<Id>, id: Id) returns (at: nat)
      requires id in queries && (forall i :: 0 <= i < |list| ==> list[i] in queries)
      requires setup.algorithm == Priorities ==> Sorted(queries, list)
      ensures Place(setup, queries, list, at, id)
    {
      if setup.algorithm == Fifo { return |list|; }
      at := 0;
      while at < |list| && queries[list[at]].priority <= queries[id].priority
        invariant at <= |list|
        invariant forall j :: 0 <= j < at ==> queries[list[j]].priority <= queries[id].priority
      {
        at := at + 1;
      }
    }

    /** Sorts by priority, inserting one query at a time. */
    method SortByPriority(list: seq<Id>) returns (sorted: seq<Id>)
      requires setup.algorithm == Priorities && forall i :: 0 <= i < |list| ==> list[i] in queries
      ensures multiset(sorted) == multiset(list) && (forall i :: 0 <= i < |sorted| ==> sorted[i] in queries)
      ensures Sorted(queries, sorted)
    {
      sorted := [];
      var i := 0;
      while i < |list|
        invariant 0 <= i <= |list|
        invariant multiset(sorted) == multiset(list[..i])
        invariant (forall i :: 0 <= i < |sorted| ==> sorted[i] in queries) && Sorted(queries, sorted)
      {
        var at := PlaceFor(sorted, list[i]);
        assert list[..i + 1] == list[..i] + [list[i]];
        sorted := Insert(sorted, at, list[i]);
        i := i + 1;
      }
      assert list[..|list|] == list;
    }

    static method RemoveElement(list: seq<Id>, id: Id) returns (rest: seq<Id>)
      ensures rest == Remove(list, id)
    {
      var i := 0;
      while i < |list| && list[i] != id
        invariant 0 <= i <= |list|
        invariant forall j :: 0 <= j < i ==> list[j] != id
      {
        i := i + 1;
      }
      if i == |list| {
        RemoveNone(list, id);
        return list;
      }
      rest := list[..i] + list[i + 1..];
      RemoveFirst(list[..i], id, list[i + 1..]);
      assert list == list[..i] + ([id] + list[i + 1..]);
    }

    // ------------------------------------------------------------- preemption

    /** Asks the worker of the worst running query to evict it, when every worker is busy and the challenger is better. */
    method CheckPreemption(id: Id) returns (orders: seq<Order>)
      requires id in queries && Known(View(), executing) && Paired(View())
      requires Listed(connected, running)
      requires Displaced(setup, View(), id).Some? ==> Busy(View(), Displaced(setup, View(), id).value)
      modifies `queries
      ensures (View(), orders) == Preempt(setup, old(View()), id)
    {
      orders := [];
      if setup.algorithm == Priorities && |executing| > 0 {
        var all := AllWorkersBusy();
        var worst := executing[|executing| - 1];
        if all && queries[id].priority < queries[worst].priority {
          var w := WorkerExecuting(worst);
          assert WorkerOf(View(), worst, WorkerRunning(View(), worst));
          queries := queries[worst := queries[worst].(action := Evicting)];
          orders := [Evict(w.value, worst)];
        }
      }
    }

    // ------------------------------------------------------------- operations

    /** A query control connects: the query gets its id and waits in New. */
    method Admit(priority: int) returns (id: Id)
      requires Valid()
      modifies this
      ensures Valid() && id == old(next) && Takes(setup, old(View()), Arrive(priority), View(), [])
    {
      hide Inv, Step;
      ghost var was := View();
      id := next;
      next := next + 1;
      queries := queries[id := Query(priority, 0, Created, false, false)];
      arrived := arrived + [id];
      semWaiting := semWaiting + 1;
      Arrived(setup, was, priority);
    }

    /** A worker connects, idle. */
    method AddWorker(w: WorkerId)
      requires Valid() && w !in running
      modifies `connected, `running
      ensures Valid() && Takes(setup, old(View()), Connect(w), View(), [])
    {
      hide Inv, Step, Allowed, Faults;
      ghost var was := View();
      connected := connected + [w];
      running := running[w := -1];
      Connected(setup, was, w);
    }

    /** The next query, an evicted one before a new one, enters Ready. */
    method EnterReady() returns (id: Id, ghost at: nat)
      requires Valid() && semWaiting > 0 && (evicted != [] || arrived != [])
      modifies `queries, `semWaiting, `evicted, `arrived, `ready
      ensures Stored(old(View())) && id == NextReady(old(View())) && at <= |old(ready)|
      ensures Place(setup, old(queries), old(ready), at, id)
      ensures View() == Enter(old(View()), at)
    {
      InvFacts(setup, View());
      NextIsKnown(View());
      hide Inv, Insert, Place, Paired, Conserved;
      semWaiting := semWaiting - 1;
      if evicted != [] {
        id, evicted := evicted[0], evicted[1..];
      } else {
        id, arrived := arrived[0], arrived[1..];
      }
      var place := PlaceFor(ready, id);
      at := place;
      PlaceBounds(setup, queries, ready, place, id);
      ready := Insert(ready, place, id);
      queries := queries[id := queries[id].(action := Waiting)];
    }

    /** Starts the aging thread of the query, unless it has one or the setup has none. */
    method StartAging(id: Id)
      requires id in queries
      modifies `queries
      ensures queries == old(queries)[id := old(queries)[id].(
                aging := old(queries)[id].aging || (setup.ages && setup.algorithm == Priorities))]
    {
      if setup.ages && setup.algorithm == Priorities && !queries[id].aging {
        queries := queries[id := queries[id].(aging := true)];
      }
    }

    /** The query in Ready may displace a running one, starts aging and gives Ready its token. */
    method SettleReady(id: Id) returns (orders: seq<Order>)
      requires id in queries && Known(View(), executing) && Paired(View())
      requires Listed(connected, running)
      requires Displaced(setup, View(), id).Some? ==> Busy(View(), Displaced(setup, View(), id).value)
      modifies `queries, `semReady
      ensures (View(), orders) == Settle(setup, old(View()), id)
    {
      hide Preempt, Settle, Displaced, Paired;
      orders := CheckPreemption(id);
      Settled(setup, old(View()), id, View(), orders);
      StartAging(id);
      semReady := semReady + 1;
    }

    /** One turn of the ready thread. */
    method MakeReady() returns (orders: seq<Order>, ghost at: nat)
      requires Valid() && semWaiting > 0
      modifies `queries, `semWaiting, `evicted, `arrived, `ready, `semReady
      ensures Valid() && Takes(setup, old(View()), Event.MakeReady(at), View(), orders)
    {
      ghost var was := View();
      Waits(setup, was);
      hide *;
      var id: Id;
      id, at := EnterReady();
      Entering(setup, was, at);
      orders := SettleReady(id);
      MadeReady(setup, was, at, View(), orders);
    }

    /** The first query of Ready goes to its place in Execute. */
    method MoveToExecute() returns (id: Id, ghost at: nat)
      requires Stored(View()) && ready != [] && (setup.algorithm == Priorities ==> Sorted(queries, executing))
      modifies `ready, `executing
      ensures id == old(ready)[0] && ready == old(ready)[1..] && at <= |old(executing)|
      ensures id in queries && Place(setup, queries, old(executing), at, id)
      ensures executing == Insert(old(executing), at, id)
    {
      id, ready := ready[0], ready[1..];
      var place := PlaceFor(executing, id);
      at := place;
      PlaceBounds(setup, queries, executing, place, id);
      executing := Insert(executing, place, id);
    }

    /** The worker gets the query. */
    method Assign(w: WorkerId) returns (orders: seq<Order>, ghost at: nat)
      requires Stored(View()) && ready != [] && (setup.algorithm == Priorities ==> Sorted(queries, executing))
      requires semReady > 0
      modifies `ready, `executing, `queries, `running, `semReady, `started
      ensures at <= |old(executing)| && old(ready)[0] in old(queries)
      ensures Place(setup, old(queries), old(executing), at, old(ready)[0])
      ensures (View(), orders) == DispatchStep(old(View()), w, at)
    {
      hide Stored, Place, Insert, Sorted;
      var id: Id;
      id, at := MoveToExecute();
      semReady := semReady - 1;
      queries := queries[id := queries[id].(action := Running)];
      running := running[w := id];
      started := started + [id];
      orders := [Launch(w, id, queries[id].pc)];
    }

    /** A worker takes the first query of Ready: the token is there, and when the query is not, the code faults. */
    method Dispatch(w: WorkerId) returns (fault: bool, orders: seq<Order>, ghost at: nat)
      requires Valid() && semReady > 0 && w in running && running[w] == -1
      modifies `ready, `executing, `queries, `running, `semReady, `started
      ensures Valid() && Stored(old(View())) && fault == Faults(setup, old(View()), Event.Dispatch(w, at))
      ensures if fault then View() == old(View()) && orders == []
              else Takes(setup, old(View()), Event.Dispatch(w, at), View(), orders)
    {
      ghost var was := View();
      InvFacts(setup, was);
      fault, orders, at := ready == [], [], 0;
      if fault { return; }
      SameListed(connected, running, w, ready[0] as int);
      hide Inv, Place, Paired, Conserved, Takes, Listed, Tokens, Sorted, Stored, Insert;
      orders, at := Assign(w);
      Dispatched(setup, was, w, at);
    }

    /** The query leaves Execute with its new program counter, to wait or, without client, to Exit. */
    method EvictQuery(id: Id, pc: int)
      requires id in queries
      modifies `queries, `executing, `evicted, `done, `semWaiting, `semExit
      ensures View() == TakeBack(old(View()), id, pc)
    {
      TakeBackIs(View(), id, pc);
      hide Remove, TakeBack;
      var rest := RemoveElement(executing, id);
      executing := rest;
      var q := queries[id].(pc := pc);
      if !q.disconnected {
        evicted, semWaiting := evicted + [id], semWaiting + 1;
        queries := queries[id := q.(action := Waiting)];
      } else {
        done, semExit := done + [id], semExit + 1;
        queries := queries[id := q.(action := Finished)];
      }
    }

    /** The query goes from Execute to Exit. */
    method SendExit(id: Id)
      requires id in queries
      modifies `executing, `done, `queries, `semExit
      ensures View() == Finish(old(View()).(executing := Remove(old(executing), id)), id)
    {
      FinishIs(View(), id, Remove(executing, id));
      hide Remove, Finish;
      var rest := RemoveElement(executing, id);
      executing, done, semExit := rest, done + [id], semExit + 1;
      queries := queries[id := queries[id].(action := Finished)];
    }

    method TakeAnswer(w: WorkerId, reply: Reply)
      requires w in running && running[w] >= 0 && running[w] in queries
      modifies `queries, `executing, `evicted, `done, `semWaiting, `semExit, `running
      ensures View() == AnswerStep(old(View()), w, reply)
    {
      hide Remove;
      var id := running[w] as Id;
      match reply {
        case ReadResult =>
          queries := queries[id := queries[id].(action := Running)];
        case HasFinished =>
          running := running[w := -1];
          SendExit(id);
        case WasEvicted(pc) =>
          EvictQuery(id, pc);
          running := running[w := -1];
      }
    }

    /** The worker answers about the query it runs. */
    method Respond(w: WorkerId, reply: Reply)
      requires Valid() && w in running && running[w] >= 0
      modifies `queries, `executing, `evicted, `done, `semWaiting, `semExit, `running
      ensures Valid() && Takes(setup, old(View()), Answer(w, reply), View(), [])
    {
      ghost var was := View();
      RunsKnown(setup, was, w);
      SameListed(connected, running, w, -1);
      hide Inv, Takes, Listed, Stored, Finish, TakeBack;
      TakeAnswer(w, reply);
      Answered(setup, was, w, reply);
    }

    /** The worker leaves the list of workers. */
    method RemoveWorker(w: WorkerId)
      requires Listed(connected, running) && w in running
      modifies `connected, `running
      ensures Listed(connected, running) && running == old(running) - {w}
    {
      var i := 0;
      while connected[i] != w
        invariant 0 <= i < |connected|
        invariant forall j :: 0 <= j < i ==> connected[j] != w
        invariant connected == old(connected) && running == old(running)
        decreases |connected| - i
      {
        assert w in connected;
        i := i + 1;
      }
      connected := connected[..i] + connected[i + 1..];
      running := running - {w};
    }

    method Unseat(w: WorkerId)
      requires Listed(connected, running) && w in running && running[w] >= 0 && running[w] in queries
      modifies `connected, `running, `executing, `done, `queries, `semExit
      ensures Listed(connected, running) && View() == LossStep(old(View()), w)
    {
      hide Listed, Remove;
      var id := running[w] as Id;
      RemoveWorker(w);
      SendExit(id);
    }

    /** A busy worker leaves, and its query with it. */
    method LoseWorker(w: WorkerId)
      requires Valid() && w in running && running[w] >= 0
      modifies `connected, `running, `executing, `done, `queries, `semExit
      ensures Valid() && Takes(setup, old(View()), Event.LoseWorker(w), View(), [])
    {
      ghost var was := View();
      RunsKnown(setup, was, w);
      hide Inv, Takes, Listed, Stored, LossStep;
      Unseat(w);
      Lost(setup, was, w);
    }

    /** A query in Ready goes to Exit without taking the token it leaves behind. */
    method Withdraw(id: Id)
      requires id in queries && id in ready && !Busy(View(), id)
      modifies `queries, `ready, `done, `semExit, `strays
      ensures View() == HangupStep(old(View()), id).0
    {
      WithdrawnIs(View(), id);
      hide Remove, Busy, HangupStep;
      queries := queries[id := queries[id].(disconnected := true, action := Finished)];
      ready := RemoveElement(ready, id);
      done := done + [id];
      semExit := semExit + 1;
      strays := strays + 1;
    }

    /** The query control of the query hangs up. */
    method Hangup(id: Id) returns (orders: seq<Order>)
      requires Valid() && id in queries && !queries[id].disconnected
      modifies `queries, `ready, `done, `semExit, `strays
      ensures Valid() && Takes(setup, old(View()), Event.Hangup(id), View(), orders)
    {
      ghost var was := View();
      hide Inv, Remove, Takes, Listed, Busy;
      orders := [];
      var w := WorkerExecuting(id);
      if w.Some? {
        queries := queries[id := queries[id].(disconnected := true, action := Evicting)];
        orders := [Evict(w.value, id)];
        HungUpRunning(setup, was, id, w.value);
      } else if id in ready {
        Withdraw(id);
        HungUpReady(setup, was, id);
      } else {
        HungUpElsewhere(setup, was, id);
      }
    }

    /** One turn of the aging thread that goes on: a better priority, Ready sorted again, and a check. */
    method Improve(id: Id) returns (orders: seq<Order>)
      requires Valid() && id in queries && queries[id].aging && Ages(View(), id) && setup.algorithm == Priorities
      modifies `queries, `ready
      ensures Valid() && Takes(setup, old(View()), Tick(id, ready), View(), orders)
    {
      ghost var was := View();
      InvFacts(setup, was);
      hide Inv, Takes, Conserved, Tokens, Displaced, Preempt, Listed, Paired, Ages, Ranked;
      queries := queries[id := queries[id].(priority := queries[id].priority - 1)];
      ready := SortByPriority(ready);
      hide Sorted;
      Ticking(setup, was, id, ready);
      orders := CheckPreemption(id);
      Ticked(setup, was, id, ready, View(), orders);
    }

    /** One turn of the aging thread of a query. */
    method Age(id: Id) returns (orders: seq<Order>, ghost e: Event)
      requires Valid() && id in queries && queries[id].aging && setup.algorithm == Priorities
      modifies `queries, `ready
      ensures Valid() && Takes(setup, old(View()), e, View(), orders)
      ensures e == if Ages(old(View()), id) then Tick(id, ready) else StopAging(id)
    {
      ghost var was := View();
      hide Inv, Takes, Listed, Busy;
      var w := WorkerExecuting(id);
      if !queries[id].disconnected && queries[id].action != Finished && w.None? && queries[id].priority > 0 {
        orders := Improve(id);
        e := Tick(id, ready);
      } else {
        queries := queries[id := queries[id].(aging := false)];
        orders, e := [], StopAging(id);
        Stopped(setup, was, id);
      }
    }

    /** The exit thread frees a finished query. */
    method Release() returns (id: Id)
      requires Valid() && semExit > 0
      modifies this
      ensures Valid() && |old(done)| > 0 && id == old(done)[0]
      ensures Takes(setup, old(View()), Event.Release, View(), [])
    {
      ghost var was := View();
      InvFacts(setup, was);
      hide Inv, Takes, Conserved, Paired, Ranked;
      semExit := semExit - 1;
      id, done := done[0], done[1..];
      queries := queries - {id};
      Released(setup, was);
    }
  }

  // ------------------------------------------------------ one lemma an operation

  lemma Arrived(st: Setup, m: Master, priority: int)
    requires Inv(st, m)
    ensures var r := m.(next := m.next + 1, queries := m.queries[m.next := Query(priority, 0, Created, false, false)],
                        arrived := m.arrived + [m.next], semWaiting := m.semWaiting + 1);
            Takes(st, m, Arrive(priority), r, []) && Inv(st, r)
  {
    InvFacts(st, m);
    ArriveStep(st, m, priority);
    StepInv(st, m, Arrive(priority));
    hide Inv, Step, Stored;
  }

  lemma ArriveStep(st: Setup, m: Master, priority: int)
    requires Stored(m)
    ensures Allowed(st, m, Arrive(priority)) && !Faults(st, m, Arrive(priority))
    ensures Step(st, m, Arrive(priority)) ==
            (m.(next := m.next + 1, queries := m.queries[m.next := Query(priority, 0, Created, false, false)],
                arrived := m.arrived + [m.next], semWaiting := m.semWaiting + 1), [])
  {
    hide Stored;
  }

  lemma Connected(st: Setup, m: Master, w: WorkerId)
    requires Inv(st, m) && w !in m.workers
    ensures var r := m.(workers := m.workers[w := -1]); Takes(st, m, Connect(w), r, []) && Inv(st, r)
  {
    StepInv(st, m, Connect(w));
    hide Inv;
  }

  lemma InvFacts(st: Setup, m: Master)
    requires Inv(st, m)
    ensures Stored(m) && Conserved(m) && Paired(m) && Tokens(m) && (st.algorithm == Priorities ==> Ranked(m))
  {
  }

  lemma Waits(st: Setup, m: Master)
    requires Inv(st, m) && m.semWaiting > 0
    ensures m.evicted != [] || m.arrived != []
  {
  }

  /** The two queues the ready thread takes from hold known queries. */
  lemma NextIsKnown(m: Master)
    requires Stored(m) && (m.evicted != [] || m.arrived != [])
    ensures NextReady(m) in m.queries
  {
  }

  lemma PlaceBounds(st: Setup, queries: map<Id, Query>, s: seq<Id>, at: nat, id: Id)
    requires id in queries && (forall i :: 0 <= i < |s| ==> s[i] in queries) && Place(st, queries, s, at, id)
    ensures at <= |s|
  {
  }

  /** What is known once the query is in Ready, and where the operation ends. */
  lemma Entering(st: Setup, m: Master, at: nat)
    requires Inv(st, m) && m.semWaiting > 0 && (m.evicted != [] || m.arrived != [])
    requires Stored(m) && NextReady(m) in m.queries && Place(st, m.queries, m.ready, at, NextReady(m))
    ensures Allowed(st, m, MakeReady(at)) && !Faults(st, m, MakeReady(at)) && at <= |m.ready|
    ensures var entered, id := Enter(m, at), NextReady(m);
            && id in entered.queries && Known(entered, entered.executing) && Paired(entered)
            && (Displaced(st, entered, id).Some? ==> Busy(entered, Displaced(st, entered, id).value))
  {
    FaultsOnlyOnStrayTokens(st, m, MakeReady(at));
    hide Inv, Insert, Sorted;
    PairedSame(m, Enter(m, at));
  }

  lemma MadeReady(st: Setup, m: Master, at: nat, r: Master, orders: seq<Order>)
    requires Inv(st, m) && m.semWaiting > 0 && (m.evicted != [] || m.arrived != [])
    requires Stored(m) && NextReady(m) in m.queries && Place(st, m.queries, m.ready, at, NextReady(m)) && at <= |m.ready|
    requires var entered, id := Enter(m, at), NextReady(m);
             && id in entered.queries && Known(entered, entered.executing)
             && (Displaced(st, entered, id).Some? ==> Busy(entered, Displaced(st, entered, id).value))
             && (r, orders) == Settle(st, entered, id)
    ensures Takes(st, m, MakeReady(at), r, orders) && Inv(st, r)
  {
    Entering(st, m, at);
    StepInv(st, m, MakeReady(at));
    hide Inv, Insert, Sorted, Enter, Settle, Allowed, Faults;
  }

  lemma Dispatched(st: Setup, m: Master, w: WorkerId, at: nat)
    requires Inv(st, m) && m.semReady > 0 && w in m.workers && m.workers[w] == -1 && m.ready != [] && m.ready[0] in m.queries
    requires Stored(m) && Place(st, m.queries, m.executing, at, m.ready[0]) && at <= |m.executing|
    ensures var (r, orders) := DispatchStep(m, w, at); Takes(st, m, Dispatch(w, at), r, orders) && Inv(st, r)
  {
    StepInv(st, m, Dispatch(w, at));
    hide Inv, Sorted, Insert, DispatchStep;
  }

  lemma RunsKnown(st: Setup, m: Master, w: WorkerId)
    requires Inv(st, m) && w in m.workers && m.workers[w] >= 0
    ensures m.workers[w] in m.queries && Stored(m)
  {
    Exclusive(m, m.workers[w] as Id);
  }

  lemma Answered(st: Setup, m: Master, w: WorkerId, reply: Reply)
    requires Inv(st, m) && w in m.workers && m.workers[w] >= 0 && m.workers[w] in m.queries
    ensures Takes(st, m, Answer(w, reply), AnswerStep(m, w, reply), []) && Inv(st, AnswerStep(m, w, reply))
  {
    StepInv(st, m, Answer(w, reply));
    hide Paired, Conserved, Ranked, Tokens, AnswerStep, Inv;
  }

  lemma Lost(st: Setup, m: Master, w: WorkerId)
    requires Inv(st, m) && w in m.workers && m.workers[w] >= 0 && m.workers[w] in m.queries
    ensures Takes(st, m, LoseWorker(w), LossStep(m, w), []) && Inv(st, LossStep(m, w))
  {
    StepInv(st, m, LoseWorker(w));
    hide Paired, Conserved, Ranked, Tokens, LossStep, Inv;
  }

  lemma HungUpRunning(st: Setup, m: Master, id: Id, w: WorkerId)
    requires Inv(st, m) && id in m.queries && !m.queries[id].disconnected && WorkerOf(m, id, w)
    ensures var r := m.(queries := m.queries[id := m.queries[id].(disconnected := true, action := Evicting)]);
            Takes(st, m, Hangup(id), r, [Evict(w, id)]) && Inv(st, r)
  {
    InvFacts(st, m);
    HungUp(st, m, id);
    hide Takes, Inv, Conserved, Ranked, Tokens;
    assert Busy(m, id) && WorkerOf(m, id, WorkerRunning(m, id));
  }

  lemma HungUpReady(st: Setup, m: Master, id: Id)
    requires Inv(st, m) && id in m.queries && !m.queries[id].disconnected && !Busy(m, id) && id in m.ready
    ensures var r := m.(queries := m.queries[id := m.queries[id].(disconnected := true, action := Finished)],
                        ready := Remove(m.ready, id), done := m.done + [id], semExit := m.semExit + 1,
                        strays := m.strays + 1);
            HangupStep(m, id) == (r, []) && Takes(st, m, Hangup(id), r, []) && Inv(st, r)
  {
    hide Remove, Busy;
    HungUp(st, m, id);
    hide Takes, Inv;
  }

  lemma HungUp(st: Setup, m: Master, id: Id)
    requires Inv(st, m) && id in m.queries && !m.queries[id].disconnected
    ensures var (r, orders) := HangupStep(m, id); Takes(st, m, Hangup(id), r, orders) && Inv(st, r)
  {
    StepInv(st, m, Hangup(id));
    hide Conserved, Ranked, Paired, Tokens, HangupStep, Inv;
  }

  lemma HungUpElsewhere(st: Setup, m: Master, id: Id)
    requires Inv(st, m) && id in m.queries && !m.queries[id].disconnected && !Busy(m, id) && id !in m.ready
    ensures Takes(st, m, Hangup(id), m, [])
  {
    HungUp(st, m, id);
    hide Takes, Inv;
  }

  lemma SameListed(connected: seq<WorkerId>, running: map<WorkerId, int>, w: WorkerId, x: int)
    requires Listed(connected, running) && w in running
    ensures Listed(connected, running[w := x])
  {
  }

  lemma Ticking(st: Setup, m: Master, id: Id, order: seq<Id>)
    requires Inv(st, m) && Stored(m) && Allowed(st, m, Tick(id, order))
    ensures var aged := Aged(m, id).(ready := order);
            && Known(aged, aged.executing) && Paired(aged)
            && (Displaced(st, aged, id).Some? ==> Busy(aged, Displaced(st, aged, id).value))
  {
    var aged := Aged(m, id).(ready := order);
    FaultsOnlyOnStrayTokens(st, m, Tick(id, order));
    assert Displaced(st, aged, id) == Displaced(st, Aged(m, id), id);
    PairedSame(m, aged);
    hide Paired, Conserved, Sorted;
  }

  lemma Ticked(st: Setup, m: Master, id: Id, order: seq<Id>, r: Master, orders: seq<Order>)
    requires Inv(st, m) && Stored(m) && Allowed(st, m, Tick(id, order))
    requires var aged := Aged(m, id).(ready := order);
             && Known(aged, aged.executing)
             && (Displaced(st, aged, id).Some? ==> Busy(aged, Displaced(st, aged, id).value))
             && (r, orders) == Preempt(st, aged, id)
    ensures Takes(st, m, Tick(id, order), r, orders) && Inv(st, r)
  {
    FaultsOnlyOnStrayTokens(st, m, Tick(id, order));
    StepInv(st, m, Tick(id, order));
    hide Paired, Conserved, Sorted, Preempt, Displaced, Inv;
  }

  lemma Stopped(st: Setup, m: Master, id: Id)
    requires Inv(st, m) && id in m.queries && m.queries[id].aging && !Ages(m, id)
    ensures var r := m.(queries := m.queries[id := m.queries[id].(aging := false)]);
            Takes(st, m, StopAging(id), r, []) && Inv(st, r)
  {
    StepInv(st, m, StopAging(id));
    hide Paired, Conserved, Ranked, Tokens, Inv;
  }

  lemma Released(st: Setup, m: Master)
    requires Inv(st, m) && m.semExit > 0 && m.done != []
    ensures var r := m.(done := m.done[1..], queries := m.queries - {m.done[0]}, semExit := m.semExit - 1);
            Takes(st, m, Release, r, []) && Inv(st, r)
  {
    StepInv(st, m, Release);
    hide Paired, Conserved, Ranked, Tokens, Inv;
  }

  lemma Settled(st: Setup, m: Master, id: Id, asked: Master, orders: seq<Order>)
    requires id in m.queries && Known(m, m.executing)
    requires Displaced(st, m, id).Some? ==> Busy(m, Displaced(st, m, id).value)
    requires (asked, orders) == Preempt(st, m, id)
    ensures id in asked.queries
    ensures Settle(st, m, id) ==
            (asked.(queries := asked.queries[id := asked.queries[id].(
                      aging := asked.queries[id].aging || (st.ages && st.algorithm == Priorities))],
                    semReady := m.semReady + 1), orders)
  {
  }

  // The three ways out of a list, field by field.

  lemma FinishIs(m: Master, id: Id, rest: seq<Id>)
    requires id in m.queries
    ensures Finish(m.(executing := rest), id) ==
            m.(executing := rest, queries := m.queries[id := m.queries[id].(action := Finished)],
               done := m.done + [id], semExit := m.semExit + 1)
  {
  }

  lemma TakeBackIs(m: Master, id: Id, pc: int)
    requires id in m.queries
    ensures var q := m.queries[id].(pc := pc); var rest := Remove(m.executing, id);
            TakeBack(m, id, pc) ==
            if q.disconnected then m.(executing := rest, queries := m.queries[id := q.(action := Finished)],
                                      done := m.done + [id], semExit := m.semExit + 1)
            else m.(executing := rest, queries := m.queries[id := q.(action := Waiting)],
                    evicted := m.evicted + [id], semWaiting := m.semWaiting + 1)
  {
  }

  lemma WithdrawnIs(m: Master, id: Id)
    requires id in m.queries && id in m.ready && !Busy(m, id)
    ensures HangupStep(m, id).0 ==
            m.(queries := m.queries[id := m.queries[id].(disconnected := true, action := Finished)],
               ready := Remove(m.ready, id), done := m.done + [id], semExit := m.semExit + 1, strays := m.strays + 1)
  {
  }

  lemma TakenBackHeld(m: Master, id: Id, pc: int)
    requires id in m.queries
    ensures id in m.executing ==> Held(TakeBack(m, id, pc)) == Held(m)
  {
    hide Held, Remove;
    if id in m.executing { LeftHeld(m, TakeBack(m, id, pc), id); }
  }

  lemma FinishedHeld(m: Master, id: Id)
    requires id in m.queries
    ensures id in m.executing ==> Held(Finish(m.(executing := Remove(m.executing, id)), id)) == Held(m)
  {
    hide Held, Remove;
    if id in m.executing { LeftHeld(m, Finish(m.(executing := Remove(m.executing, id)), id), id); }
  }

  /** The query goes from Ready to Exit; its token is left without a query. */
  lemma WithdrawalHeld(m: Master, id: Id)
    requires id in m.queries && id in m.ready && !Busy(m, id)
    ensures var r := HangupStep(m, id).0; Held(r) == Held(m) && r.semReady - |r.ready| == m.semReady - |m.ready| + 1
  {
    WithdrawnHeld(m, HangupStep(m, id).0, id);
    RemoveMembers(m.ready, id);
    hide Held, Remove, Busy;
  }

  lemma {:induction false} RemoveNone(s: seq<Id>, id: Id)
    requires forall j :: 0 <= j < |s| ==> s[j] != id
    ensures Remove(s, id) == s
  {
    if s != [] { RemoveNone(s[1..], id); }
  }

  lemma {:induction false} RemoveFirst(a: seq<Id>, id: Id, b: seq<Id>)
    requires forall j :: 0 <= j < |a| ==> a[j] != id
    ensures Remove(a + ([id] + b), id) == a + b
  {
    var s := a + ([id] + b);
    if a == [] {
      assert s == [id] + b && s[1..] == b;
    } else {
      assert s[0] == a[0] && s[1..] == a[1..] + ([id] + b);
      RemoveFirst(a[1..], id, b);
      assert [a[0]] + (a[1..] + b) == a + b;
    }
  }
}
