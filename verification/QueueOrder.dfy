/** In which order the master's queues are served, and what a disconnection does, in every reachable state. */
module QueueOrder {
  import opened Common
  import opened Scheduler
  import opened SchedulerInvariant
  import opened SchedulerRuns
  import opened SchedulerPolicies

  /** Desalojo is served first, and each of the two queues from its head; one query joins Ready. */
  lemma ReadyServes(st: Setup, m: Master, at: nat)
    requires Stored(m) && Allowed(st, m, MakeReady(at)) && !Faults(st, m, MakeReady(at))
    ensures m.evicted != [] || m.arrived != []
    ensures var r := Step(st, m, MakeReady(at)).0; var id := if m.evicted != [] then m.evicted[0] else m.arrived[0];
            && multiset(r.ready) == multiset(m.ready) + multiset{id}
            && r.evicted == (if m.evicted != [] then m.evicted[1..] else [])
            && r.arrived == (if m.evicted != [] then m.arrived else m.arrived[1..])
            && r.executing == m.executing && r.done == m.done
  {
    ReadyKeeps(st, m, at);
    hide ReadyStep, Displaced, Sorted;
  }

  /** The event makes no query ready: New and Exit keep their order, new queries at the end of New, released ones from the head of Exit. */
  lemma QueuesServe(st: Setup, m: Master, e: Event)
    requires Stored(m) && Allowed(st, m, e) && !Faults(st, m, e) && !e.MakeReady?
    ensures var r := Step(st, m, e).0;
            && r.arrived == (if e.Arrive? then m.arrived + [m.next] else m.arrived)
            && r.next == m.next + (if e.Arrive? then 1 else 0)
            && (e.Release? ==> m.done == [m.done[0]] + r.done && r.queries == m.queries - {m.done[0]})
            && (!e.Release? ==> r.done == m.done || exists id :: r.done == m.done + [id])
            && (r.evicted == m.evicted || exists id :: r.evicted == m.evicted + [id])
  {
    hide Remove, Insert, Sorted, Busy, Ages;
    match e {
      case Tick(id, order) => TickKeeps(st, m, id, order);
      case _ =>
    }
  }

  /** The ids in New are the last ones given, in order. */
  ghost predicate NewIsLatest(m: Master) {
    |m.arrived| <= m.next && forall i :: 0 <= i < |m.arrived| ==> m.arrived[i] == m.next - |m.arrived| + i
  }

  lemma StepLatest(st: Setup, m: Master, e: Event)
    requires Stored(m) && NewIsLatest(m) && Allowed(st, m, e) && !Faults(st, m, e)
    ensures NewIsLatest(Step(st, m, e).0)
  {
    var r := Step(st, m, e).0;
    if e.MakeReady? {
      ReadyServes(st, m, e.at);
      ReadyKeeps(st, m, e.at);
    } else {
      QueuesServe(st, m, e);
    }
    hide Step, Allowed, Faults, Stored;
  }

  lemma {:induction false} RunLatest(st: Setup, m: Master, es: seq<Event>)
    requires NewIsLatest(m) && Possible(st, m, es)
    ensures NewIsLatest(After(st, m, es))
    decreases |es|
  {
    if es != [] {
      StepLatest(st, m, es[0]);
      hide Step, Allowed, Faults, NewIsLatest;
      RunLatest(st, Step(st, m, es[0]).0, es[1..]);
    }
  }

  /** In every reachable state New holds the latest ids in order: it is served in order of admission, whoever is sent back in between. */
  lemma NewServedInOrder(st: Setup, es: seq<Event>, id: Id, i: nat)
    requires Possible(st, START, es)
    requires var m := After(st, START, es); id in m.queries && id !in m.arrived && i < |m.arrived|
    ensures id < After(st, START, es).arrived[i]
  {
    RunLatest(st, START, es);
    StartInv(st);
    RunInv(st, START, es);
    var m := After(st, START, es);
    hide Possible, After, Conserved, Paired, Tokens, Ranked;
    LatestAreNew(m);
  }

  lemma LatestAreNew(m: Master)
    requires NewIsLatest(m)
    ensures forall id: Id :: m.next - |m.arrived| <= id < m.next ==> id in m.arrived
  {
    forall id: Id | m.next - |m.arrived| <= id < m.next ensures id in m.arrived {
      assert m.arrived[id - (m.next - |m.arrived|)] == id;
    }
  }

  /** In every run, a query goes from New to Ready only while Desalojo is empty, and it is the first of New. */
  lemma NewWaitsForEvicted(st: Setup, es: seq<Event>, e: Event, id: Id)
    requires Possible(st, START, es + [e]) && Possible(st, START, es)
    requires id in After(st, START, es).arrived && id in After(st, START, es + [e]).ready
    ensures After(st, START, es).evicted == [] && id == After(st, START, es).arrived[0]
  {
    LastPossible(st, START, es, e);
    StartInv(st);
    RunInv(st, START, es);
    var m := After(st, START, es);
    OneList(m, id);
    hide Possible, After, Conserved, Paired, Tokens, Ranked, Step, Allowed, Faults;
    ReadyGains(st, m, e, id);
  }

  lemma SameMembers(s: seq<Id>, t: seq<Id>)
    requires multiset(s) == multiset(t)
    ensures forall x :: x in s <==> x in t
  {
    forall x ensures x in s <==> x in t { assert multiset(s)[x] == multiset(t)[x]; }
  }

  lemma ReadyGains(st: Setup, m: Master, e: Event, id: Id)
    requires Stored(m) && Allowed(st, m, e) && !Faults(st, m, e) && id !in m.ready && id in Step(st, m, e).0.ready
    ensures e.MakeReady? && id == if m.evicted != [] then m.evicted[0] else if m.arrived != [] then m.arrived[0] else id
    ensures id in m.arrived && id !in m.evicted ==> m.evicted == [] && id == m.arrived[0]
  {
    match e {
      case MakeReady(at) =>
        ReadyServes(st, m, at);
        assert multiset(Step(st, m, e).0.ready)[id] > 0;
      case Tick(q, order) =>
        TickKeeps(st, m, q, order);
        SameMembers(order, m.ready);
      case Hangup(q) =>
        RemoveMembers(m.ready, q);
      case _ =>
    }
  }

  /**
   In every reachable state a disconnection asks the worker that runs the query, and
   no other, to evict it; takes a query in Ready to Exit; and changes nothing at all
   when the query is in New, in Desalojo or in Exit.
   */
  lemma DisconnectionActs(st: Setup, es: seq<Event>, id: Id)
    requires Possible(st, START, es) && Stored(After(st, START, es)) && Allowed(st, After(st, START, es), Hangup(id))
    ensures var m := After(st, START, es); var (r, orders) := Step(st, m, Hangup(id));
            if id in m.executing then
              |orders| == 1 && orders[0].Evict? && orders[0].id == id && WorkerOf(m, id, orders[0].worker)
              && r.queries[id].disconnected && r.executing == m.executing
            else if id in m.ready then
              orders == [] && id !in r.ready && id in r.done && r.queries[id].disconnected
            else orders == [] && r == m
  {
    StartInv(st);
    RunInv(st, START, es);
    hide Possible, After;
    HangupActs(st, After(st, START, es), id);
  }

  lemma HangupActs(st: Setup, m: Master, id: Id)
    requires Inv(st, m) && id in m.queries
    ensures var (r, orders) := HangupStep(m, id);
            if id in m.executing then
              |orders| == 1 && orders[0].Evict? && orders[0].id == id && WorkerOf(m, id, orders[0].worker)
              && r.queries[id].disconnected && r.executing == m.executing
            else if id in m.ready then
              orders == [] && id !in r.ready && id in r.done && r.queries[id].disconnected
            else orders == [] && r == m
  {
    OnceInReady(m, id);
    RemoveOnce(m.ready, id);
    assert Busy(m, id) <==> id in m.executing;
    hide Inv, Remove, Busy;
    if id !in m.executing && id in m.ready { assert HangupStep(m, id).0.done[|m.done|] == id; }
  }

  lemma OnceInReady(m: Master, id: Id)
    requires Conserved(m)
    ensures multiset(m.ready)[id] <= 1
  {
    assert Held(m)[id] == multiset(m.queries.Keys)[id];
  }

  /**
   In every reachable state the answer of a worker is about the query it runs. The
   result of a READ moves nothing. With any other answer the query leaves Execute:
   a finished one goes to the end of Exit; an evicted one keeps the line to go on
   from and goes to the end of Desalojo, or of Exit when its client is gone.
   */
  lemma AnswersAct(st: Setup, es: seq<Event>, w: WorkerId, reply: Reply)
    requires Possible(st, START, es) && Stored(After(st, START, es)) && Allowed(st, After(st, START, es), Answer(w, reply))
    ensures !Faults(st, After(st, START, es), Answer(w, reply))
    ensures var m := After(st, START, es); var (r, orders) := Step(st, m, Answer(w, reply)); var id := m.workers[w] as Id;
            && id in m.executing && id in r.queries && orders == []
            && if reply.ReadResult? then
                 r == m.(queries := r.queries) && r.queries[id].pc == m.queries[id].pc
               else
                 && r.workers == m.workers[w := -1] && id !in r.executing
                 && multiset(r.executing) == multiset(m.executing) - multiset{id}
                 && if reply.HasFinished? || m.queries[id].disconnected
                    then r.done == m.done + [id] && r.evicted == m.evicted && r.semExit == m.semExit + 1
                    else r.evicted == m.evicted + [id] && r.done == m.done && r.queries[id].pc == reply.pc && r.semWaiting == m.semWaiting + 1
  {
    StartInv(st);
    RunInv(st, START, es);
    var m := After(st, START, es);
    FaultsOnlyOnStrayTokens(st, m, Answer(w, reply));
    hide Possible, After, Conserved, Tokens, Ranked, Remove;
    OnceInExecute(m, m.workers[w] as Id);
  }

  lemma OnceInExecute(m: Master, id: Id)
    requires Conserved(m)
    ensures id !in Remove(m.executing, id)
  {
    assert Held(m)[id] == multiset(m.queries.Keys)[id];
    assert multiset(Remove(m.executing, id))[id] == 0;
  }

  /** A worker that is lost takes its query out: it goes to the end of Exit, and nobody is asked anything. */
  lemma LossActs(st: Setup, es: seq<Event>, w: WorkerId)
    requires Possible(st, START, es) && Stored(After(st, START, es)) && Allowed(st, After(st, START, es), LoseWorker(w))
    ensures !Faults(st, After(st, START, es), LoseWorker(w))
    ensures var m := After(st, START, es); var (r, orders) := Step(st, m, LoseWorker(w)); var id := m.workers[w] as Id;
            && id in m.executing && orders == [] && w !in r.workers && r.workers == m.workers - {w}
            && id !in r.executing && multiset(r.executing) == multiset(m.executing) - multiset{id}
            && r.done == m.done + [id] && r.semExit == m.semExit + 1 && r.ready == m.ready && r.evicted == m.evicted
  {
    StartInv(st);
    RunInv(st, START, es);
    var m := After(st, START, es);
    FaultsOnlyOnStrayTokens(st, m, LoseWorker(w));
    hide Possible, After, Conserved, Tokens, Ranked, Remove;
    OnceInExecute(m, m.workers[w] as Id);
  }

  /** In every run, a query whose eviction is asked for is in Execute and waits to be evicted. */
  lemma AskedAreEvicting(st: Setup, es: seq<Event>, e: Event, i: nat)
    requires Possible(st, START, es) && Stored(After(st, START, es))
    requires Allowed(st, After(st, START, es), e) && !Faults(st, After(st, START, es), e)
    requires i < |Step(st, After(st, START, es), e).1| && Step(st, After(st, START, es), e).1[i].Evict?
    ensures var (r, orders) := Step(st, After(st, START, es), e);
            orders[i].id in r.executing && orders[i].id in r.queries && r.queries[orders[i].id].action == Evicting
  {
    StartInv(st);
    RunInv(st, START, es);
    var m := After(st, START, es);
    hide Possible, After, Conserved, Tokens, Ranked, Remove, Insert, Sorted;
    AskedMarks(st, m, e);
  }

  lemma AskedMarks(st: Setup, m: Master, e: Event)
    requires Stored(m) && Paired(m) && Allowed(st, m, e) && !Faults(st, m, e)
    ensures var (r, orders) := Step(st, m, e);
            forall i :: 0 <= i < |orders| && orders[i].Evict? ==>
              orders[i].id in r.executing && orders[i].id in r.queries && r.queries[orders[i].id].action == Evicting
  {
    hide Remove, Insert, Sorted, Ages, Preempt, Enter;
    match e {
      case Tick(id, order) => PreemptMarks(st, Aged(m, id).(ready := order), id);
      case MakeReady(at) => ReadyMarks(st, m, at);
      case _ =>
    }
  }

  lemma ReadyMarks(st: Setup, m: Master, at: nat)
    requires Stored(m) && Allowed(st, m, MakeReady(at)) && !Faults(st, m, MakeReady(at))
    ensures var (r, orders) := ReadyStep(st, m, at);
            forall i :: 0 <= i < |orders| ==>
              orders[i].Evict? && orders[i].id in r.executing && orders[i].id in r.queries && r.queries[orders[i].id].action == Evicting
  {
    ReadyParts(st, m, at);
    PreemptMarks(st, Enter(m, at), NextReady(m));
    hide Preempt, Enter, Allowed, Faults, Displaced, Stored;
  }

  lemma PreemptMarks(st: Setup, m: Master, id: Id)
    requires id in m.queries && Known(m, m.executing)
    requires Displaced(st, m, id).Some? ==> Busy(m, Displaced(st, m, id).value)
    ensures var (r, orders) := Preempt(st, m, id);
            r.executing == m.executing &&
            forall i :: 0 <= i < |orders| ==>
              orders[i].Evict? && orders[i].id in m.executing && orders[i].id in r.queries && r.queries[orders[i].id].action == Evicting
  {
  }

  // ------------------------------------------------------------------ what can happen

  /** Between those that are not worse and those that are not better. */
  lemma {:induction false} Between(queries: map<Id, Query>, s: seq<Id>, id: Id) returns (at: nat)
    requires (forall i :: 0 <= i < |s| ==> s[i] in queries) && id in queries && Sorted(queries, s)
    ensures at <= |s|
    ensures forall i :: 0 <= i < at ==> queries[s[i]].priority <= queries[id].priority
    ensures forall i :: at <= i < |s| ==> queries[id].priority <= queries[s[i]].priority
    decreases |s|
  {
    if s == [] || queries[s[|s| - 1]].priority <= queries[id].priority {
      at := |s|;
    } else {
      at := Between(queries, s[..|s| - 1], id);
    }
  }

  /** There is always a place for one more in a list. */
  lemma PlaceExists(st: Setup, queries: map<Id, Query>, s: seq<Id>, id: Id) returns (at: nat)
    requires (forall i :: 0 <= i < |s| ==> s[i] in queries) && id in queries && (st.algorithm == Priorities ==> Sorted(queries, s))
    ensures Place(st, queries, s, at, id)
  {
    at := |s|;
    if st.algorithm == Priorities {
      at := Between(queries, s, id);
      var r := Insert(s, at, id);
      forall i, j | 0 <= i < j < |r| ensures r[i] in queries && r[j] in queries && queries[r[i]].priority <= queries[r[j]].priority {
        assert r[i] == if i < at then s[i] else if i == at then id else s[i - 1];
        assert r[j] == if j < at then s[j] else if j == at then id else s[j - 1];
      }
    }
  }

  /**
   Nothing waits without its thread being able to go on. In every reachable state the
   ready thread can move exactly when a query is in New or Desalojo, an idle worker can
   be given a query exactly when one is in Ready or a token was left over, and the exit
   thread can move exactly when a query is in Exit.
   */
  lemma NothingStuck(st: Setup, es: seq<Event>, w: WorkerId)
    requires Possible(st, START, es)
    ensures var m := After(st, START, es);
            && Stored(m)
            && ((exists at :: Allowed(st, m, MakeReady(at))) <==> m.arrived != [] || m.evicted != [])
            && ((exists at :: Allowed(st, m, Dispatch(w, at))) <==>
                w in m.workers && m.workers[w] == -1 && (m.ready != [] || m.strays > 0))
            && (Allowed(st, m, Release) <==> m.done != [])
  {
    hide *;
    StartInv(st);
    RunInv(st, START, es);
    InvStored(st, After(st, START, es));
    ReadyMoves(st, After(st, START, es));
    WorkerMoves(st, After(st, START, es), w);
  }

  lemma InvStored(st: Setup, m: Master)
    requires Inv(st, m)
    ensures Stored(m) && (Allowed(st, m, Release) <==> m.done != [])
  {
  }

  lemma ReadyMoves(st: Setup, m: Master)
    requires Inv(st, m)
    ensures Stored(m) && ((exists at :: Allowed(st, m, MakeReady(at))) <==> m.arrived != [] || m.evicted != [])
  {
    hide Conserved, Paired, Place;
    if m.arrived != [] || m.evicted != [] {
      var at := PlaceExists(st, m.queries, m.ready, NextReady(m));
      assert Allowed(st, m, MakeReady(at));
    }
  }

  lemma WorkerMoves(st: Setup, m: Master, w: WorkerId)
    requires Inv(st, m)
    ensures Stored(m)
    ensures (exists at :: Allowed(st, m, Dispatch(w, at))) <==>
            w in m.workers && m.workers[w] == -1 && (m.ready != [] || m.strays > 0)
  {
    hide Conserved, Paired, Place;
    if w in m.workers && m.workers[w] == -1 && (m.ready != [] || m.strays > 0) {
      var at := 0;
      if m.ready != [] { at := PlaceExists(st, m.queries, m.executing, m.ready[0]); }
      assert Allowed(st, m, Dispatch(w, at));
    }
  }
}
