/** What each planning mode gives, over whole runs. */
module SchedulerPolicies {
  import opened Common
  import opened Scheduler
  import opened SchedulerInvariant
  import opened SchedulerRuns

  // --------------------------------------------------------------- priorities

  /** Under priorities, Ready and Execute are sorted in every reachable state. */
  lemma ListsStaySorted(st: Setup, es: seq<Event>)
    requires st.algorithm == Priorities && Possible(st, START, es)
    ensures var m := After(st, START, es);
            && Known(m, m.ready) && Sorted(m.queries, m.ready)
            && Known(m, m.executing) && Sorted(m.queries, m.executing)
  {
    StartInv(st);
    RunInv(st, START, es);
    hide Possible, After, Sorted;
  }

  /** Under priorities, the query dispatched is a best one of Ready. */
  lemma DispatchTakesBest(st: Setup, es: seq<Event>, w: WorkerId, at: nat)
    requires st.algorithm == Priorities && Possible(st, START, es)
    requires Stored(After(st, START, es)) && Allowed(st, After(st, START, es), Dispatch(w, at))
    requires !Faults(st, After(st, START, es), Dispatch(w, at))
    ensures var m := After(st, START, es);
            var (_, orders) := Step(st, m, Dispatch(w, at));
            |orders| == 1 && orders[0].Launch? && orders[0].worker == w && orders[0].id in m.ready
            && orders[0].pc == m.queries[orders[0].id].pc
            && forall id :: id in m.ready ==> m.queries[orders[0].id].priority <= m.queries[id].priority
  {
    StartInv(st);
    RunInv(st, START, es);
    var m := After(st, START, es);
    hide Possible, After, Conserved, Paired, Tokens;
    forall id | id in m.ready ensures m.queries[m.ready[0]].priority <= m.queries[id].priority {
      var i :| 0 <= i < |m.ready| && m.ready[i] == id;
    }
  }

  /** The query whose priority the event settles, and that priority. */
  ghost function Challenger(m: Master, e: Event): (r: (Id, int))
    requires Stored(m) && (e.MakeReady? || (e.Tick? && e.id in m.queries))
    requires e.MakeReady? ==> m.evicted != [] || m.arrived != []
  {
    if e.MakeReady? then (NextReady(m), m.queries[NextReady(m)].priority) else (e.id, m.queries[e.id].priority - 1)
  }

  ghost predicate Preempts(st: Setup, m: Master, challenger: (Id, int))
    requires Stored(m)
  {
    && st.algorithm == Priorities && AllBusy(m)
    && exists id :: id in m.executing && challenger.1 < m.queries[id].priority
  }

  /** The last of a sorted Execute is a worst one. */
  lemma LastIsWorst(m: Master)
    requires Ranked(m) && m.executing != []
    ensures forall id :: id in m.executing ==>
              m.queries[id].priority <= m.queries[m.executing[|m.executing| - 1]].priority
  {
    forall id | id in m.executing
      ensures m.queries[id].priority <= m.queries[m.executing[|m.executing| - 1]].priority
    {
      var i :| 0 <= i < |m.executing| && m.executing[i] == id;
    }
  }

  /**
   Messages are sent exactly when every worker is busy and some running query is
   strictly worse than the challenger; then there is one, and it asks the worker
   that runs a worst query of Execute to evict it.
   */
  ghost predicate Justified(st: Setup, m: Master, challenger: (Id, int), orders: seq<Order>)
    requires Stored(m)
  {
    && (orders != [] <==> Preempts(st, m, challenger))
    && (orders != [] ==>
          && |orders| == 1 && orders[0].Evict? && WorkerOf(m, orders[0].id, orders[0].worker)
          && orders[0].id in m.executing
          && challenger.1 < m.queries[orders[0].id].priority
          && forall x :: x in m.executing ==> m.queries[x].priority <= m.queries[orders[0].id].priority)
  }

  lemma PreemptIff(st: Setup, m: Master, id: Id)
    requires id in m.queries && Stored(m) && Paired(m) && (st.algorithm == Priorities ==> Ranked(m))
    ensures Displaced(st, m, id).Some? ==> Busy(m, Displaced(st, m, id).value)
    ensures Justified(st, m, (id, m.queries[id].priority), Preempt(st, m, id).1)
  {
    if st.algorithm == Priorities && m.executing != [] {
      LastIsWorst(m);
      assert m.executing[|m.executing| - 1] in m.executing;
    }
  }

  /** Only workers, Execute and the priorities of running queries matter. */
  lemma JustifiedSame(st: Setup, m: Master, r: Master, c: (Id, int), orders: seq<Order>)
    requires Stored(m) && Stored(r) && Justified(st, r, c, orders)
    requires r.workers == m.workers && r.executing == m.executing
    requires forall q :: q in m.executing ==> r.queries[q].priority == m.queries[q].priority
    ensures Justified(st, m, c, orders)
  {
  }

  lemma ReadyOrders(st: Setup, m: Master, at: nat)
    requires Inv(st, m) && Allowed(st, m, MakeReady(at)) && !Faults(st, m, MakeReady(at))
    ensures Justified(st, m, Challenger(m, MakeReady(at)), Step(st, m, MakeReady(at)).1)
  {
    var entered := Enter(m, at);
    Entered(st, m, at);
    PreemptIff(st, entered, NextReady(m));
    hide Preempt, Paired, Sorted, Justified, Conserved, Tokens, Ranked, Displaced, Insert;
    JustifiedSame(st, m, entered, Challenger(m, MakeReady(at)), Step(st, m, MakeReady(at)).1);
  }

  lemma TickOrders(st: Setup, m: Master, id: Id, order: seq<Id>)
    requires Inv(st, m) && Allowed(st, m, Tick(id, order)) && !Faults(st, m, Tick(id, order))
    ensures Justified(st, m, Challenger(m, Tick(id, order)), Step(st, m, Tick(id, order)).1)
  {
    var aged := Aged(m, id).(ready := order);
    NotExecuting(m, id);
    AgedState(st, m, id, order);
    PreemptIff(st, aged, id);
    hide Preempt, Paired, Sorted, Justified, Conserved, Tokens, Ranked, Displaced;
    JustifiedSame(st, m, aged, Challenger(m, Tick(id, order)), Step(st, m, Tick(id, order)).1);
  }

  lemma NotExecuting(m: Master, id: Id)
    requires Conserved(m) && Paired(m) && (id in m.evicted || id in m.arrived || !Busy(m, id))
    ensures id !in m.executing
  {
    Exclusive(m, id);
  }

  /** What the check sees once the query is in Ready. */
  lemma Entered(st: Setup, m: Master, at: nat)
    requires Inv(st, m) && Allowed(st, m, MakeReady(at)) && !Faults(st, m, MakeReady(at))
    ensures Stored(Enter(m, at)) && Paired(Enter(m, at)) && (st.algorithm == Priorities ==> Ranked(Enter(m, at)))
    ensures forall q :: q in m.queries ==> q in Enter(m, at).queries && Enter(m, at).queries[q].priority == m.queries[q].priority
  {
    EnterShelved(m, at);
    StoredIfConserved(Enter(m, at));
    PairedSame(m, Enter(m, at));
    if st.algorithm == Priorities {
      SortedSame(m.queries, Enter(m, at).queries, Enter(m, at).ready);
      SortedSame(m.queries, Enter(m, at).queries, m.executing);
    }
    hide Sorted, Paired, Conserved, Stored, Tokens;
  }

  lemma AgedState(st: Setup, m: Master, id: Id, order: seq<Id>)
    requires Inv(st, m) && Allowed(st, m, Tick(id, order)) && id !in m.executing
    ensures var aged := Aged(m, id).(ready := order);
            && Stored(aged) && Paired(aged) && (st.algorithm == Priorities ==> Ranked(aged))
            && forall q :: q in m.executing ==> aged.queries[q].priority == m.queries[q].priority
  {
    var aged := Aged(m, id).(ready := order);
    PairedSame(m, aged);
    forall i | 0 <= i < |m.executing| ensures m.executing[i] != id {
      assert m.executing[i] in m.executing;
    }
    if st.algorithm == Priorities { SortedSame(m.queries, aged.queries, m.executing); }
  }

  /** In every reachable state, what making a query ready or aging it asks of the workers is justified. */
  lemma PreemptionIsJustified(st: Setup, es: seq<Event>, e: Event)
    requires Possible(st, START, es + [e]) && (e.MakeReady? || e.Tick?)
    ensures Possible(st, START, es)
    ensures var m := After(st, START, es);
            && Stored(m) && Allowed(st, m, e) && !Faults(st, m, e)
            && Justified(st, m, Challenger(m, e), Step(st, m, e).1)
  {
    LastPossible(st, START, es, e);
    StartInv(st);
    RunInv(st, START, es);
    hide Possible, After, Step, Inv, Allowed, Justified, Challenger;
    match e {
      case MakeReady(at) => ReadyOrders(st, After(st, START, es), at);
      case Tick(id, order) => TickOrders(st, After(st, START, es), id, order);
    }
  }

  lemma {:induction false} LastPossible(st: Setup, m: Master, es: seq<Event>, e: Event)
    requires Possible(st, m, es + [e])
    ensures Possible(st, m, es)
    ensures Stored(After(st, m, es)) && Allowed(st, After(st, m, es), e) && !Faults(st, After(st, m, es), e)
    ensures After(st, m, es + [e]) == Step(st, After(st, m, es), e).0
    decreases |es|
  {
    hide Step, Allowed, Faults, Stored;
    if es == [] {
      assert es + [e] == [e];
      assert [e][1..] == [];
    } else {
      assert (es + [e])[0] == es[0] && (es + [e])[1..] == es[1..] + [e];
      LastPossible(st, Step(st, m, es[0]).0, es[1..], e);
    }
  }

  // --------------------------------------------------------------------- fifo

  ghost predicate Increasing(s: seq<Id>) {
    forall i, j :: 0 <= i < j < |s| ==> s[i] < s[j]
  }

  /** Dispatched queries, then Ready, then New, all in admission order; nobody waits after an eviction, nobody ages. */
  ghost predicate InOrder(m: Master) {
    && m.evicted == []
    && Increasing(m.started + m.ready + m.arrived)
    && (forall id :: id in m.started ==> id < m.next)
    && forall id :: id in m.queries ==> !m.queries[id].aging
  }

  /** A worker gives back, evicted, a query whose client is still there. */
  ghost predicate GivesBack(m: Master, e: Event)
    requires Stored(m)
  {
    && e.Answer? && e.reply.WasEvicted? && e.worker in m.workers && m.workers[e.worker] >= 0
    && m.workers[e.worker] in m.queries && !m.queries[m.workers[e.worker] as Id].disconnected
  }

  lemma {:induction false} RemoveIncreasing(a: seq<Id>, s: seq<Id>, id: Id, b: seq<Id>)
    requires Increasing(a + s + b)
    ensures Increasing(a + Remove(s, id) + b)
    decreases |s|
  {
    if s != [] {
      assert a + s + b == (a + [s[0]]) + s[1..] + b;
      if s[0] == id {
        var t := a + s + b;
        assert a + s[1..] + b == t[..|a|] + t[|a| + 1..];
      } else {
        RemoveIncreasing(a + [s[0]], s[1..], id, b);
        assert a + ([s[0]] + Remove(s[1..], id)) + b == (a + [s[0]]) + Remove(s[1..], id) + b;
      }
    }
  }

  lemma ArriveInOrder(m: Master, r: Master)
    requires InOrder(m) && Conserved(m) && (forall id :: id in m.queries ==> id < m.next)
    requires r.evicted == m.evicted && r.started == m.started && r.ready == m.ready && r.arrived == m.arrived + [m.next]
    requires r.next == m.next + 1 && forall id :: id in r.queries ==> !r.queries[id].aging
    ensures InOrder(r)
  {
    var s := m.started + m.ready + m.arrived;
    assert r.started + r.ready + r.arrived == s + [m.next];
    forall i | 0 <= i < |s| ensures s[i] < m.next {
      assert s[i] in m.started || s[i] in m.ready || s[i] in m.arrived;
      Exclusive(m, s[i]);
    }
  }

  /** New loses its first query to the end of Ready, or Ready its first to the dispatched ones. */
  lemma MovedInOrder(m: Master, r: Master)
    requires InOrder(m) && r.evicted == [] && r.next == m.next && forall id :: id in r.queries ==> !r.queries[id].aging
    requires || (m.arrived != [] && r.started == m.started
                 && r.ready == m.ready + [m.arrived[0]] && r.arrived == m.arrived[1..])
             || (m.ready != [] && m.ready[0] < m.next && r.started == m.started + [m.ready[0]]
                 && r.ready == m.ready[1..] && r.arrived == m.arrived)
    ensures InOrder(r)
  {
    assert r.started + r.ready + r.arrived == m.started + m.ready + m.arrived by {
      if m.ready != [] { assert m.ready == [m.ready[0]] + m.ready[1..]; }
      if m.arrived != [] { assert m.arrived == [m.arrived[0]] + m.arrived[1..]; }
    }
  }

  lemma FifoReady(st: Setup, m: Master, at: nat)
    requires st.algorithm == Fifo && InOrder(m) && Stored(m)
    requires Allowed(st, m, MakeReady(at)) && !Faults(st, m, MakeReady(at))
    ensures InOrder(Step(st, m, MakeReady(at)).0)
  {
    FifoReadyAging(st, m, at);
    ReadyKeeps(st, m, at);
    hide ReadyStep, InOrder, Displaced;
    assert Insert(m.ready, at, m.arrived[0]) == m.ready + [m.arrived[0]];
    MovedInOrder(m, Step(st, m, MakeReady(at)).0);
  }

  lemma FifoReadyAging(st: Setup, m: Master, at: nat)
    requires st.algorithm == Fifo && Stored(m) && Allowed(st, m, MakeReady(at)) && !Faults(st, m, MakeReady(at))
    requires forall id :: id in m.queries ==> !m.queries[id].aging
    ensures var r := ReadyStep(st, m, at).0; forall id :: id in r.queries ==> !r.queries[id].aging
  {
    hide Insert;
  }

  lemma SameInOrder(m: Master, r: Master)
    requires InOrder(m) && r.evicted == m.evicted && r.started == m.started && r.ready == m.ready && r.arrived == m.arrived
    requires r.next == m.next && forall id :: id in r.queries ==> !r.queries[id].aging
    ensures InOrder(r)
  {
  }

  lemma HangupInOrder(m: Master, id: Id)
    requires InOrder(m) && id in m.queries
    ensures InOrder(HangupStep(m, id).0)
  {
    RemoveIncreasing(m.started, m.ready, id, m.arrived);
    hide Increasing;
  }

  lemma AnswerInOrderIff(m: Master, w: WorkerId, reply: Reply)
    requires InOrder(m) && w in m.workers && m.workers[w] >= 0 && m.workers[w] in m.queries
    ensures InOrder(AnswerStep(m, w, reply)) <==>
            !(reply.WasEvicted? && !m.queries[m.workers[w] as Id].disconnected)
  {
    hide Remove, Increasing;
  }

  /** One step in FIFO mode keeps the order exactly when it does not give back a query that is still wanted. */
  lemma StepInOrderIff(st: Setup, m: Master, e: Event)
    requires st.algorithm == Fifo && Inv(st, m) && InOrder(m) && Allowed(st, m, e) && !Faults(st, m, e)
    ensures InOrder(Step(st, m, e).0) <==> !GivesBack(m, e)
  {
    hide Increasing, Paired, Tokens, Ranked, Sorted, AnswerStep, HangupStep, ReadyStep, Preempt, Remove;
    match e {
      case Arrive(_) => ArriveInOrder(m, Step(st, m, e).0);
      case MakeReady(at) => FifoReady(st, m, at);
      case Dispatch(w, at) => DispatchInOrder(m, w, at);
      case Answer(w, reply) => AnswerInOrderIff(m, w, reply);
      case Hangup(id) => HangupInOrder(m, id);
      case Connect(_) | LoseWorker(_) | Release => SameInOrder(m, Step(st, m, e).0);
      case Tick(_, _) | StopAging(_) =>
    }
  }

  lemma DispatchInOrder(m: Master, w: WorkerId, at: nat)
    requires InOrder(m) && Conserved(m) && (forall id :: id in m.queries ==> id < m.next)
    requires m.ready != [] && m.ready[0] in m.queries && at <= |m.executing| && m.semReady > 0
    ensures InOrder(DispatchStep(m, w, at).0)
  {
    MovedInOrder(m, DispatchStep(m, w, at).0);
  }

  ghost predicate NeverGivesBack(st: Setup, m: Master, es: seq<Event>)
    requires Possible(st, m, es)
    decreases |es|
  {
    es == [] || (!GivesBack(m, es[0]) && NeverGivesBack(st, Step(st, m, es[0]).0, es[1..]))
  }

  /** In order at the start and after each event. */
  ghost predicate AlwaysInOrder(st: Setup, m: Master, es: seq<Event>)
    requires Possible(st, m, es)
    decreases |es|
  {
    InOrder(m) && (es == [] || AlwaysInOrder(st, Step(st, m, es[0]).0, es[1..]))
  }

  lemma {:induction false} InOrderFromIff(st: Setup, m: Master, es: seq<Event>)
    requires st.algorithm == Fifo && Inv(st, m) && InOrder(m) && Possible(st, m, es)
    ensures AlwaysInOrder(st, m, es) <==> NeverGivesBack(st, m, es)
    ensures NeverGivesBack(st, m, es) ==> InOrder(After(st, m, es))
    decreases |es|
  {
    if es != [] {
      StepInOrderIff(st, m, es[0]);
      StepInv(st, m, es[0]);
      hide Step, Inv, Allowed, Faults, GivesBack, InOrder;
      if !GivesBack(m, es[0]) { InOrderFromIff(st, Step(st, m, es[0]).0, es[1..]); }
    }
  }

  /** FIFO serves in admission order over a whole run exactly when no worker gives back a query still wanted. */
  lemma FifoInOrderIff(st: Setup, es: seq<Event>)
    requires st.algorithm == Fifo && Possible(st, START, es)
    ensures AlwaysInOrder(st, START, es) <==> NeverGivesBack(st, START, es)
  {
    StartInv(st);
    InOrderFromIff(st, START, es);
  }

  /** Then no query is dispatched twice, and everyone dispatched was admitted before everyone who waits. */
  lemma FifoDispatchesOnce(st: Setup, es: seq<Event>)
    requires st.algorithm == Fifo && Possible(st, START, es) && NeverGivesBack(st, START, es)
    ensures var m := After(st, START, es);
            && m.evicted == []
            && (forall i, j :: 0 <= i < j < |m.started| ==> m.started[i] < m.started[j])
            && forall a, b :: a in m.started && (b in m.ready || b in m.arrived) ==> a < b
  {
    hide Possible, After, NeverGivesBack, AlwaysInOrder, Inv;
    StartInv(st);
    InOrderFromIff(st, START, es);
    var m := After(st, START, es);
    IncreasingParts(m.started, m.ready, m.arrived);
  }

  lemma IncreasingParts(a: seq<Id>, r: seq<Id>, n: seq<Id>)
    requires Increasing(a + r + n)
    ensures forall i, j :: 0 <= i < j < |a| ==> a[i] < a[j]
    ensures forall x, y :: x in a && (y in r || y in n) ==> x < y
  {
    var s := a + r + n;
    assert forall i :: 0 <= i < |a| ==> s[i] == a[i];
    forall x, y | x in a && (y in r || y in n) ensures x < y {
      var i :| 0 <= i < |a| && a[i] == x;
      if y in r {
        var j :| 0 <= j < |r| && r[j] == y;
        assert s[|a| + j] == y;
      } else {
        var j :| 0 <= j < |n| && n[j] == y;
        assert s[|a| + |r| + j] == y;
      }
    }
  }

  /** In FIFO mode a worker is asked to evict only the query whose client just left. */
  lemma FifoEvictsOnlyTheDisconnected(st: Setup, m: Master, e: Event, o: Order)
    requires st.algorithm == Fifo && Inv(st, m) && Allowed(st, m, e) && !Faults(st, m, e)
    requires o in Step(st, m, e).1 && o.Evict?
    ensures e == Hangup(o.id) && WorkerOf(m, o.id, o.worker)
    ensures o.id in Step(st, m, e).0.queries && Step(st, m, e).0.queries[o.id].disconnected
  {
  }
}
