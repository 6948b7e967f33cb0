/** The scheduler's invariant over every run, and what it gives in each planning mode. */
module SchedulerRuns {
  import opened Common
  import opened Scheduler
  import opened SchedulerInvariant

  // ------------------------------------------------------------------ pairing

  /** The pairing looks at workers and Execute only. */
  lemma PairedSame(m: Master, r: Master)
    requires Paired(m) && r.workers == m.workers && multiset(r.executing) == multiset(m.executing)
    ensures Paired(r)
  {
    forall id ensures id in r.executing <==> id in m.executing {
      assert multiset(r.executing)[id] == multiset(m.executing)[id];
    }
    forall id | id in r.executing ensures Busy(r, id) {
      assert Busy(m, id);
    }
  }

  lemma DispatchPaired(m: Master, w: WorkerId, at: nat)
    requires Paired(m) && Conserved(m) && m.ready != [] && m.ready[0] in m.queries && at <= |m.executing| && m.semReady > 0
    requires w in m.workers && m.workers[w] == -1
    ensures Paired(DispatchStep(m, w, at).0)
  {
    var id := m.ready[0];
    Exclusive(m, id);
    var r := DispatchStep(m, w, at).0;
    forall x ensures x in r.executing <==> x in m.executing || x == id {
      assert multiset(r.executing)[x] == multiset(m.executing)[x] + multiset{id}[x];
    }
    assert r.workers[w] == id;
    forall x | x in r.executing ensures Busy(r, x) {
      if x != id {
        assert Busy(m, x);
        var v :| v in m.workers && m.workers[v] == x;
        assert v in r.workers && r.workers[v] == x;
      }
    }
  }

  /** A worker lets go of its query, staying idle or leaving. */
  lemma FreedPaired(m: Master, r: Master, w: WorkerId, id: Id)
    requires Paired(m) && Conserved(m) && w in m.workers && m.workers[w] == id
    requires r.executing == Remove(m.executing, id)
    requires r.workers == m.workers[w := -1] || r.workers == m.workers - {w}
    ensures Paired(r)
  {
    hide *;
    OnceInExecuting(m, id);
    RemoveOnce(m.executing, id);
    LessOne(m, r, w, id);
  }

  lemma LessOne(m: Master, r: Master, w: WorkerId, id: Id)
    requires Paired(m) && w in m.workers && m.workers[w] == id
    requires forall x :: x in r.executing <==> x in m.executing && x != id
    requires r.workers == m.workers[w := -1] || r.workers == m.workers - {w}
    ensures Paired(r)
  {
    forall x | x in r.executing ensures Busy(r, x) {
      FreedBusy(m, r, w, id, x);
    }
    hide Busy;
  }

  lemma FreedBusy(m: Master, r: Master, w: WorkerId, id: Id, x: Id)
    requires Busy(m, x) && x != id && w in m.workers && m.workers[w] == id
    requires r.workers == m.workers[w := -1] || r.workers == m.workers - {w}
    ensures Busy(r, x)
  {
    var v :| v in m.workers && m.workers[v] == x;
    assert v in r.workers && r.workers[v] == x;
  }

  lemma OnceInExecuting(m: Master, id: Id)
    requires Conserved(m)
    ensures multiset(m.executing)[id] <= 1
  {
    assert Held(m)[id] == multiset(m.queries.Keys)[id];
  }

  lemma StepPaired(st: Setup, m: Master, e: Event)
    requires Inv(st, m) && Allowed(st, m, e) && !Faults(st, m, e)
    ensures Paired(Step(st, m, e).0)
  {
    hide Paired, Conserved, Ranked, Tokens, Sorted, AnswerStep, Preempt, Settle, Enter, Displaced, Remove;
    match e {
      case Arrive(_) | StopAging(_) | Release => PairedSame(m, Step(st, m, e).0);
      case Connect(w) => ConnectPaired(m, Step(st, m, e).0, w);
      case MakeReady(at) => ReadyPaired(st, m, at);
      case Dispatch(w, at) => DispatchPaired(m, w, at);
      case Answer(w, reply) => AnswerPaired(m, w, reply);
      case LoseWorker(w) => FreedPaired(m, Step(st, m, e).0, w, m.workers[w] as Id);
      case Hangup(id) => PairedSame(m, HangupStep(m, id).0);
      case Tick(id, order) => TickKeeps(st, m, id, order); PairedSame(m, Step(st, m, e).0);
    }
  }

  lemma ReadyPaired(st: Setup, m: Master, at: nat)
    requires Stored(m) && Paired(m) && Allowed(st, m, MakeReady(at)) && !Faults(st, m, MakeReady(at))
    ensures Paired(ReadyStep(st, m, at).0)
  {
    ReadyKeeps(st, m, at);
    hide ReadyStep, Paired;
    PairedSame(m, ReadyStep(st, m, at).0);
  }

  lemma ConnectPaired(m: Master, r: Master, w: WorkerId)
    requires Paired(m) && w !in m.workers && r.workers == m.workers[w := -1] && r.executing == m.executing
    ensures Paired(r)
  {
    forall id | id in m.executing ensures Busy(r, id) {
      assert Busy(m, id);
      var v :| v in m.workers && m.workers[v] == id;
      assert v in r.workers;
    }
  }

  lemma AnswerPaired(m: Master, w: WorkerId, reply: Reply)
    requires Paired(m) && Conserved(m) && w in m.workers && m.workers[w] >= 0 && m.workers[w] in m.queries
    ensures Paired(AnswerStep(m, w, reply))
  {
    hide Paired, Conserved;
    if reply.ReadResult? { PairedSame(m, AnswerStep(m, w, reply)); }
    else { FreedPaired(m, AnswerStep(m, w, reply), w, m.workers[w] as Id); }
  }

  // ------------------------------------------------------------------- tokens

  lemma StepTokens(st: Setup, m: Master, e: Event)
    requires Inv(st, m) && Allowed(st, m, e) && !Faults(st, m, e)
    ensures Tokens(Step(st, m, e).0)
  {
    hide Paired, Conserved, Ranked, Sorted, ReadyStep, Preempt, HangupStep, AnswerStep, DispatchStep, Remove, Tokens;
    assert Tokens(m);
    match e {
      case MakeReady(at) => ReadyTokens(st, m, at);
      case Hangup(id) => HangupTokens(m, id);
      case Answer(w, reply) => AnswerTokens(m, w, reply);
      case Tick(id, order) => TickTokens(st, m, id, order);
      case _ => PlainTokens(st, m, e);
    }
  }

  lemma PlainTokens(st: Setup, m: Master, e: Event)
    requires Stored(m) && Tokens(m) && Allowed(st, m, e) && !Faults(st, m, e)
    requires !e.MakeReady? && !e.Hangup? && !e.Answer? && !e.Tick?
    ensures Tokens(Step(st, m, e).0)
  {
    hide Sorted, Insert, Remove;
  }

  lemma AnswerTokens(m: Master, w: WorkerId, reply: Reply)
    requires Tokens(m) && w in m.workers && m.workers[w] >= 0 && m.workers[w] in m.queries
    ensures Tokens(AnswerStep(m, w, reply))
  {
    hide Remove;
  }

  lemma TickTokens(st: Setup, m: Master, id: Id, order: seq<Id>)
    requires Stored(m) && Tokens(m) && Allowed(st, m, Tick(id, order)) && !Faults(st, m, Tick(id, order))
    ensures Tokens(Step(st, m, Tick(id, order)).0)
  {
    TickKeeps(st, m, id, order);
    assert |order| == |multiset(order)| == |multiset(m.ready)| == |m.ready|;
    hide Step, Allowed, Faults;
  }

  lemma ReadyTokens(st: Setup, m: Master, at: nat)
    requires Stored(m) && Tokens(m) && Allowed(st, m, MakeReady(at)) && !Faults(st, m, MakeReady(at))
    ensures Tokens(ReadyStep(st, m, at).0)
  {
    ReadyKeeps(st, m, at);
    hide ReadyStep, Allowed, Faults, Displaced, Sorted;
  }

  lemma HangupTokens(m: Master, id: Id)
    requires Tokens(m) && id in m.queries
    ensures Tokens(HangupStep(m, id).0)
  {
    RemoveMembers(m.ready, id);
  }

  // -------------------------------------------------------------------- order

  lemma StepOrdered(st: Setup, m: Master, e: Event)
    requires Inv(st, m) && Allowed(st, m, e) && !Faults(st, m, e)
    requires st.algorithm == Priorities
    ensures Ranked(Step(st, m, e).0)
  {
    hide Paired, Tokens, Ranked, Conserved, Insert, Remove;
    match e {
      case Arrive(_) | Connect(_) | StopAging(_) => SameRanks(m, Step(st, m, e).0);
      case Release => ReleaseOrdered(m, Step(st, m, e).0);
      case MakeReady(at) => ReadyOrdered(st, m, at);
      case Dispatch(w, at) => DispatchOrdered(st, m, w, at);
      case Answer(w, reply) => AnswerOrdered(m, w, reply);
      case LoseWorker(w) => LeftOrdered(m, Step(st, m, e).0, m.workers[w] as Id);
      case Hangup(id) => HangupOrdered(m, id);
      case Tick(id, order) => TickOrdered(st, m, id, order);
    }
  }

  lemma SameRanks(m: Master, r: Master)
    requires Ranked(m) && r.ready == m.ready && r.executing == m.executing
    requires forall q :: q in m.queries ==> q in r.queries && r.queries[q].priority == m.queries[q].priority
    ensures Ranked(r)
  {
    SortedSame(m.queries, r.queries, m.ready);
    SortedSame(m.queries, r.queries, m.executing);
  }

  lemma ReleaseOrdered(m: Master, r: Master)
    requires Ranked(m) && Conserved(m) && m.done != [] && r.ready == m.ready && r.executing == m.executing
    requires r.queries == m.queries - {m.done[0]}
    ensures Ranked(r)
  {
    forall i | 0 <= i < |m.ready| ensures m.ready[i] in r.queries { Exclusive(m, m.ready[i]); }
    forall i | 0 <= i < |m.executing| ensures m.executing[i] in r.queries { Exclusive(m, m.executing[i]); }
    SortedSame(m.queries, r.queries, m.ready);
    SortedSame(m.queries, r.queries, m.executing);
  }

  lemma DispatchOrdered(st: Setup, m: Master, w: WorkerId, at: nat)
    requires Ranked(m) && m.ready != [] && m.semReady > 0 && at <= |m.executing| && w in m.workers
    requires st.algorithm == Priorities && Place(st, m.queries, m.executing, at, m.ready[0])
    ensures Ranked(DispatchStep(m, w, at).0)
  {
    var r := DispatchStep(m, w, at).0;
    SortedSame(m.queries, r.queries, m.ready[1..]);
    SortedSame(m.queries, r.queries, r.executing);
  }

  /** A query leaves Execute, and only marks and program counters change. */
  lemma LeftOrdered(m: Master, r: Master, id: Id)
    requires Ranked(m) && r.ready == m.ready && r.executing == Remove(m.executing, id)
    requires forall q :: q in m.queries ==> q in r.queries && r.queries[q].priority == m.queries[q].priority
    ensures Ranked(r)
  {
    RemoveSorted(m.queries, m.executing, id);
    SortedSame(m.queries, r.queries, m.ready);
    SortedSame(m.queries, r.queries, r.executing);
  }

  lemma AnswerOrdered(m: Master, w: WorkerId, reply: Reply)
    requires Ranked(m) && w in m.workers && m.workers[w] >= 0 && m.workers[w] in m.queries
    ensures Ranked(AnswerStep(m, w, reply))
  {
    hide Ranked, Remove;
    if reply.ReadResult? { SameRanks(m, AnswerStep(m, w, reply)); }
    else { LeftOrdered(m, AnswerStep(m, w, reply), m.workers[w] as Id); }
  }

  lemma HangupOrdered(m: Master, id: Id)
    requires Ranked(m) && id in m.queries
    ensures Ranked(HangupStep(m, id).0)
  {
    if !Busy(m, id) && id in m.ready {
      WithdrawnOrdered(m, HangupStep(m, id).0, id);
    } else {
      hide Ranked, Remove;
      SameRanks(m, HangupStep(m, id).0);
    }
  }

  lemma WithdrawnOrdered(m: Master, r: Master, id: Id)
    requires Ranked(m) && r.executing == m.executing && r.ready == Remove(m.ready, id)
    requires forall q :: q in m.queries ==> q in r.queries && r.queries[q].priority == m.queries[q].priority
    ensures Ranked(r)
  {
    hide Remove, Sorted;
    RemoveSorted(m.queries, m.ready, id);
    SortedSame(m.queries, r.queries, r.ready);
    SortedSame(m.queries, r.queries, m.executing);
  }

  lemma ReadyOrdered(st: Setup, m: Master, at: nat)
    requires Stored(m) && Ranked(m) && Allowed(st, m, MakeReady(at)) && !Faults(st, m, MakeReady(at))
    requires st.algorithm == Priorities
    ensures Ranked(ReadyStep(st, m, at).0)
  {
    var entered := Enter(m, at);
    SortedSame(m.queries, entered.queries, entered.ready);
    SortedSame(m.queries, entered.queries, m.executing);
    ReadyKeeps(st, m, at);
    hide ReadyStep, Enter, Ranked;
    SameRanks(entered, ReadyStep(st, m, at).0);
  }

  /** Aging lowers the priority number of a query that no worker runs, and Ready is sorted again. */
  lemma TickOrdered(st: Setup, m: Master, id: Id, order: seq<Id>)
    requires Inv(st, m) && Allowed(st, m, Tick(id, order)) && !Faults(st, m, Tick(id, order))
    requires st.algorithm == Priorities
    ensures var r := Step(st, m, Tick(id, order)).0;
            && Ranked(r) && multiset(r.ready) == multiset(m.ready) && r.executing == m.executing
            && r.queries.Keys == m.queries.Keys && !Busy(m, id) && m.queries[id].priority > 0
            && (forall q :: q in m.queries ==>
                  r.queries[q].priority == m.queries[q].priority - if q == id then 1 else 0)
  {
    var aged := Aged(m, id).(ready := order);
    forall i | 0 <= i < |m.executing| ensures m.executing[i] != id {
      assert m.executing[i] in m.executing;
    }
    SortedSame(m.queries, aged.queries, m.executing);
    TickKeeps(st, m, id, order);
    hide Preempt, Ranked, Paired, Conserved, Tokens, Displaced, Ages;
    SameRanks(aged, Step(st, m, Tick(id, order)).0);
  }

  // --------------------------------------------------------------------- runs

  lemma StepInv(st: Setup, m: Master, e: Event)
    requires Inv(st, m) && Allowed(st, m, e) && !Faults(st, m, e)
    ensures Inv(st, Step(st, m, e).0)
  {
    hide Step, Allowed, Faults, Conserved, Paired, Tokens, Ranked;
    StepShelved(st, m, e);
    StoredIfConserved(Step(st, m, e).0);
    StepPaired(st, m, e);
    StepTokens(st, m, e);
    if st.algorithm == Priorities { StepOrdered(st, m, e); }
  }

  /** Every event of the sequence may happen in its turn, and none faults. */
  ghost predicate Possible(st: Setup, m: Master, es: seq<Event>)
    decreases |es|
  {
    es == [] ||
    (&& Stored(m) && Allowed(st, m, es[0]) && !Faults(st, m, es[0])
     && Possible(st, Step(st, m, es[0]).0, es[1..]))
  }

  ghost function After(st: Setup, m: Master, es: seq<Event>): Master
    requires Possible(st, m, es)
    decreases |es|
  {
    if es == [] then m else After(st, Step(st, m, es[0]).0, es[1..])
  }

  lemma StartInv(st: Setup)
    ensures Inv(st, START)
  {
    assert Held(START) == multiset(START.queries.Keys);
  }

  lemma {:induction false} RunInv(st: Setup, m: Master, es: seq<Event>)
    requires Inv(st, m) && Possible(st, m, es)
    ensures Inv(st, After(st, m, es))
    decreases |es|
  {
    if es != [] {
      StepInv(st, m, es[0]);
      hide Step, Inv, Allowed, Faults;
      RunInv(st, Step(st, m, es[0]).0, es[1..]);
    }
  }

  /** How many of the five queues and lists hold the query. */
  function Places(m: Master, id: Id): nat {
    multiset(m.arrived)[id] + multiset(m.ready)[id] + multiset(m.executing)[id] + multiset(m.evicted)[id] + multiset(m.done)[id]
  }

  /** In every reachable state each admitted, unreleased query is in one place, once; busy workers and Execute pair off. */
  lemma QueriesConserved(st: Setup, es: seq<Event>, id: Id)
    requires Possible(st, START, es)
    ensures var m := After(st, START, es);
            && Places(m, id) == (if id in m.queries then 1 else 0)
            && (id in m.queries ==> id < m.next)
            && (id in m.executing <==> Busy(m, id))
            && (forall w, x :: WorkerOf(m, id, w) && WorkerOf(m, id, x) ==> w == x)
  {
    StartInv(st);
    RunInv(st, START, es);
    var m := After(st, START, es);
    hide Possible, After;
    assert Held(m)[id] == multiset(m.queries.Keys)[id];
  }

  /** Semaphore values in every reachable state. */
  lemma TokensMirrorQueues(st: Setup, es: seq<Event>)
    requires Possible(st, START, es)
    ensures var m := After(st, START, es);
            && m.semWaiting == |m.arrived| + |m.evicted|
            && m.semReady == |m.ready| + m.strays
            && m.semExit == |m.done|
  {
    StartInv(st);
    RunInv(st, START, es);
    hide Possible, After;
  }

  // ------------------------------------------------------------------- faults

  /** The disconnection takes a query out of Ready. */
  ghost predicate Withdraws(m: Master, e: Event) {
    e.Hangup? && !Busy(m, e.id) && e.id in m.ready
  }

  ghost predicate NeverWithdraws(st: Setup, m: Master, es: seq<Event>)
    requires Possible(st, m, es)
    decreases |es|
  {
    es == [] || (!Withdraws(m, es[0]) && NeverWithdraws(st, Step(st, m, es[0]).0, es[1..]))
  }

  lemma StepStrays(st: Setup, m: Master, e: Event)
    requires Stored(m) && Allowed(st, m, e) && !Faults(st, m, e)
    ensures Step(st, m, e).0.strays == m.strays + if Withdraws(m, e) then 1 else 0
  {
    match e {
      case MakeReady(at) => ReadyKeeps(st, m, at);
      case Tick(id, order) => TickKeeps(st, m, id, order);
      case _ =>
    }
  }

  lemma {:induction false} NoStrays(st: Setup, m: Master, es: seq<Event>)
    requires Possible(st, m, es) && NeverWithdraws(st, m, es)
    ensures After(st, m, es).strays == m.strays
    decreases |es|
  {
    if es != [] {
      StepStrays(st, m, es[0]);
      hide Step, Allowed, Faults, Withdraws;
      NoStrays(st, Step(st, m, es[0]).0, es[1..]);
    }
  }

  /** A possible event faults in a reachable state exactly when an idle worker can take a stray token to an empty Ready. */
  lemma FaultPossibleIff(st: Setup, es: seq<Event>)
    requires Possible(st, START, es)
    ensures var m := After(st, START, es);
            Stored(m) &&
            ((exists e :: Allowed(st, m, e) && Faults(st, m, e)) <==>
             m.ready == [] && m.strays > 0 && exists w :: w in m.workers && m.workers[w] == -1)
  {
    StartInv(st);
    RunInv(st, START, es);
    var m := After(st, START, es);
    hide Possible, After;
    forall e | Allowed(st, m, e) && Faults(st, m, e)
      ensures m.ready == [] && m.strays > 0 && e.Dispatch? && e.worker in m.workers && m.workers[e.worker] == -1
    {
      FaultsOnlyOnStrayTokens(st, m, e);
    }
    if w :| w in m.workers && m.workers[w] == -1 && m.ready == [] && m.strays > 0 {
      assert Allowed(st, m, Dispatch(w, 0)) && Faults(st, m, Dispatch(w, 0));
    }
  }

  /** As long as nobody hangs up on a query in Ready, no worker ever dequeues from an empty Ready list. */
  lemma NoFaultUnlessWithdrawn(st: Setup, es: seq<Event>, e: Event)
    requires Possible(st, START, es) && NeverWithdraws(st, START, es)
    requires Stored(After(st, START, es)) && Allowed(st, After(st, START, es), e)
    ensures !Faults(st, After(st, START, es), e)
  {
    StartInv(st);
    RunInv(st, START, es);
    NoStrays(st, START, es);
    FaultsOnlyOnStrayTokens(st, After(st, START, es), e);
  }
}
