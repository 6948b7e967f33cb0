/** What a query's action code tells of it in every reachable state, and with it who may age and who may displace a running query. */
module Aging {
  import opened Common
  import opened Scheduler
  import opened SchedulerInvariant
  import opened SchedulerRuns
  import opened SchedulerPolicies

  /** In New CREACION and no aging; in Ready or Desalojo ESPERA; in Execute EJECUCION or DESALOJO; in Exit FIN. Who waits has its client. */
  ghost predicate Told(m: Master)
    requires Stored(m)
  {
    && (forall id :: id in m.arrived ==> m.queries[id].action == Created && !m.queries[id].aging)
    && (forall id :: id in m.ready ==> m.queries[id].action == Waiting)
    && (forall id :: id in m.evicted ==> m.queries[id].action == Waiting)
    && (forall id :: id in m.executing ==> m.queries[id].action == Running || m.queries[id].action == Evicting)
    && (forall id :: id in m.done ==> m.queries[id].action == Finished)
    && (forall id :: id in m.arrived || id in m.ready || id in m.evicted ==> !m.queries[id].disconnected)
  }

  /** A query that stays where it was keeps its code, or is asked to leave Execute, or goes on in it. */
  ghost predicate SameCode(m: Master, r: Master, id: Id)
    requires id in m.queries && id in r.queries
  {
    && (r.queries[id].action == m.queries[id].action
        || (id in m.executing && (r.queries[id].action == Evicting || r.queries[id].action == Running)))
    && (r.queries[id].aging ==> m.queries[id].aging)
    && r.queries[id].disconnected == m.queries[id].disconnected
  }

  /** Only `id` changes lists. */
  ghost predicate MovesOnly(m: Master, r: Master, id: Id) {
    && (forall q :: q in r.queries && q != id ==> q in m.queries && SameCode(m, r, q))
    && forall q :: q != id ==>
         && (q in r.arrived ==> q in m.arrived) && (q in r.ready ==> q in m.ready) && (q in r.evicted ==> q in m.evicted)
         && (q in r.executing ==> q in m.executing) && (q in r.done ==> q in m.done)
  }

  /** It is where its code says. */
  ghost predicate Lands(r: Master, id: Id)
    requires Stored(r)
  {
    && (id in r.arrived ==> r.queries[id].action == Created && !r.queries[id].aging)
    && (id in r.ready || id in r.evicted ==> r.queries[id].action == Waiting)
    && (id in r.executing ==> r.queries[id].action == Running || r.queries[id].action == Evicting)
    && (id in r.done ==> r.queries[id].action == Finished)
    && (id in r.arrived || id in r.ready || id in r.evicted ==> !r.queries[id].disconnected)
  }

  lemma Moved(m: Master, r: Master, id: Id)
    requires Stored(m) && Told(m) && Conserved(m) && Stored(r) && MovesOnly(m, r, id) && Lands(r, id)
    ensures Told(r)
  {
    Apart(m);
    hide Conserved;
  }

  lemma Apart(m: Master)
    requires Conserved(m)
    ensures forall q :: q in m.arrived || q in m.ready || q in m.evicted || q in m.done ==> q !in m.executing
  {
    forall q ensures q in m.arrived || q in m.ready || q in m.evicted || q in m.done ==> q !in m.executing { Exclusive(m, q); }
  }

  lemma LandsIn(m: Master, id: Id)
    requires Stored(m) && Conserved(m)
    requires || id !in m.queries
             || (id in m.arrived && m.queries[id].action == Created && !m.queries[id].aging && !m.queries[id].disconnected)
             || ((id in m.ready || id in m.evicted) && m.queries[id].action == Waiting && !m.queries[id].disconnected)
             || (id in m.executing && (m.queries[id].action == Running || m.queries[id].action == Evicting))
             || (id in m.done && m.queries[id].action == Finished)
    ensures Lands(m, id)
  {
    OneList(m, id);
    hide Conserved;
  }

  /** What follows the lists of a step: its invariant, and what its codes tell. */
  lemma StepMoved(st: Setup, m: Master, e: Event, id: Id)
    requires Inv(st, m) && Told(m) && Allowed(st, m, e) && !Faults(st, m, e)
    requires var r := Step(st, m, e).0;
             && MovesOnly(m, r, id)
             && (|| id !in r.queries
                 || (id in r.arrived && r.queries[id].action == Created && !r.queries[id].aging && !r.queries[id].disconnected)
                 || ((id in r.ready || id in r.evicted) && r.queries[id].action == Waiting && !r.queries[id].disconnected)
                 || (id in r.executing && (r.queries[id].action == Running || r.queries[id].action == Evicting))
                 || (id in r.done && r.queries[id].action == Finished))
    ensures Stored(Step(st, m, e).0) && Told(Step(st, m, e).0)
  {
    hide Step, Allowed, Faults, Told, Conserved, Paired, Tokens, Ranked, MovesOnly, Lands;
    StepInv(st, m, e);
    LandsIn(Step(st, m, e).0, id);
    Moved(m, Step(st, m, e).0, id);
  }

  lemma InsertMembers(s: seq<Id>, at: nat, id: Id)
    requires at <= |s|
    ensures forall q :: q in Insert(s, at, id) <==> q in s || q == id
  {
    forall q ensures q in Insert(s, at, id) <==> q in s || q == id {
      assert multiset(Insert(s, at, id))[q] == (multiset(s) + multiset{id})[q];
    }
  }

  // ------------------------------------------------------------------ steps

  /** The check marks a running query, and aging may start for the one that entered. */
  lemma SettleCodes(st: Setup, m: Master, id: Id)
    requires id in m.queries && Known(m, m.executing)
    requires Displaced(st, m, id).Some? ==> Busy(m, Displaced(st, m, id).value)
    ensures var r := Settle(st, m, id).0;
            && r.queries.Keys == m.queries.Keys
            && (forall q :: q in m.queries && q != id ==> SameCode(m, r, q))
            && (id !in m.executing ==> r.queries[id].action == m.queries[id].action)
            && r.queries[id].disconnected == m.queries[id].disconnected
  {
    var (asked, orders) := Preempt(st, m, id);
    assert forall q :: q in m.queries ==> q in asked.queries && SameCode(m, asked, q);
  }

  lemma EnterLists(m: Master, at: nat)
    requires (m.evicted != [] || m.arrived != []) && NextReady(m) in m.queries && at <= |m.ready| && m.semWaiting > 0
    ensures var r, id := Enter(m, at), NextReady(m);
            && r.queries == m.queries[id := m.queries[id].(action := Waiting)]
            && r.executing == m.executing && r.done == m.done && id in r.ready
            && (forall q :: q in r.arrived ==> q in m.arrived) && (forall q :: q in r.evicted ==> q in m.evicted)
            && (forall q :: q in r.ready ==> q in m.ready || q == id)
  {
    InsertMembers(m.ready, at, NextReady(m));
    hide Insert;
  }

  lemma ReadyMoves(st: Setup, m: Master, at: nat)
    requires Stored(m) && Allowed(st, m, MakeReady(at)) && !Faults(st, m, MakeReady(at)) && NextReady(m) !in m.executing
    ensures var id, r := NextReady(m), ReadyStep(st, m, at).0;
            && MovesOnly(m, r, id) && id in r.ready && id in r.queries && r.queries[id].action == Waiting
            && r.queries[id].disconnected == m.queries[id].disconnected
  {
    var id, entered := NextReady(m), Enter(m, at);
    ReadyParts(st, m, at);
    ReadyKeeps(st, m, at);
    EnterLists(m, at);
    SettleCodes(st, entered, id);
    hide *;
    EnteredMoves(m, entered, ReadyStep(st, m, at).0, id);
  }

  lemma EnteredMoves(m: Master, entered: Master, r: Master, id: Id)
    requires id in m.queries && id !in m.executing && SameLists(entered, r) && r.queries.Keys == entered.queries.Keys
    requires entered.queries == m.queries[id := m.queries[id].(action := Waiting)]
    requires entered.executing == m.executing && entered.done == m.done && id in entered.ready
    requires (forall q :: q in entered.arrived ==> q in m.arrived) && (forall q :: q in entered.evicted ==> q in m.evicted)
    requires forall q :: q in entered.ready ==> q in m.ready || q == id
    requires forall q :: q in entered.queries && q != id ==> SameCode(entered, r, q)
    requires r.queries[id].action == Waiting && r.queries[id].disconnected == m.queries[id].disconnected
    ensures MovesOnly(m, r, id) && id in r.ready && id in r.queries
  {
    forall q | q in m.queries && q != id ensures q in entered.queries && entered.queries[q] == m.queries[q] {
    }
  }

  lemma ReadyTold(st: Setup, m: Master, at: nat)
    requires Inv(st, m) && Told(m) && Allowed(st, m, MakeReady(at)) && !Faults(st, m, MakeReady(at))
    ensures Stored(ReadyStep(st, m, at).0) && Told(ReadyStep(st, m, at).0)
  {
    var id := NextReady(m);
    assert id in m.evicted || id in m.arrived;
    assert !m.queries[id].disconnected;
    NotExecuting(m, id);
    hide Told, ReadyStep, MovesOnly, Allowed, Faults, Conserved, Paired, Tokens, Ranked;
    ReadyMoves(st, m, at);
    StepMoved(st, m, MakeReady(at), id);
  }

  lemma DispatchMoves(m: Master, w: WorkerId, at: nat)
    requires m.ready != [] && m.ready[0] in m.queries && at <= |m.executing| && m.semReady > 0
    ensures var id, r := m.ready[0], DispatchStep(m, w, at).0;
            MovesOnly(m, r, id) && id in r.executing && id in r.queries && r.queries[id].action == Running
  {
    InsertMembers(m.executing, at, m.ready[0]);
    hide Insert;
  }

  lemma AnswerMoves(m: Master, w: WorkerId, reply: Reply)
    requires w in m.workers && m.workers[w] >= 0 && m.workers[w] in m.queries && m.workers[w] in m.executing
    ensures var id, r := m.workers[w] as Id, AnswerStep(m, w, reply);
            && MovesOnly(m, r, id) && id in r.queries
            && ((id in r.executing && r.queries[id].action == Running) || (id in r.evicted && r.queries[id].action == Waiting && !r.queries[id].disconnected)
                || (id in r.done && r.queries[id].action == Finished))
  {
    RemoveMembers(m.executing, m.workers[w] as Id);
    hide Remove;
  }

  lemma LossMoves(m: Master, w: WorkerId)
    requires w in m.workers && m.workers[w] >= 0 && m.workers[w] in m.queries
    ensures var id, r := m.workers[w] as Id, LossStep(m, w);
            MovesOnly(m, r, id) && id in r.queries && id in r.done && r.queries[id].action == Finished
  {
    LossIs(m, w);
    RemoveMembers(m.executing, m.workers[w] as Id);
    hide Remove, LossStep;
    assert LossStep(m, w).done[|m.done|] == m.workers[w];
  }

  lemma LossIs(m: Master, w: WorkerId)
    requires w in m.workers && m.workers[w] >= 0 && m.workers[w] in m.queries
    ensures var id := m.workers[w] as Id;
            LossStep(m, w) ==
            m.(executing := Remove(m.executing, id), workers := m.workers - {w},
               queries := m.queries[id := m.queries[id].(action := Finished)], done := m.done + [id], semExit := m.semExit + 1)
  {
    hide Remove;
  }

  /** A disconnection marks a query in Execute, moves one from Ready to Exit, and leaves any other as it is. */
  lemma HangupMoves(m: Master, id: Id)
    requires id in m.queries && (Busy(m, id) ==> id in m.executing)
    ensures var r := HangupStep(m, id).0;
            && MovesOnly(m, r, id) && id in r.queries
            && ((id in r.executing && r.queries[id].action == Evicting) || (id in r.done && r.queries[id].action == Finished) || r == m)
  {
    RemoveMembers(m.ready, id);
    hide Remove, Busy;
  }

  lemma TickCodes(st: Setup, m: Master, id: Id, order: seq<Id>)
    requires Stored(m) && Allowed(st, m, Tick(id, order)) && !Faults(st, m, Tick(id, order))
    ensures var r := Step(st, m, Tick(id, order)).0;
            && (forall q :: q in m.queries ==> q in r.queries && SameCode(m, r, q))
            && (id !in m.executing ==> r.queries[id].action == m.queries[id].action)
  {
    hide Sorted, Ages;
  }

  lemma TickMoves(st: Setup, m: Master, id: Id, order: seq<Id>)
    requires Stored(m) && Allowed(st, m, Tick(id, order)) && !Faults(st, m, Tick(id, order))
    ensures var r := Step(st, m, Tick(id, order)).0;
            && MovesOnly(m, r, id) && r.arrived == m.arrived && r.evicted == m.evicted && r.executing == m.executing && r.done == m.done
            && (forall q :: q in r.ready <==> q in m.ready)
            && (forall q :: q in m.queries ==> q in r.queries && SameCode(m, r, q)) && r.queries.Keys == m.queries.Keys
  {
    var r := Step(st, m, Tick(id, order)).0;
    TickKeeps(st, m, id, order);
    TickCodes(st, m, id, order);
    forall q ensures q in r.ready <==> q in m.ready { assert multiset(r.ready)[q] == multiset(m.ready)[q]; }
    hide Step, Allowed, Faults;
  }

  lemma SameTold(m: Master, r: Master)
    requires Stored(m) && Told(m) && Conserved(m) && r.queries.Keys == m.queries.Keys
    requires r.arrived == m.arrived && r.evicted == m.evicted && r.executing == m.executing && r.done == m.done
    requires forall q :: q in r.ready <==> q in m.ready
    requires forall q :: q in m.queries ==> SameCode(m, r, q)
    ensures Stored(r) && Told(r)
  {
    Apart(m);
    hide Conserved;
    forall i | 0 <= i < |r.ready| ensures r.ready[i] in r.queries { assert r.ready[i] in m.ready; }
  }

  /** One more query in New, or one less in Exit. */
  lemma EndsTold(st: Setup, m: Master, e: Event)
    requires Inv(st, m) && Told(m) && Allowed(st, m, e) && !Faults(st, m, e) && (e.Arrive? || e.Release?)
    ensures Stored(Step(st, m, e).0) && Told(Step(st, m, e).0)
  {
    var id := if e.Arrive? then m.next else m.done[0];
    EndsMoves(st, m, e);
    hide Told, MovesOnly, Allowed, Faults, Step, Inv;
    StepMoved(st, m, e, id);
  }

  lemma EndsMoves(st: Setup, m: Master, e: Event)
    requires Stored(m) && Allowed(st, m, e) && !Faults(st, m, e) && (e.Arrive? || e.Release?)
    ensures var r := Step(st, m, e).0;
            if e.Arrive? then MovesOnly(m, r, m.next) && m.next in r.arrived && m.next in r.queries
                              && r.queries[m.next].action == Created && !r.queries[m.next].aging && !r.queries[m.next].disconnected
            else m.done != [] && MovesOnly(m, r, m.done[0]) && m.done[0] !in r.queries
  {
    hide Stored;
  }

  lemma StepTold(st: Setup, m: Master, e: Event)
    requires Inv(st, m) && Told(m) && Allowed(st, m, e) && !Faults(st, m, e)
    ensures Stored(Step(st, m, e).0) && Told(Step(st, m, e).0)
  {
    StepRuns(st, m, e);
    hide Told, MovesOnly, Conserved, Paired, Tokens, Ranked, SameCode, Stored;
    hide ReadyStep, DispatchStep, AnswerStep, LossStep, HangupStep, Preempt, Sorted, Place, Insert, Remove, Busy, Ages;
    match e {
      case Arrive(_) | Release => EndsTold(st, m, e);
      case Connect(_) | StopAging(_) => PlainTold(st, m, e);
      case MakeReady(at) => ReadyTold(st, m, at);
      case Dispatch(w, at) => DispatchMoves(m, w, at); StepMoved(st, m, e, m.ready[0]);
      case Answer(w, reply) => AnswerMoves(m, w, reply); StepMoved(st, m, e, m.workers[w] as Id);
      case LoseWorker(w) => LossMoves(m, w); StepMoved(st, m, e, m.workers[w] as Id);
      case Hangup(id) => HangupTold(st, m, id);
      case Tick(id, order) => TickMoves(st, m, id, order); SameTold(m, Step(st, m, e).0);
    }
  }

  /** Who runs a query has it in Execute. */
  lemma StepRuns(st: Setup, m: Master, e: Event)
    requires Inv(st, m)
    ensures Stored(m) && Conserved(m)
    ensures forall w :: w in m.workers && m.workers[w] >= 0 ==> m.workers[w] in m.executing
    ensures forall id :: Busy(m, id) ==> id in m.executing
  {
  }

  lemma PlainTold(st: Setup, m: Master, e: Event)
    requires Inv(st, m) && Told(m) && Allowed(st, m, e) && !Faults(st, m, e) && (e.Connect? || e.StopAging?)
    ensures Stored(Step(st, m, e).0) && Told(Step(st, m, e).0)
  {
    hide Told, Conserved, Ages, Tokens, Ranked, Paired;
    SameTold(m, Step(st, m, e).0);
  }

  lemma HangupTold(st: Setup, m: Master, id: Id)
    requires Inv(st, m) && Told(m) && Allowed(st, m, Hangup(id)) && !Faults(st, m, Hangup(id))
    ensures Stored(HangupStep(m, id).0) && Told(HangupStep(m, id).0)
  {
    StepRuns(st, m, Hangup(id));
    hide Told, MovesOnly, HangupStep, Inv, Busy, Conserved;
    HangupMoves(m, id);
    if HangupStep(m, id).0 != m { StepMoved(st, m, Hangup(id), id); }
  }

  // ------------------------------------------------------------------ runs

  lemma StartTold()
    ensures Stored(START) && Told(START)
  {
  }

  lemma {:induction false} RunTold(st: Setup, m: Master, es: seq<Event>)
    requires Inv(st, m) && Told(m) && Possible(st, m, es)
    ensures Stored(After(st, m, es)) && Told(After(st, m, es))
    decreases |es|
  {
    if es != [] {
      StepInv(st, m, es[0]);
      StepTold(st, m, es[0]);
      hide Step, Inv, Allowed, Faults, Told;
      RunTold(st, Step(st, m, es[0]).0, es[1..]);
    }
  }

  /** In every reachable state the action code tells which list a query is in, and the other way round. */
  lemma CodeTellsList(st: Setup, es: seq<Event>, id: Id)
    requires Possible(st, START, es) && id in After(st, START, es).queries
    ensures var m := After(st, START, es); var code := m.queries[id].action;
            && (code == Created <==> id in m.arrived)
            && (code == Waiting <==> id in m.ready || id in m.evicted)
            && (code == Running || code == Evicting <==> id in m.executing)
            && (code == Finished <==> id in m.done)
  {
    StartInv(st);
    StartTold();
    RunInv(st, START, es);
    RunTold(st, START, es);
    var m := After(st, START, es);
    Exclusive(m, id);
    hide Possible, After, Conserved;
  }

  // ------------------------------------------------------------------ aging

  /** Any list can be sorted by priority. */
  lemma {:induction false} Sortable(queries: map<Id, Query>, s: seq<Id>) returns (r: seq<Id>)
    requires forall i :: 0 <= i < |s| ==> s[i] in queries
    ensures multiset(r) == multiset(s) && (forall i :: 0 <= i < |r| ==> r[i] in queries) && Sorted(queries, r)
    decreases |s|
  {
    if s == [] {
      r := [];
    } else {
      var rest := Sortable(queries, s[1..]);
      r := SortedInsert(queries, rest, s[0]);
      assert s == [s[0]] + s[1..];
    }
  }

  lemma {:induction false} SortedInsert(queries: map<Id, Query>, s: seq<Id>, id: Id) returns (r: seq<Id>)
    requires (forall i :: 0 <= i < |s| ==> s[i] in queries) && id in queries && Sorted(queries, s)
    ensures multiset(r) == multiset(s) + multiset{id} && (forall i :: 0 <= i < |r| ==> r[i] in queries) && Sorted(queries, r)
    decreases |s|
  {
    if s == [] || queries[id].priority <= queries[s[0]].priority {
      r := [id] + s;
    } else {
      FirstIsBest(queries, s);
      hide Sorted;
      var rest := SortedInsert(queries, s[1..], id);
      r := [s[0]] + rest;
      assert s == [s[0]] + s[1..];
      forall x | x in rest ensures queries[s[0]].priority <= queries[x].priority {
        assert multiset(rest)[x] == (multiset(s[1..]) + multiset{id})[x];
      }
      SortedCons(queries, s[0], rest);
    }
  }

  /** Where the aging thread goes on, in terms of the lists. */
  lemma AgesIff(st: Setup, m: Master, id: Id)
    requires Inv(st, m) && Told(m) && id in m.queries
    ensures Ages(m, id) <==>
            (id in m.arrived || id in m.ready || id in m.evicted) && !m.queries[id].disconnected && m.queries[id].priority > 0
    ensures m.queries[id].aging ==> id !in m.arrived
  {
    OneList(m, id);
    Exclusive(m, id);
    hide Conserved, Tokens, Ranked;
    assert Busy(m, id) ==> id in m.executing;
  }

  lemma TickPossible(st: Setup, m: Master, id: Id)
    requires Stored(m) && id in m.queries && m.queries[id].aging && Ages(m, id)
    ensures exists order :: Allowed(st, m, Tick(id, order))
  {
    var better := m.queries[id := m.queries[id].(priority := m.queries[id].priority - 1)];
    var order := Sortable(better, m.ready);
    assert Allowed(st, m, Tick(id, order));
  }

  /** In every reachable state the aging thread of a query can improve it exactly when it waits, its client is there and its priority is above 0. */
  lemma AgingIff(st: Setup, es: seq<Event>, id: Id)
    requires Possible(st, START, es) && id in After(st, START, es).queries && After(st, START, es).queries[id].aging
    ensures var m := After(st, START, es);
            Stored(m) &&
            ((exists order :: Allowed(st, m, Tick(id, order))) <==>
             (id in m.ready || id in m.evicted) && !m.queries[id].disconnected && m.queries[id].priority > 0)
  {
    StartInv(st);
    StartTold();
    RunInv(st, START, es);
    RunTold(st, START, es);
    var m := After(st, START, es);
    AgesIff(st, m, id);
    hide Possible, After, Conserved, Paired, Tokens, Ranked, Ages;
    if Ages(m, id) { TickPossible(st, m, id); }
  }

  /** Whoever displaces a running query waits: a query that runs or has ended evicts nobody. */
  lemma ChallengerWaits(st: Setup, es: seq<Event>, e: Event)
    requires Possible(st, START, es + [e]) && (e.MakeReady? || e.Tick?)
    ensures Possible(st, START, es) && Stored(After(st, START, es))
    ensures Allowed(st, After(st, START, es), e) && !Faults(st, After(st, START, es), e)
    ensures var m := After(st, START, es); var id := Challenger(m, e).0;
            && (id in m.arrived || id in m.ready || id in m.evicted) && id !in m.executing && id !in m.done
            && id in m.queries && m.queries[id].action != Finished
  {
    LastPossible(st, START, es, e);
    StartInv(st);
    StartTold();
    RunInv(st, START, es);
    RunTold(st, START, es);
    hide *;
    ChallengerIsWaiting(st, After(st, START, es), e);
  }

  lemma ChallengerIsWaiting(st: Setup, m: Master, e: Event)
    requires Inv(st, m) && Told(m) && Allowed(st, m, e) && !Faults(st, m, e) && (e.MakeReady? || e.Tick?)
    ensures e.MakeReady? ==> m.evicted != [] || m.arrived != []
    ensures e.Tick? ==> e.id in m.queries
    ensures var id := Challenger(m, e).0;
            && (id in m.arrived || id in m.ready || id in m.evicted) && id !in m.executing && id !in m.done
            && id in m.queries && m.queries[id].action != Finished
  {
    hide Conserved, Paired, Tokens, Ranked, Sorted, Ages;
    var id := Challenger(m, e).0;
    OneList(m, id);
    if e.Tick? {
      AgesIff(st, m, id);
    } else {
      assert id in m.evicted || id in m.arrived;
    }
  }

  // ------------------------------------------------------------------ who has an aging thread

  /** With aging off, or in FIFO, nobody ages; else everybody in Ready whose priority can still improve does. */
  ghost predicate AgingStarted(st: Setup, m: Master)
    requires Stored(m)
  {
    if st.ages && st.algorithm == Priorities
    then forall id :: id in m.ready && m.queries[id].priority > 0 ==> m.queries[id].aging
    else forall id :: id in m.queries ==> !m.queries[id].aging
  }

  lemma ReadyStarts(st: Setup, m: Master, at: nat)
    requires Stored(m) && AgingStarted(st, m) && Allowed(st, m, MakeReady(at)) && !Faults(st, m, MakeReady(at))
    requires Stored(ReadyStep(st, m, at).0)
    ensures AgingStarted(st, ReadyStep(st, m, at).0)
  {
    var id, entered := NextReady(m), Enter(m, at);
    EnterLists(m, at);
    ReadyKeeps(st, m, at);
    SettleAging(st, entered, id);
    hide Enter, Settle, ReadyStep, Displaced, Sorted, Insert;
    forall q | q in m.queries && q != id ensures q in entered.queries && entered.queries[q] == m.queries[q] {
    }
  }

  lemma SettleAging(st: Setup, m: Master, id: Id)
    requires id in m.queries && Known(m, m.executing)
    requires Displaced(st, m, id).Some? ==> Busy(m, Displaced(st, m, id).value)
    ensures var r := Settle(st, m, id).0;
            && r.queries.Keys == m.queries.Keys
            && (forall q :: q in m.queries && q != id ==> r.queries[q].aging == m.queries[q].aging)
            && r.queries[id].aging == (m.queries[id].aging || (st.ages && st.algorithm == Priorities))
  {
    PreemptKeeps(st, m, id);
    hide Preempt, Displaced;
  }

  lemma StepStarts(st: Setup, m: Master, e: Event)
    requires Inv(st, m) && Told(m) && AgingStarted(st, m) && Allowed(st, m, e) && !Faults(st, m, e)
    ensures Stored(Step(st, m, e).0) && AgingStarted(st, Step(st, m, e).0)
  {
    StepTold(st, m, e);
    assert m.next !in m.queries;
    hide Told, Conserved, Paired, Tokens, Ranked, AgingStarted, Step, Faults;
    match e {
      case MakeReady(at) => ReadyStarts(st, m, at);
      case Tick(id, order) => TickStarts(st, m, id, order);
      case StopAging(id) => StopStarts(st, m, id);
      case _ => OtherStarts(st, m, e);
    }
  }

  lemma TickStarts(st: Setup, m: Master, id: Id, order: seq<Id>)
    requires Stored(m) && AgingStarted(st, m) && Allowed(st, m, Tick(id, order)) && !Faults(st, m, Tick(id, order))
    requires Stored(Step(st, m, Tick(id, order)).0)
    ensures AgingStarted(st, Step(st, m, Tick(id, order)).0)
  {
    TickKeeps(st, m, id, order);
    var r := Step(st, m, Tick(id, order)).0;
    hide Step, Allowed, Faults;
    forall q ensures q in r.ready <==> q in m.ready { assert multiset(r.ready)[q] == multiset(m.ready)[q]; }
  }

  lemma StopStarts(st: Setup, m: Master, id: Id)
    requires Inv(st, m) && Told(m) && AgingStarted(st, m) && Allowed(st, m, StopAging(id)) && !Faults(st, m, StopAging(id))
    requires Stored(Step(st, m, StopAging(id)).0)
    ensures AgingStarted(st, Step(st, m, StopAging(id)).0)
  {
    AgesIff(st, m, id);
    hide Told, Conserved, Paired, Tokens, Ranked, Ages;
    assert id in m.ready ==> !m.queries[id].disconnected by { WaitingHasClient(m); }
  }

  lemma WaitingHasClient(m: Master)
    requires Stored(m) && Told(m)
    ensures forall id :: id in m.ready ==> !m.queries[id].disconnected
  {
  }

  lemma OtherStarts(st: Setup, m: Master, e: Event)
    requires Stored(m) && AgingStarted(st, m) && Allowed(st, m, e) && !Faults(st, m, e)
    requires !e.MakeReady? && !e.Tick? && !e.StopAging? && Stored(Step(st, m, e).0) && m.next !in m.queries
    ensures AgingStarted(st, Step(st, m, e).0)
  {
    OtherKeeps(st, m, e);
    hide Step, Allowed, Faults;
  }

  /** Nobody else joins Ready, improves or starts to age. */
  lemma OtherKeeps(st: Setup, m: Master, e: Event)
    requires Stored(m) && Allowed(st, m, e) && !Faults(st, m, e) && !e.MakeReady? && !e.Tick? && !e.StopAging?
    requires m.next !in m.queries
    ensures var r := Step(st, m, e).0;
            && (forall q :: q in r.ready ==> q in m.ready)
            && forall q :: q in r.queries ==>
                 if q in m.queries then r.queries[q].priority == m.queries[q].priority && r.queries[q].aging == m.queries[q].aging
                 else !r.queries[q].aging
  {
    OtherReady(st, m, e);
    OtherQueries(st, m, e);
    hide *;
  }

  lemma OtherReady(st: Setup, m: Master, e: Event)
    requires Stored(m) && Allowed(st, m, e) && !Faults(st, m, e) && !e.MakeReady? && !e.Tick?
    ensures forall q :: q in Step(st, m, e).0.ready ==> q in m.ready
  {
    hide Remove, Insert, Sorted, Busy;
    match e {
      case Hangup(id) => RemoveMembers(m.ready, id);
      case _ =>
    }
  }

  lemma OtherQueries(st: Setup, m: Master, e: Event)
    requires Stored(m) && Allowed(st, m, e) && !Faults(st, m, e) && !e.MakeReady? && !e.Tick? && !e.StopAging?
    requires m.next !in m.queries
    ensures var r := Step(st, m, e).0;
            forall q :: q in r.queries ==>
              if q in m.queries then r.queries[q].priority == m.queries[q].priority && r.queries[q].aging == m.queries[q].aging
              else !r.queries[q].aging
  {
    hide Remove, Insert, Sorted, Busy;
    match e {
      case Answer(w, reply) => hide Stored, Ages;
      case _ =>
    }
  }

  lemma {:induction false} RunStarts(st: Setup, m: Master, es: seq<Event>)
    requires Inv(st, m) && Told(m) && AgingStarted(st, m) && Possible(st, m, es)
    ensures Stored(After(st, m, es)) && AgingStarted(st, After(st, m, es))
    decreases |es|
  {
    if es != [] {
      StepInv(st, m, es[0]);
      StepTold(st, m, es[0]);
      StepStarts(st, m, es[0]);
      hide Step, Inv, Allowed, Faults, Told, AgingStarted;
      RunStarts(st, Step(st, m, es[0]).0, es[1..]);
    }
  }

  /** In every reachable state a query in Ready whose priority can improve has an aging thread when aging is on, and no query ever has one when it is off or in FIFO. */
  lemma AgingFollowsSetup(st: Setup, es: seq<Event>, id: Id)
    requires Possible(st, START, es) && id in After(st, START, es).queries
    ensures var m := After(st, START, es);
            if st.ages && st.algorithm == Priorities
            then id in m.ready && m.queries[id].priority > 0 ==> m.queries[id].aging
            else !m.queries[id].aging
  {
    StartInv(st);
    StartTold();
    assert AgingStarted(st, START);
    RunStarts(st, START, es);
    hide Possible, After;
  }

  // ------------------------------------------------------------------ priorities

  /** A query enters with the priority its client gave, and only its own aging turns change it, by one each. */
  lemma PriorityOnlyAges(st: Setup, m: Master, e: Event, id: Id)
    requires Inv(st, m) && Allowed(st, m, e) && !Faults(st, m, e) && id in Step(st, m, e).0.queries
    ensures if id in m.queries
            then Step(st, m, e).0.queries[id].priority == m.queries[id].priority - (if e.Tick? && e.id == id then 1 else 0)
            else e.Arrive? && id == m.next && Step(st, m, e).0.queries[id].priority == e.priority
  {
    assert m.next !in m.queries;
    hide Conserved, Paired, Tokens, Ranked, Step, Allowed, Faults, Stored;
    match e {
      case MakeReady(at) => ReadyPriorities(st, m, at);
      case Tick(q, order) => TickPriorities(st, m, q, order);
      case StopAging(q) => StopPriorities(st, m, q);
      case _ =>
        OtherKeeps(st, m, e);
        OnlyArrivals(st, m, e);
    }
  }

  lemma ReadyPriorities(st: Setup, m: Master, at: nat)
    requires Stored(m) && Allowed(st, m, MakeReady(at)) && !Faults(st, m, MakeReady(at))
    ensures var r := Step(st, m, MakeReady(at)).0;
            r.queries.Keys == m.queries.Keys && forall q :: q in m.queries ==> r.queries[q].priority == m.queries[q].priority
  {
    ReadyParts(st, m, at);
    ReadyKeeps(st, m, at);
    EnterLists(m, at);
    hide Enter, ReadyStep, Allowed, Faults, Stored, Displaced;
    var entered := Enter(m, at);
    assert forall q :: q in m.queries ==> entered.queries[q].priority == m.queries[q].priority;
  }

  lemma TickPriorities(st: Setup, m: Master, id: Id, order: seq<Id>)
    requires Stored(m) && Allowed(st, m, Tick(id, order)) && !Faults(st, m, Tick(id, order))
    ensures var r := Step(st, m, Tick(id, order)).0;
            r.queries.Keys == m.queries.Keys
            && forall q :: q in m.queries ==> r.queries[q].priority == m.queries[q].priority - if q == id then 1 else 0
  {
    TickKeeps(st, m, id, order);
    assert id in m.queries;
    hide Step, Allowed, Faults, Stored;
    assert forall q :: q in m.queries ==> Aged(m, id).queries[q].priority == m.queries[q].priority - if q == id then 1 else 0;
  }

  lemma StopPriorities(st: Setup, m: Master, id: Id)
    requires Stored(m) && Allowed(st, m, StopAging(id)) && !Faults(st, m, StopAging(id))
    ensures var r := Step(st, m, StopAging(id)).0;
            r.queries.Keys == m.queries.Keys && forall q :: q in m.queries ==> r.queries[q].priority == m.queries[q].priority
  {
  }

  lemma OnlyArrivals(st: Setup, m: Master, e: Event)
    requires Stored(m) && Allowed(st, m, e) && !Faults(st, m, e) && !e.MakeReady? && !e.Tick?
    ensures forall q :: q in Step(st, m, e).0.queries && q !in m.queries ==>
              e.Arrive? && q == m.next && Step(st, m, e).0.queries[q].priority == e.priority
  {
    hide Remove, Insert, Sorted, Busy;
  }
}
