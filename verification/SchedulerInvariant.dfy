/** What every step of the scheduler keeps, and what follows over whole runs. */
module SchedulerInvariant {
  import opened Common
  import opened Scheduler

  /** Every admitted, unreleased query is in exactly one of New, Ready, Execute, Desalojo and Exit. */
  ghost predicate Conserved(m: Master) {
    Held(m) == multiset(m.queries.Keys)
  }

  ghost function Held(m: Master): multiset<Id> {
    multiset(m.arrived) + multiset(m.ready) + multiset(m.executing) + multiset(m.evicted) + multiset(m.done)
  }

  /** Busy connected workers and the queries in Execute pair off. */
  ghost predicate Paired(m: Master) {
    && (forall w :: w in m.workers && m.workers[w] >= 0 ==> m.workers[w] in m.executing)
    && (forall w, x :: w in m.workers && x in m.workers && m.workers[w] == m.workers[x] >= 0 ==> w == x)
    && (forall id :: id in m.executing ==> Busy(m, id))
  }

  /** Semaphores mirror queues, but for the tokens that disconnections in Ready left behind. */
  ghost predicate Tokens(m: Master) {
    && m.semWaiting == |m.arrived| + |m.evicted|
    && m.semReady == |m.ready| + m.strays
    && m.semExit == |m.done|
  }

  /** Ready and Execute are sorted by priority. */
  ghost predicate Ranked(m: Master) {
    && Known(m, m.ready) && Sorted(m.queries, m.ready)
    && Known(m, m.executing) && Sorted(m.queries, m.executing)
  }

  ghost predicate Inv(st: Setup, m: Master) {
    && Stored(m)
    && Conserved(m)
    && (forall id :: id in m.queries ==> id < m.next)
    && Paired(m)
    && Tokens(m)
    && (st.algorithm == Priorities ==> Ranked(m))
  }

  // ------------------------------------------------------------------ helpers

  /** What conservation says of membership. */
  lemma Exclusive(m: Master, id: Id)
    requires Conserved(m)
    ensures id in m.arrived || id in m.ready || id in m.executing || id in m.evicted || id in m.done <==> id in m.queries
    ensures id in m.ready ==> id !in m.executing && id !in m.arrived && id !in m.evicted && id !in m.done
    ensures id in m.executing ==> id !in m.arrived && id !in m.evicted && id !in m.done
  {
    var a, r, x, e, d := multiset(m.arrived), multiset(m.ready), multiset(m.executing), multiset(m.evicted), multiset(m.done);
    assert (a + r + x + e + d)[id] == multiset(m.queries.Keys)[id];
    assert multiset(m.queries.Keys)[id] <= 1;
  }

  /** In one list it is in no other. */
  lemma OneList(m: Master, id: Id)
    requires Conserved(m)
    ensures id in m.arrived ==> id !in m.ready && id !in m.executing && id !in m.evicted && id !in m.done
    ensures id in m.ready ==> id !in m.executing && id !in m.evicted && id !in m.done
    ensures id in m.executing ==> id !in m.evicted && id !in m.done
    ensures id in m.evicted ==> id !in m.done
    ensures id in m.queries || (id !in m.arrived && id !in m.ready && id !in m.executing && id !in m.evicted && id !in m.done)
  {
    var a, r, x, e, d := multiset(m.arrived), multiset(m.ready), multiset(m.executing), multiset(m.evicted), multiset(m.done);
    assert (a + r + x + e + d)[id] == multiset(m.queries.Keys)[id];
    assert multiset(m.queries.Keys)[id] <= 1;
  }

  lemma StoredIfConserved(m: Master)
    requires Conserved(m)
    ensures Stored(m)
  {
    forall id | id in m.arrived || id in m.ready || id in m.executing || id in m.evicted || id in m.done
      ensures id in m.queries
    {
      Exclusive(m, id);
    }
  }

  lemma SplitFirst(s: seq<Id>)
    requires s != []
    ensures multiset(s) == multiset{s[0]} + multiset(s[1..])
  {
    assert s == [s[0]] + s[1..];
  }

  lemma {:induction false} RemoveMembers(s: seq<Id>, id: Id)
    ensures forall x :: x in Remove(s, id) ==> x in s
    ensures |Remove(s, id)| == |s| - if id in s then 1 else 0
  {
    if s != [] && s[0] != id { RemoveMembers(s[1..], id); }
  }

  lemma RemoveOnce(s: seq<Id>, id: Id)
    requires multiset(s)[id] <= 1
    ensures forall x :: x in Remove(s, id) <==> x in s && x != id
  {
    forall x ensures x in Remove(s, id) <==> x in s && x != id {
      assert multiset(Remove(s, id))[x] == (multiset(s) - multiset{id})[x];
    }
  }

  /** The first of a sorted list is a best one, and the others are sorted. */
  lemma FirstIsBest(queries: map<Id, Query>, s: seq<Id>)
    requires s != [] && (forall i :: 0 <= i < |s| ==> s[i] in queries) && Sorted(queries, s)
    ensures forall x :: x in s[1..] ==> x in queries && queries[s[0]].priority <= queries[x].priority
    ensures (forall i :: 0 <= i < |s[1..]| ==> s[1..][i] in queries) && Sorted(queries, s[1..])
  {
    forall x | x in s[1..] ensures x in queries && queries[s[0]].priority <= queries[x].priority {
      var k :| 0 <= k < |s[1..]| && s[1..][k] == x;
      assert s[k + 1] == x;
    }
  }

  lemma SortedCons(queries: map<Id, Query>, x: Id, rest: seq<Id>)
    requires x in queries && (forall i :: 0 <= i < |rest| ==> rest[i] in queries) && Sorted(queries, rest)
    requires forall y :: y in rest ==> queries[x].priority <= queries[y].priority
    ensures (forall i :: 0 <= i < |[x] + rest| ==> ([x] + rest)[i] in queries) && Sorted(queries, [x] + rest)
  {
  }

  lemma {:induction false} RemoveSorted(queries: map<Id, Query>, s: seq<Id>, id: Id)
    requires (forall i :: 0 <= i < |s| ==> s[i] in queries) && Sorted(queries, s)
    ensures (forall i :: 0 <= i < |Remove(s, id)| ==> Remove(s, id)[i] in queries) && Sorted(queries, Remove(s, id))
  {
    if s != [] {
      FirstIsBest(queries, s);
      hide Sorted;
      if s[0] != id {
        RemoveSorted(queries, s[1..], id);
        RemoveMembers(s[1..], id);
        SortedCons(queries, s[0], Remove(s[1..], id));
      }
    }
  }

  /** Priorities are what sorting looks at. */
  lemma SortedSame(queries: map<Id, Query>, queries': map<Id, Query>, s: seq<Id>)
    requires (forall i :: 0 <= i < |s| ==> s[i] in queries && s[i] in queries')
    requires forall i :: 0 <= i < |s| ==> queries'[s[i]].priority == queries[s[i]].priority
    requires Sorted(queries, s)
    ensures Sorted(queries', s)
  {
  }

  // ------------------------------------------------------------------- faults

  /** Of the events that may happen, only a dispatch can fault, and only on an empty Ready list with a stray token. */
  lemma FaultsOnlyOnStrayTokens(st: Setup, m: Master, e: Event)
    requires Inv(st, m) && Allowed(st, m, e)
    ensures Faults(st, m, e) <==> e.Dispatch? && m.ready == []
    ensures Faults(st, m, e) ==> m.strays > 0
  {
    if |m.executing| > 0 {
      assert m.executing[|m.executing| - 1] in m.executing;
    }
    match e {
      case Answer(w, _) => Exclusive(m, m.workers[w] as Id);
      case LoseWorker(w) => Exclusive(m, m.workers[w] as Id);
      case _ =>
    }
  }

  // -------------------------------------------------------------- conservation

  ghost predicate Shelved(m: Master) {
    Conserved(m) && forall id :: id in m.queries ==> id < m.next
  }

  lemma ArriveShelved(m: Master, r: Master)
    requires Shelved(m) && r.next == m.next + 1 && r.queries.Keys == m.queries.Keys + {m.next}
    requires r == m.(next := r.next, queries := r.queries, arrived := m.arrived + [m.next], semWaiting := r.semWaiting)
    ensures Shelved(r)
  {
    KeysWith(m.queries.Keys, r.queries.Keys, m.next);
    assert Held(r) == Held(m) + multiset{m.next} by {
      var a, rest := multiset(m.arrived), multiset(m.ready) + multiset(m.executing) + multiset(m.evicted) + multiset(m.done);
      assert multiset(r.arrived) == a + multiset{m.next};
      assert Held(m) == a + rest && Held(r) == a + multiset{m.next} + rest;
    }
    hide Held;
  }

  lemma KeysWith(before: set<Id>, after: set<Id>, id: Id)
    requires id !in before && after == before + {id}
    ensures multiset(after) == multiset(before) + multiset{id}
  {
  }

  lemma PreemptKeeps(st: Setup, m: Master, id: Id)
    requires id in m.queries && Known(m, m.executing)
    requires Displaced(st, m, id).Some? ==> Busy(m, Displaced(st, m, id).value)
    ensures var r := Preempt(st, m, id).0;
            && r == m.(queries := r.queries) && r.queries.Keys == m.queries.Keys
            && forall q :: q in m.queries ==> r.queries[q] == m.queries[q].(action := r.queries[q].action)
  {
  }

  lemma TakeNextHeld(m: Master)
    requires m.evicted != [] || m.arrived != []
    ensures Held(m) == Held(TakeNext(m)) + multiset{NextReady(m)}
  {
    if m.evicted != [] { SplitFirst(m.evicted); } else { SplitFirst(m.arrived); }
  }

  /** Only actions and aging marks change. */
  ghost predicate SameLists(m: Master, r: Master) {
    && r == m.(queries := r.queries, semReady := r.semReady) && r.queries.Keys == m.queries.Keys
    && forall q :: q in m.queries ==> r.queries[q] == m.queries[q].(action := r.queries[q].action, aging := r.queries[q].aging)
  }

  lemma SettleKeeps(st: Setup, m: Master, id: Id)
    requires id in m.queries && Known(m, m.executing)
    requires Displaced(st, m, id).Some? ==> Busy(m, Displaced(st, m, id).value)
    ensures SameLists(m, Settle(st, m, id).0) && Settle(st, m, id).0.semReady == m.semReady + 1
  {
    PreemptKeeps(st, m, id);
    hide Displaced;
  }

  lemma Regroup(a: multiset<Id>, r: multiset<Id>, x: multiset<Id>, e: multiset<Id>, d: multiset<Id>, id: Id)
    ensures a + (r + multiset{id}) + x + e + d == a + r + x + e + d + multiset{id}
    ensures a + r + x + e + (d + multiset{id}) == a + r + x + e + d + multiset{id}
  {
  }

  /** A query that left a queue for Ready. */
  lemma EnterShelved(m: Master, at: nat)
    requires Shelved(m) && (m.evicted != [] || m.arrived != []) && NextReady(m) in m.queries && at <= |m.ready| && m.semWaiting > 0
    ensures Shelved(Enter(m, at))
  {
    hide Held, Insert;
    TakeNextHeld(m);
    EnterHeld(m, at);
    assert Enter(m, at).queries.Keys == m.queries.Keys;
  }

  lemma EnterHeld(m: Master, at: nat)
    requires (m.evicted != [] || m.arrived != []) && NextReady(m) in m.queries && at <= |m.ready| && m.semWaiting > 0
    ensures Held(Enter(m, at)) == Held(TakeNext(m)) + multiset{NextReady(m)}
  {
    var t, id, r := TakeNext(m), NextReady(m), Enter(m, at);
    assert multiset(r.ready) == multiset(m.ready) + multiset{id};
    Regroup(multiset(t.arrived), multiset(m.ready), multiset(m.executing), multiset(t.evicted), multiset(m.done), id);
    hide Insert;
    hide NextReady;
  }

  /** What the turn needs is there. */
  lemma ReadyParts(st: Setup, m: Master, at: nat)
    requires Stored(m) && Allowed(st, m, MakeReady(at)) && !Faults(st, m, MakeReady(at))
    ensures (m.evicted != [] || m.arrived != []) && NextReady(m) in m.queries && at <= |m.ready| && m.semWaiting > 0
    ensures var id, entered := NextReady(m), Enter(m, at);
            && id in entered.queries && Known(entered, entered.executing)
            && (Displaced(st, entered, id).Some? ==> Busy(entered, Displaced(st, entered, id).value))
            && ReadyStep(st, m, at) == Settle(st, entered, id)
  {
    hide Settle, Sorted, Insert;
  }

  /** Making a query ready changes no list after it entered Ready. */
  lemma ReadyKeeps(st: Setup, m: Master, at: nat)
    requires Stored(m) && Allowed(st, m, MakeReady(at)) && !Faults(st, m, MakeReady(at))
    ensures SameLists(Enter(m, at), ReadyStep(st, m, at).0) && ReadyStep(st, m, at).0.semReady == m.semReady + 1
  {
    SettleKeeps(st, Enter(m, at), NextReady(m));
    hide Settle, SameLists, Sorted;
  }

  /** Aging changes the order of Ready, a priority and perhaps an action. */
  lemma TickKeeps(st: Setup, m: Master, id: Id, order: seq<Id>)
    requires Stored(m) && Allowed(st, m, Tick(id, order)) && !Faults(st, m, Tick(id, order))
    ensures var r := Step(st, m, Tick(id, order)).0;
            && r == m.(ready := order, queries := r.queries) && r.queries.Keys == m.queries.Keys
            && forall q :: q in m.queries ==> r.queries[q] == Aged(m, id).queries[q].(action := r.queries[q].action)
  {
    PreemptKeeps(st, Aged(m, id).(ready := order), id);
    hide Preempt, Sorted;
  }

  lemma ReadyShelved(st: Setup, m: Master, at: nat)
    requires Shelved(m) && Stored(m) && Allowed(st, m, MakeReady(at)) && !Faults(st, m, MakeReady(at))
    ensures Shelved(ReadyStep(st, m, at).0)
  {
    EnterShelved(m, at);
    ReadyKeeps(st, m, at);
    hide ReadyStep, Enter, Shelved;
    ShelvedSame(Enter(m, at), ReadyStep(st, m, at).0);
  }

  lemma DispatchShelved(st: Setup, m: Master, w: WorkerId, at: nat)
    requires Inv(st, m) && Allowed(st, m, Dispatch(w, at)) && m.ready != []
    ensures Shelved(DispatchStep(m, w, at).0)
  {
    SplitFirst(m.ready);
    assert DispatchStep(m, w, at).0.queries.Keys == m.queries.Keys;
  }

  /** A query leaves Execute for one of the other lists. */
  lemma LeaveExecuting(m: Master, r: Master, id: Id)
    requires Shelved(m) && id in m.executing && r.next == m.next && r.queries.Keys == m.queries.Keys
    requires r.arrived == m.arrived && r.ready == m.ready && r.executing == Remove(m.executing, id)
    requires || (r.evicted == m.evicted && r.done == m.done + [id])
             || (r.evicted == m.evicted + [id] && r.done == m.done)
    ensures Shelved(r)
  {
    assert Held(r) == Held(m) by {
      LeftHeld(m, r, id);
    }
    hide Held;
  }

  lemma LeftHeld(m: Master, r: Master, id: Id)
    requires id in m.executing
    requires r.arrived == m.arrived && r.ready == m.ready && r.executing == Remove(m.executing, id)
    requires || (r.evicted == m.evicted && r.done == m.done + [id])
             || (r.evicted == m.evicted + [id] && r.done == m.done)
    ensures Held(r) == Held(m)
  {
    var a, d, e := multiset(m.arrived) + multiset(m.ready), multiset(m.done), multiset(m.evicted);
    var x := multiset(Remove(m.executing, id));
    assert multiset(m.executing) == x + multiset{id};
    assert r.done == m.done + [id] ==> multiset(r.done) == d + multiset{id};
    assert r.evicted == m.evicted + [id] ==> multiset(r.evicted) == e + multiset{id};
    hide Remove;
    Reshelve(a, x, e, d, id);
  }

  lemma Reshelve(a: multiset<Id>, x: multiset<Id>, e: multiset<Id>, d: multiset<Id>, id: Id)
    ensures a + (x + multiset{id}) + e + d == a + x + e + (d + multiset{id})
    ensures a + (x + multiset{id}) + e + d == a + x + (e + multiset{id}) + d
  {
  }

  lemma HangupShelved(m: Master, id: Id)
    requires Shelved(m) && id in m.queries
    ensures Shelved(HangupStep(m, id).0)
  {
    var r := HangupStep(m, id).0;
    assert r.queries.Keys == m.queries.Keys;
    if !Busy(m, id) && id in m.ready { WithdrawnHeld(m, r, id); }
    hide Held;
  }

  lemma WithdrawnHeld(m: Master, r: Master, id: Id)
    requires id in m.ready && r.ready == Remove(m.ready, id) && r.done == m.done + [id]
    requires r.arrived == m.arrived && r.executing == m.executing && r.evicted == m.evicted
    ensures Held(r) == Held(m)
  {
    var rest := multiset(Remove(m.ready, id));
    assert multiset(m.ready) == rest + multiset{id};
    assert multiset(r.done) == multiset(m.done) + multiset{id};
    Regroup(multiset(m.arrived), rest, multiset(m.executing), multiset(m.evicted), multiset(m.done), id);
  }

  lemma Cancel(a: multiset<Id>, b: multiset<Id>, x: multiset<Id>)
    requires a + x == b + x
    ensures a == b
  {
    forall q ensures a[q] == b[q] {
      assert (a + x)[q] == (b + x)[q];
    }
  }

  lemma ReleaseShelved(st: Setup, m: Master)
    requires Inv(st, m) && m.semExit > 0 && m.done != []
    ensures Shelved(Step(st, m, Release).0)
  {
    SplitFirst(m.done);
    var id := m.done[0];
    Exclusive(m, id);
    var r := Step(st, m, Release).0;
    assert Held(m) == Held(r) + multiset{id};
    assert r.queries.Keys == m.queries.Keys - {id};
    assert multiset(m.queries.Keys) == multiset(r.queries.Keys) + multiset{id};
    Cancel(Held(r), multiset(r.queries.Keys), multiset{id});
  }

  lemma AnswerShelved(m: Master, w: WorkerId, reply: Reply)
    requires Shelved(m) && Paired(m) && w in m.workers && m.workers[w] >= 0 && m.workers[w] in m.queries
    ensures Shelved(AnswerStep(m, w, reply))
  {
    hide Shelved, Remove;
    var r := AnswerStep(m, w, reply);
    assert r.queries.Keys == m.queries.Keys;
    if reply.ReadResult? { ShelvedSame(m, r); } else { LeaveExecuting(m, r, m.workers[w] as Id); }
  }

  lemma ShelvedSame(m: Master, r: Master)
    requires Shelved(m) && r.queries.Keys == m.queries.Keys && r.next == m.next
    requires r.arrived == m.arrived && r.executing == m.executing && r.evicted == m.evicted && r.done == m.done
    requires multiset(r.ready) == multiset(m.ready)
    ensures Shelved(r)
  {
    assert Held(r) == Held(m);
    hide Held;
  }

  lemma TickShelved(st: Setup, m: Master, id: Id, order: seq<Id>)
    requires Shelved(m) && Stored(m) && Allowed(st, m, Tick(id, order)) && !Faults(st, m, Tick(id, order))
    ensures Shelved(Step(st, m, Tick(id, order)).0)
  {
    TickKeeps(st, m, id, order);
    assert multiset(order) == multiset(m.ready);
    hide Step, Shelved, Allowed, Faults;
    ShelvedSame(m, Step(st, m, Tick(id, order)).0);
  }

  lemma StepShelved(st: Setup, m: Master, e: Event)
    requires Inv(st, m) && Allowed(st, m, e) && !Faults(st, m, e)
    ensures Shelved(Step(st, m, e).0)
  {
    assert Shelved(m) by { InvShelved(st, m); }
    hide Conserved, Shelved, Ranked, Paired, Tokens, Sorted, AnswerStep, HangupStep, ReadyStep, DispatchStep, Remove, Insert, Preempt, Ages, Displaced;
    match e {
      case MakeReady(at) => ReadyShelved(st, m, at);
      case Dispatch(w, at) => DispatchShelved(st, m, w, at);
      case Answer(w, reply) => AnswerShelved(m, w, reply);
      case Hangup(id) => HangupShelved(m, id);
      case Tick(id, order) => TickShelved(st, m, id, order);
      case Release => ReleaseShelved(st, m);
      case _ => OtherShelved(st, m, e);
    }
  }

  lemma OtherShelved(st: Setup, m: Master, e: Event)
    requires Stored(m) && Shelved(m) && Allowed(st, m, e) && !Faults(st, m, e) && Paired(m)
    requires e.Arrive? || e.Connect? || e.LoseWorker? || e.StopAging?
    ensures Shelved(Step(st, m, e).0)
  {
    hide Conserved, Shelved, Remove, Ages;
    match e {
      case Arrive(_) => ArriveShelved(m, Step(st, m, e).0);
      case Connect(_) => ShelvedSame(m, Step(st, m, e).0);
      case LoseWorker(w) => LeaveExecuting(m, Step(st, m, e).0, m.workers[w] as Id);
      case StopAging(id) => ShelvedSame(m, Step(st, m, e).0);
      case _ =>
    }
  }

  lemma InvShelved(st: Setup, m: Master)
    requires Inv(st, m)
    ensures Shelved(m)
  {
  }
}
