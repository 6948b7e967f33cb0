/** The master's query scheduler as a step machine over its queues, lists, semaphores and workers. */
module Scheduler {
  import opened Common

  type Id = nat
  type WorkerId = nat

  datatype Algorithm = Fifo | Priorities

  /** The action code of a query. */
  datatype Status = Created | Waiting | Running | Evicting | Finished

  datatype Query = Query(priority: int, pc: int, action: Status, disconnected: bool, aging: bool)

  datatype Setup = Setup(algorithm: Algorithm, ages: bool)

  /**
   `idle` workers carry -1, the others the query they run. `strays` counts the
   queries removed from Ready by a disconnection and `started` lists the
   dispatched queries: both only record history.
   */
  datatype Master = Master(
    next: Id,
    queries: map<Id, Query>,
    arrived: seq<Id>,
    ready: seq<Id>,
    executing: seq<Id>,
    evicted: seq<Id>,
    done: seq<Id>,
    workers: map<WorkerId, int>,
    semWaiting: nat,
    semReady: nat,
    semExit: nat,
    strays: nat,
    started: seq<Id>)

  /** What a worker answers about the query it runs. */
  datatype Reply = WasEvicted(pc: int) | ReadResult | HasFinished

  datatype Event =
    | Arrive(priority: int)
    | Connect(worker: WorkerId)
    | MakeReady(at: nat)
    | Dispatch(worker: WorkerId, at: nat)
    | Answer(worker: WorkerId, reply: Reply)
    | LoseWorker(worker: WorkerId)
    | Hangup(id: Id)
    | Tick(id: Id, order: seq<Id>)
    | StopAging(id: Id)
    | Release

  /** A message to a worker. */
  datatype Order = Launch(worker: WorkerId, id: Id, pc: int) | Evict(worker: WorkerId, id: Id)

  const START := Master(0, map[], [], [], [], [], [], map[], 0, 0, 0, 0, [])

  // -------------------------------------------------------------------- lists

  function Remove(s: seq<Id>, id: Id): (r: seq<Id>)
    ensures multiset(r) == multiset(s) - multiset{id}
  {
    if s == [] then []
    else if s[0] == id then
      assert s == [s[0]] + s[1..];
      s[1..]
    else
      assert s == [s[0]] + s[1..];
      [s[0]] + Remove(s[1..], id)
  }

  function Insert(s: seq<Id>, at: nat, id: Id): (r: seq<Id>)
    requires at <= |s|
    ensures multiset(r) == multiset(s) + multiset{id}
  {
    assert s == s[..at] + s[at..];
    s[..at] + [id] + s[at..]
  }

  ghost predicate Known(m: Master, s: seq<Id>) {
    forall i :: 0 <= i < |s| ==> s[i] in m.queries
  }

  /** Sorted by priority, the lowest number first. */
  ghost predicate Sorted(queries: map<Id, Query>, s: seq<Id>)
    requires forall i :: 0 <= i < |s| ==> s[i] in queries
  {
    forall i, j :: 0 <= i < j < |s| ==> queries[s[i]].priority <= queries[s[j]].priority
  }

  /** Where a list takes a new element: at the end, or where it stays sorted; ties go anywhere. */
  ghost predicate Place(st: Setup, queries: map<Id, Query>, s: seq<Id>, at: nat, id: Id)
    requires id in queries && forall i :: 0 <= i < |s| ==> s[i] in queries
  {
    && at <= |s|
    && if st.algorithm == Fifo then at == |s| else Sorted(queries, Insert(s, at, id))
  }

  // ------------------------------------------------------------------ helpers

  ghost predicate WorkerOf(m: Master, id: Id, w: WorkerId) {
    w in m.workers && m.workers[w] == id
  }

  predicate Busy(m: Master, id: Id) {
    exists w :: w in m.workers && m.workers[w] == id
  }

  predicate AllBusy(m: Master) {
    forall w :: w in m.workers ==> m.workers[w] >= 0
  }

  function SetAction(m: Master, id: Id, action: Status): Master
    requires id in m.queries
  {
    m.(queries := m.queries[id := m.queries[id].(action := action)])
  }

  /** The running query that `id` may displace: the last of Execute, when every worker is busy and `id` is strictly better. */
  function Displaced(st: Setup, m: Master, id: Id): (r: Option<Id>)
    requires id in m.queries && forall i :: 0 <= i < |m.executing| ==> m.executing[i] in m.queries
    ensures r.Some? ==> r.value in m.queries
  {
    if st.algorithm == Priorities && |m.executing| > 0 && AllBusy(m)
       && m.queries[id].priority < m.queries[m.executing[|m.executing| - 1]].priority
    then Some(m.executing[|m.executing| - 1]) else None
  }

  /** The query the ready thread takes: evicted ones first. */
  function NextReady(m: Master): Id
    requires m.evicted != [] || m.arrived != []
  {
    if m.evicted != [] then m.evicted[0] else m.arrived[0]
  }

  function TakeNext(m: Master): Master
    requires m.evicted != [] || m.arrived != []
  {
    if m.evicted != [] then m.(evicted := m.evicted[1..]) else m.(arrived := m.arrived[1..])
  }

  // -------------------------------------------------------------------- steps

  /** Whether the aging thread of a query goes on. */
  predicate Ages(m: Master, id: Id)
    requires id in m.queries
  {
    && !m.queries[id].disconnected && m.queries[id].action != Finished
    && !Busy(m, id) && m.queries[id].priority > 0
  }

  ghost predicate Stored(m: Master) {
    Known(m, m.arrived) && Known(m, m.ready) && Known(m, m.executing) && Known(m, m.evicted) && Known(m, m.done)
  }

  /** The event can happen: tokens and participants are there, and the choices it carries are ones the lists allow. */
  ghost predicate Allowed(st: Setup, m: Master, e: Event)
    requires Stored(m)
  {
    match e
    case Arrive(_) => true
    case Connect(w) => w !in m.workers
    case MakeReady(at) =>
      m.semWaiting > 0 && (m.evicted != [] || m.arrived != [] ==> Place(st, m.queries, m.ready, at, NextReady(m)))
    case Dispatch(w, at) =>
      && m.semReady > 0 && w in m.workers && m.workers[w] == -1
      && (m.ready != [] ==> Place(st, m.queries, m.executing, at, m.ready[0]))
    case Answer(w, _) => w in m.workers && m.workers[w] >= 0
    case LoseWorker(w) => w in m.workers && m.workers[w] >= 0
    case Hangup(id) => id in m.queries && !m.queries[id].disconnected
    case Tick(id, order) =>
      && id in m.queries && m.queries[id].aging && Ages(m, id)
      && multiset(order) == multiset(m.ready)
      && (forall i :: 0 <= i < |order| ==> order[i] in m.queries)
      && Sorted(m.queries[id := m.queries[id].(priority := m.queries[id].priority - 1)], order)
    case StopAging(id) => id in m.queries && m.queries[id].aging && !Ages(m, id)
    case Release => m.semExit > 0
  }

  /** The event makes the code take an element from an empty list, or look for a worker that is not there. */
  ghost predicate Faults(st: Setup, m: Master, e: Event)
    requires Stored(m)
  {
    match e
    case MakeReady(_) =>
      if m.evicted == [] && m.arrived == [] then true
      else Displaced(st, m, NextReady(m)).Some? && !Busy(m, Displaced(st, m, NextReady(m)).value)
    case Tick(id, _) =>
      && id in m.queries
      && var aged := Aged(m, id); Displaced(st, aged, id).Some? && !Busy(m, Displaced(st, aged, id).value)
    case Dispatch(_, _) => m.ready == []
    case Answer(w, _) => w in m.workers && m.workers[w] >= 0 && m.workers[w] !in m.queries
    case LoseWorker(w) => w in m.workers && m.workers[w] >= 0 && m.workers[w] !in m.queries
    case Release => m.done == []
    case _ => false
  }

  function Aged(m: Master, id: Id): (r: Master)
    requires id in m.queries
  {
    m.(queries := m.queries[id := m.queries[id].(priority := m.queries[id].priority - 1)])
  }

  ghost function WorkerRunning(m: Master, id: Id): (w: WorkerId)
    requires Busy(m, id)
    ensures WorkerOf(m, id, w)
  {
    var w :| w in m.workers && m.workers[w] == id; w
  }

  /** Asks the worker of the displaced query, if any, to evict it. */
  ghost function Preempt(st: Setup, m: Master, id: Id): (r: (Master, seq<Order>))
    requires id in m.queries && Known(m, m.executing)
    requires Displaced(st, m, id).Some? ==> Busy(m, Displaced(st, m, id).value)
  {
    match Displaced(st, m, id)
    case None => (m, [])
    case Some(victim) => (SetAction(m, victim, Evicting), [Evict(WorkerRunning(m, victim), victim)])
  }

  /** A query leaves the scheduler by way of Exit. */
  function Finish(m: Master, id: Id): Master
    requires id in m.queries
  {
    SetAction(m, id, Finished).(done := m.done + [id], semExit := m.semExit + 1)
  }

  /** The query goes from its queue to its place in Ready. */
  function Enter(m: Master, at: nat): Master
    requires (m.evicted != [] || m.arrived != []) && NextReady(m) in m.queries && at <= |m.ready| && m.semWaiting > 0
  {
    SetAction(TakeNext(m), NextReady(m), Waiting).(
      ready := Insert(m.ready, at, NextReady(m)), semWaiting := m.semWaiting - 1)
  }

  /** Then it may displace a running query, its aging starts, and Ready gets a token. */
  ghost function Settle(st: Setup, m: Master, id: Id): (r: (Master, seq<Order>))
    requires id in m.queries && Known(m, m.executing)
    requires Displaced(st, m, id).Some? ==> Busy(m, Displaced(st, m, id).value)
  {
    var (asked, orders) := Preempt(st, m, id);
    var q := asked.queries[id];
    var ages := q.aging || (st.ages && st.algorithm == Priorities);
    (asked.(queries := asked.queries[id := q.(aging := ages)], semReady := m.semReady + 1), orders)
  }

  ghost function ReadyStep(st: Setup, m: Master, at: nat): (r: (Master, seq<Order>))
    requires Stored(m) && Allowed(st, m, MakeReady(at)) && !Faults(st, m, MakeReady(at))
  {
    Settle(st, Enter(m, at), NextReady(m))
  }

  function DispatchStep(m: Master, w: WorkerId, at: nat): (r: (Master, seq<Order>))
    requires m.ready != [] && m.ready[0] in m.queries && at <= |m.executing| && m.semReady > 0
  {
    var id := m.ready[0];
    (SetAction(m, id, Running).(
       ready := m.ready[1..], executing := Insert(m.executing, at, id),
       workers := m.workers[w := id], semReady := m.semReady - 1, started := m.started + [id]),
     [Launch(w, id, m.queries[id].pc)])
  }

  /** An evicted query leaves Execute with its new program counter: back to wait, or out if its client is gone. */
  function TakeBack(m: Master, id: Id, pc: int): Master
    requires id in m.queries
  {
    var rest, q := Remove(m.executing, id), m.queries[id].(pc := pc);
    if q.disconnected then
      m.(executing := rest, queries := m.queries[id := q.(action := Finished)],
         done := m.done + [id], semExit := m.semExit + 1)
    else
      m.(executing := rest, queries := m.queries[id := q.(action := Waiting)],
         evicted := m.evicted + [id], semWaiting := m.semWaiting + 1)
  }

  function AnswerStep(m: Master, w: WorkerId, reply: Reply): (r: Master)
    requires w in m.workers && m.workers[w] >= 0 && m.workers[w] in m.queries
  {
    var id := m.workers[w] as Id;
    match reply
    case ReadResult => SetAction(m, id, Running)
    case HasFinished => Finish(m.(executing := Remove(m.executing, id), workers := m.workers[w := -1]), id)
    case WasEvicted(pc) => TakeBack(m, id, pc).(workers := m.workers[w := -1])
  }

  function LossStep(m: Master, w: WorkerId): (r: Master)
    requires w in m.workers && m.workers[w] >= 0 && m.workers[w] in m.queries
  {
    var id := m.workers[w] as Id;
    Finish(m.(executing := Remove(m.executing, id), workers := m.workers - {w}), id)
  }

  ghost function HangupStep(m: Master, id: Id): (r: (Master, seq<Order>))
    requires id in m.queries
  {
    var gone := m.queries[id].(disconnected := true);
    if Busy(m, id) then
      (m.(queries := m.queries[id := gone.(action := Evicting)]), [Evict(WorkerRunning(m, id), id)])
    else if id in m.ready then
      (m.(queries := m.queries[id := gone.(action := Finished)], ready := Remove(m.ready, id),
          done := m.done + [id], semExit := m.semExit + 1, strays := m.strays + 1), [])
    else (m, [])
  }

  /** One atomic step, with the messages it sends to workers. */
  ghost function Step(st: Setup, m: Master, e: Event): (r: (Master, seq<Order>))
    requires Stored(m) && Allowed(st, m, e) && !Faults(st, m, e)
  {
    match e
    case Arrive(priority) =>
      (m.(next := m.next + 1, queries := m.queries[m.next := Query(priority, 0, Created, false, false)],
          arrived := m.arrived + [m.next], semWaiting := m.semWaiting + 1), [])
    case Connect(w) => (m.(workers := m.workers[w := -1]), [])
    case MakeReady(at) => ReadyStep(st, m, at)
    case Dispatch(w, at) => DispatchStep(m, w, at)
    case Answer(w, reply) => (AnswerStep(m, w, reply), [])
    case LoseWorker(w) => (LossStep(m, w), [])
    case Hangup(id) => HangupStep(m, id)
    case Tick(id, order) =>
      Preempt(st, Aged(m, id).(ready := order), id)
    case StopAging(id) => (m.(queries := m.queries[id := m.queries[id].(aging := false)]), [])
    case Release =>
      (m.(done := m.done[1..], queries := m.queries - {m.done[0]}, semExit := m.semExit - 1), [])
  }
}
