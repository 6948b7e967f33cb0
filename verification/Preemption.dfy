/** Master and workers joined by their channels: how a query's program counter travels across preemptions. */
module Preemption {
  import opened Common
  import opened Scheduler

  /** What matters of a line of a query script. */
  datatype Line = Read | Other | End

  /** What the interpreter holds: a query and the line it is at. */
  datatype Task = Task(id: Id, pc: int)

  /** A worker: what the master sent and it has not read, what it sent and the master has not read, its task, its flag. */
  datatype Station = Station(inbox: seq<Order>, outbox: seq<Reply>, current: Option<Task>, interrupted: bool)

  /** `log` records, query by query, the indices of the lines that workers executed. */
  datatype System = System(master: Master, stations: map<WorkerId, Station>, log: map<Id, seq<int>>)

  datatype Move =
    | Plan(e: Event)
    | Receive(at: WorkerId)
    | Execute(at: WorkerId, ok: bool, flushed: bool)

  const DESK := Station([], [], None, false)
  const ORIGIN := System(START, map[], map[])

  // ------------------------------------------------------------------- worker

  /** The listening thread takes one message. */
  function Hear(d: Station): Station
    requires d.inbox != []
  {
    match d.inbox[0]
    case Launch(_, id, pc) => d.(inbox := d.inbox[1..], current := Some(Task(id, pc)))
    case Evict(_, _) => d.(inbox := d.inbox[1..], interrupted := true)
  }

  predicate HasLine(script: seq<Line>, pc: int) {
    0 <= pc < |script|
  }

  /** An interrupt taken right after END finds no query to give back, and the code dereferences it. */
  predicate Crashes(script: seq<Line>, d: Station, ok: bool) {
    d.current.Some? && HasLine(script, d.current.value.pc) && ok && script[d.current.value.pc].End? && d.interrupted
  }

  /** Goes on with the next line, if there is one. */
  function Advance(script: seq<Line>, d: Station): Station
    requires d.current.Some?
  {
    var task := d.current.value;
    d.(current := if HasLine(script, task.pc + 1) then Some(task.(pc := task.pc + 1)) else None)
  }

  /**
   One turn of the interpreter loop: fetch, execute, look for an interrupt.
   `ok` says whether the instruction succeeds and `flushed` whether writing the
   memory back before an eviction does.
   */
  function Turn(script: seq<Line>, d: Station, ok: bool, flushed: bool): Station
    requires d.current.Some? && !Crashes(script, d, ok)
  {
    var pc := d.current.value.pc;
    if !HasLine(script, pc) then d.(current := None)
    else if !ok then d.(current := None, outbox := d.outbox + [HasFinished])
    else if script[pc].End? then Advance(script, d.(outbox := d.outbox + [HasFinished]))
    else
      var said := if script[pc].Read? then d.outbox + [ReadResult] else d.outbox;
      if d.interrupted then
        d.(current := None, interrupted := false,
           outbox := said + [if flushed then WasEvicted(pc + 1) else HasFinished])
      else Advance(script, d.(outbox := said))
  }

  /** The lines the turn executes. */
  function Ran(script: seq<Line>, d: Station): seq<int>
    requires d.current.Some?
  {
    if HasLine(script, d.current.value.pc) then [d.current.value.pc] else []
  }

  // ------------------------------------------------------------------- system

  /** Messages reach the inbox of the worker they name, in order. */
  function Deliver(stations: map<WorkerId, Station>, orders: seq<Order>): map<WorkerId, Station> {
    if orders == [] || orders[0].worker !in stations then stations
    else
      var d := stations[orders[0].worker];
      Deliver(stations[orders[0].worker := d.(inbox := d.inbox + [orders[0]])], orders[1..])
  }

  /** The master acts on an answer only when it is the next one that worker sent. */
  ghost predicate CanPlan(st: Setup, s: System, e: Event) {
    && Stored(s.master) && Allowed(st, s.master, e) && !Faults(st, s.master, e)
    && (e.Answer? ==> e.worker in s.stations && s.stations[e.worker].outbox != [] && s.stations[e.worker].outbox[0] == e.reply)
  }

  ghost predicate Can(st: Setup, scripts: Id -> seq<Line>, s: System, a: Move) {
    match a
    case Plan(e) => CanPlan(st, s, e)
    case Receive(w) => w in s.stations && s.stations[w].inbox != []
    case Execute(w, ok, _) =>
      && w in s.stations && s.stations[w].current.Some? && s.stations[w].current.value.id in s.log
      && !Crashes(scripts(s.stations[w].current.value.id), s.stations[w], ok)
  }

  ghost function PlanStep(st: Setup, s: System, e: Event): System
    requires CanPlan(st, s, e)
  {
    var (m, orders) := Step(st, s.master, e);
    var stations :=
      match e
      case Connect(w) => s.stations[w := DESK]
      case LoseWorker(w) => s.stations - {w}
      case Answer(w, _) => s.stations[w := s.stations[w].(outbox := s.stations[w].outbox[1..])]
      case _ => Deliver(s.stations, orders);
    var log := if e.Arrive? then s.log[s.master.next := []] else s.log;
    System(m, stations, log)
  }

  ghost function SystemStep(st: Setup, scripts: Id -> seq<Line>, s: System, a: Move): System
    requires Can(st, scripts, s, a)
  {
    match a
    case Plan(e) => PlanStep(st, s, e)
    case Receive(w) => s.(stations := s.stations[w := Hear(s.stations[w])])
    case Execute(w, ok, flushed) =>
      var d := s.stations[w];
      var id := d.current.value.id;
      s.(stations := s.stations[w := Turn(scripts(id), d, ok, flushed)],
         log := s.log[id := s.log[id] + Ran(scripts(id), d)])
  }

  /** Every move can happen in its turn. */
  ghost predicate Feasible(st: Setup, scripts: Id -> seq<Line>, s: System, moves: seq<Move>)
    decreases |moves|
  {
    moves == [] ||
    (Can(st, scripts, s, moves[0]) && Feasible(st, scripts, SystemStep(st, scripts, s, moves[0]), moves[1..]))
  }

  ghost function Outcome(st: Setup, scripts: Id -> seq<Line>, s: System, moves: seq<Move>): System
    requires Feasible(st, scripts, s, moves)
    decreases |moves|
  {
    if moves == [] then s else Outcome(st, scripts, SystemStep(st, scripts, s, moves[0]), moves[1..])
  }
}
