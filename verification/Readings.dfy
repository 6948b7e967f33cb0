/** What READ lines answer: one result each, which reaches the master, is on its way, or is lost with its worker. */
module Readings {
  import opened Common
  import opened Scheduler
  import opened SchedulerInvariant
  import opened SchedulerRuns
  import opened Preemption
  import opened PreemptionInvariant
  import opened PreemptionRuns
  import opened FifoSystem

  /** How many of the answers are results of READ lines. */
  function Reads(answers: seq<Reply>): nat {
    if answers == [] then 0 else (if answers[0].ReadResult? then 1 else 0) + Reads(answers[1..])
  }

  lemma {:induction false} ReadsAppend(a: seq<Reply>, b: seq<Reply>)
    ensures Reads(a + b) == Reads(a) + Reads(b)
    decreases |a|
  {
    if a == [] {
      assert a + b == b;
    } else {
      assert (a + b)[0] == a[0] && (a + b)[1..] == a[1..] + b;
      ReadsAppend(a[1..], b);
    }
  }

  lemma ReadsOne(x: Reply)
    ensures Reads([x]) == if x.ReadResult? then 1 else 0
  {
    assert [x][1..] == [];
  }

  // ------------------------------------------------------------------ one line

  /** The line the turn is at. */
  predicate IsAt(script: seq<Line>, d: Station, line: Line) {
    d.current.Some? && HasLine(script, d.current.value.pc) && script[d.current.value.pc] == line
  }

  /** The answer that ends the worker's hold on the query: at the end, at a failure, or at an eviction, which names the next line. */
  ghost predicate LastAnswer(script: seq<Line>, d: Station, ok: bool, flushed: bool, last: Reply)
    requires d.current.Some?
  {
    if ok && !IsAt(script, d, End) && flushed then last == WasEvicted(d.current.value.pc + 1) else last == HasFinished
  }

  /**
   Unless it meets an interrupt at an END that succeeds, a turn goes through. It answers
   one result exactly when it is at a READ that succeeds, and before anything else. It
   then ends the hold on the query exactly when the line fails, is END, or meets an
   interrupt, which is used up.
   */
  lemma TurnAnswers(script: seq<Line>, d: Station, ok: bool, flushed: bool)
    requires d.current.Some? && !(ok && IsAt(script, d, End) && d.interrupted)
    ensures !Crashes(script, d, ok)
    ensures var r := Turn(script, d, ok, flushed); var runs := HasLine(script, d.current.value.pc);
            var ends := runs && (!ok || IsAt(script, d, End) || d.interrupted);
            && r.inbox == d.inbox && d.outbox <= r.outbox
            && var said := r.outbox[|d.outbox|..];
               && Reads(said) == (if ok && IsAt(script, d, Read) then 1 else 0)
               && |said| == Reads(said) + (if ends then 1 else 0)
               && (forall i :: 0 <= i < Reads(said) ==> said[i].ReadResult?)
               && (ends ==> LastAnswer(script, d, ok, flushed, said[|said| - 1]))
               && (ends && !IsAt(script, d, End) ==> r.current.None?)
               && r.interrupted == (d.interrupted && !(runs && ok && !IsAt(script, d, End)))
  {
    var r := Turn(script, d, ok, flushed);
    var said := r.outbox[|d.outbox|..];
    if |said| == 2 {
      assert said == [said[0]] + [said[1]];
      ReadsAppend([said[0]], [said[1]]);
      ReadsOne(said[0]);
      ReadsOne(said[1]);
    } else if |said| == 1 {
      assert said == [said[0]];
      ReadsOne(said[0]);
    }
  }

  /**
   An interrupt read while a line is to be executed is obeyed right after that line,
   unless it is END: the worker lets go of the query, naming the next line when the
   line succeeds and the memory is written back. A launch takes the query at the line
   it names and leaves a pending interrupt pending.
   */
  lemma MessagesObeyed(script: seq<Line>, d: Station, ok: bool, flushed: bool)
    requires d.inbox != []
    ensures var h := Hear(d);
            && h.inbox == d.inbox[1..] && h.outbox == d.outbox
            && (d.inbox[0].Launch? ==> h.current == Some(Task(d.inbox[0].id, d.inbox[0].pc)) && h.interrupted == d.interrupted)
            && (d.inbox[0].Evict? && d.current.Some? && HasLine(script, d.current.value.pc) && !IsAt(script, d, End) ==>
                  && h.current == d.current && !Crashes(script, h, ok)
                  && var r := Turn(script, h, ok, flushed);
                     && r.current.None? && (ok ==> !r.interrupted) && |r.outbox| > |d.outbox|
                     && LastAnswer(script, d, ok, flushed, r.outbox[|r.outbox| - 1]))
  {
    var h := Hear(d);
    if d.inbox[0].Evict? && d.current.Some? && HasLine(script, d.current.value.pc) && !IsAt(script, d, End) {
      assert h.current == d.current && h.outbox == d.outbox && h.interrupted;
      TurnAnswers(script, h, ok, flushed);
      var r := Turn(script, h, ok, flushed);
      var said := r.outbox[|h.outbox|..];
      hide Turn, Reads;
      assert said[|said| - 1] == r.outbox[|r.outbox| - 1];
    }
  }

  // ------------------------------------------------------------------ where a result is

  /** Results of the query that its worker sent and the master has not read. */
  ghost function InFlight(s: System, id: Id): nat {
    if Busy(s.master, id) && WorkerRunning(s.master, id) in s.stations
    then Reads(s.stations[WorkerRunning(s.master, id)].outbox) else 0
  }

  /** The move executes a READ of the query, and it succeeds. */
  ghost predicate ReadDone(scripts: Id -> seq<Line>, s: System, a: Move, id: Id) {
    && a.Execute? && a.ok && a.at in s.stations && IsAt(scripts(id), s.stations[a.at], Read)
    && s.stations[a.at].current.value.id == id
  }

  /** The move takes a result of the query to its client. */
  ghost predicate ReadTaken(s: System, a: Move, id: Id) {
    a.Plan? && a.e.Answer? && a.e.reply.ReadResult? && WorkerOf(s.master, id, a.e.worker)
  }

  /** The results that go with a worker that is lost. */
  ghost function ReadsLost(s: System, a: Move, id: Id): nat {
    if a.Plan? && a.e.LoseWorker? && WorkerOf(s.master, id, a.e.worker) then InFlight(s, id) else 0
  }

  lemma InFlightAt(s: System, id: Id, w: WorkerId)
    requires Paired(s.master) && WorkerOf(s.master, id, w) && w in s.stations
    ensures InFlight(s, id) == Reads(s.stations[w].outbox)
  {
    assert Busy(s.master, id);
    assert WorkerRunning(s.master, id) == w;
  }

  lemma NoneInFlight(s: System, id: Id)
    requires forall w :: WorkerOf(s.master, id, w) && w in s.stations ==> Reads(s.stations[w].outbox) == 0
    ensures InFlight(s, id) == 0
  {
  }

  lemma BusyMeans(m: Master, id: Id)
    ensures Busy(m, id) <==> exists w :: WorkerOf(m, id, w)
  {
    if Busy(m, id) { assert WorkerOf(m, id, WorkerRunning(m, id)); }
    if w :| WorkerOf(m, id, w) { assert m.workers[w] == id; }
  }

  /** Nothing of the query's worker and its answers changes. */
  lemma SameInFlight(s: System, t: System, id: Id)
    requires Paired(s.master) && Paired(t.master)
    requires forall w :: WorkerOf(s.master, id, w) <==> WorkerOf(t.master, id, w)
    requires forall w :: WorkerOf(s.master, id, w) ==> (w in s.stations <==> w in t.stations)
    requires forall w :: WorkerOf(s.master, id, w) && w in s.stations ==> Reads(t.stations[w].outbox) == Reads(s.stations[w].outbox)
    ensures InFlight(s, id) == InFlight(t, id)
  {
    BusyMeans(s.master, id);
    BusyMeans(t.master, id);
    if Busy(s.master, id) {
      var w := WorkerRunning(s.master, id);
      assert WorkerOf(t.master, id, w);
      assert WorkerRunning(t.master, id) == w;
    }
  }

  // ------------------------------------------------------------------ steps

  function One(b: bool): nat { if b then 1 else 0 }

  /** What a move does to the results of a query. */
  ghost predicate Balanced(scripts: Id -> seq<Line>, s: System, a: Move, t: System, id: Id) {
    InFlight(t, id) + One(ReadTaken(s, a, id)) + ReadsLost(s, a, id) == InFlight(s, id) + One(ReadDone(scripts, s, a, id))
  }

  lemma SteadyParts(st: Setup, scripts: Id -> seq<Line>, s: System)
    requires Steady(st, scripts, s)
    ensures Paired(s.master) && s.stations.Keys == s.master.workers.Keys
    ensures forall w :: w in s.stations ==> w in s.master.workers && StationOk(scripts, s, w)
  {
  }

  lemma ExecuteBalanced(st: Setup, scripts: Id -> seq<Line>, s: System, w: WorkerId, ok: bool, flushed: bool, id: Id)
    requires Steady(st, scripts, s) && Can(st, scripts, s, Execute(w, ok, flushed)) && forall q: Id :: WellEnded(scripts(q))
    ensures Balanced(scripts, s, Execute(w, ok, flushed), SystemStep(st, scripts, s, Execute(w, ok, flushed)), id)
  {
    hide Steady, Turn, Paired, SystemStep, Can, Crashes, WellEnded, StationOk, InFlight, Reads, IsAt, Balanced;
    ExecuteParts(st, scripts, s, w, ok, flushed);
    var t, q := SystemStep(st, scripts, s, Execute(w, ok, flushed)), s.stations[w].current.value.id;
    ExecuteReads(scripts, s, t, w, ok, flushed);
    if id == q {
      InFlightAt(s, id, w);
      InFlightAt(t, id, w);
    } else {
      OthersSend(s, t, id, w);
      SameInFlight(s, t, id);
    }
    ExecuteBalancedIf(scripts, s, t, w, ok, flushed, id);
  }

  lemma ExecuteParts(st: Setup, scripts: Id -> seq<Line>, s: System, w: WorkerId, ok: bool, flushed: bool)
    requires Steady(st, scripts, s) && Can(st, scripts, s, Execute(w, ok, flushed)) && forall q: Id :: WellEnded(scripts(q))
    ensures Paired(s.master) && w in s.stations && s.stations[w].current.Some?
    ensures WorkerOf(s.master, s.stations[w].current.value.id, w) && !Crashes(scripts(s.stations[w].current.value.id), s.stations[w], ok)
    ensures var t := SystemStep(st, scripts, s, Execute(w, ok, flushed));
            && t.master == s.master
            && t.stations == s.stations[w := Turn(scripts(s.stations[w].current.value.id), s.stations[w], ok, flushed)]
  {
    TurnOk(st, scripts, s, w, ok, flushed);
    SteadyParts(st, scripts, s);
    hide Steady, Turn, Paired, Crashes, WellEnded, StationOk;
  }

  lemma OthersSend(s: System, t: System, id: Id, w: WorkerId)
    requires w in s.stations && t.master == s.master && t.stations.Keys == s.stations.Keys && t.stations == s.stations[w := t.stations[w]]
    requires !WorkerOf(s.master, id, w)
    ensures forall v :: WorkerOf(s.master, id, v) && v in s.stations ==> Reads(t.stations[v].outbox) == Reads(s.stations[v].outbox)
  {
  }

  lemma ExecuteBalancedIf(scripts: Id -> seq<Line>, s: System, t: System, w: WorkerId, ok: bool, flushed: bool, id: Id)
    requires w in s.stations && s.stations[w].current.Some?
    requires var d := s.stations[w];
             InFlight(t, id) == InFlight(s, id) + One(id == d.current.value.id && ok && IsAt(scripts(d.current.value.id), d, Read))
    ensures Balanced(scripts, s, Execute(w, ok, flushed), t, id)
  {
    hide InFlight, IsAt;
  }

  /** The line executed adds one result to the worker's answers, or none. */
  lemma ExecuteReads(scripts: Id -> seq<Line>, s: System, t: System, w: WorkerId, ok: bool, flushed: bool)
    requires w in s.stations && s.stations[w].current.Some? && !Crashes(scripts(s.stations[w].current.value.id), s.stations[w], ok)
    requires t.stations == s.stations[w := Turn(scripts(s.stations[w].current.value.id), s.stations[w], ok, flushed)]
    ensures var d := s.stations[w];
            Reads(t.stations[w].outbox) == Reads(d.outbox) + One(ok && IsAt(scripts(d.current.value.id), d, Read))
  {
    var d := s.stations[w];
    TurnAnswers(scripts(d.current.value.id), d, ok, flushed);
    hide Turn, Reads, IsAt, Crashes;
    var out := t.stations[w].outbox;
    assert out == d.outbox + out[|d.outbox|..];
    ReadsAppend(d.outbox, out[|d.outbox|..]);
  }

  lemma ReceiveBalanced(st: Setup, scripts: Id -> seq<Line>, s: System, w: WorkerId, id: Id)
    requires Steady(st, scripts, s) && Can(st, scripts, s, Receive(w))
    ensures Balanced(scripts, s, Receive(w), SystemStep(st, scripts, s, Receive(w)), id)
  {
    SteadyParts(st, scripts, s);
    hide Steady, Paired, StationOk, InFlight, Reads;
    SameInFlight(s, SystemStep(st, scripts, s, Receive(w)), id);
  }

  /** An event that leaves workers and answers alone. */
  lemma CalmBalanced(st: Setup, scripts: Id -> seq<Line>, s: System, e: Event, id: Id)
    requires Steady(st, scripts, s) && CanPlan(st, s, e) && Calm(e)
    ensures Balanced(scripts, s, Plan(e), PlanStep(st, s, e), id)
  {
    var t := PlanStep(st, s, e);
    SteadyParts(st, scripts, s);
    CalmStep(st, s.master, e);
    StepPaired(st, s.master, e);
    CalmPlan(st, s, e);
    DeliverOutbox(s.stations, Step(st, s.master, e).1);
    hide Steady, Paired, StationOk, InFlight, Reads, Step, Allowed, Faults, Inv, CanPlan, PlanStep, Deliver;
    SameInFlight(s, t, id);
  }

  lemma ConnectBalanced(st: Setup, scripts: Id -> seq<Line>, s: System, w: WorkerId, id: Id)
    requires Steady(st, scripts, s) && CanPlan(st, s, Connect(w))
    ensures Balanced(scripts, s, Plan(Connect(w)), PlanStep(st, s, Connect(w)), id)
  {
    ConnectParts(st, scripts, s, w);
    hide Steady, Paired, InFlight, Reads, CanPlan, PlanStep;
    SameInFlight(s, PlanStep(st, s, Connect(w)), id);
  }

  lemma ConnectParts(st: Setup, scripts: Id -> seq<Line>, s: System, w: WorkerId)
    requires Steady(st, scripts, s) && CanPlan(st, s, Connect(w))
    ensures var t := PlanStep(st, s, Connect(w));
            && Paired(s.master) && Paired(t.master) && w !in s.master.workers
            && t.master.workers == s.master.workers[w := -1] && t.stations == s.stations[w := DESK]
  {
    SteadyParts(st, scripts, s);
    StepPaired(st, s.master, Connect(w));
    hide Steady, Paired, StationOk, Inv;
  }

  lemma DispatchBalanced(st: Setup, scripts: Id -> seq<Line>, s: System, w: WorkerId, at: nat, id: Id)
    requires Steady(st, scripts, s) && CanPlan(st, s, Dispatch(w, at))
    ensures Balanced(scripts, s, Plan(Dispatch(w, at)), PlanStep(st, s, Dispatch(w, at)), id)
  {
    var t := PlanStep(st, s, Dispatch(w, at));
    DispatchPlan(st, s, w, at);
    var taken := s.master.ready[0];
    DispatchFacts(st, scripts, s, t, w, at, taken);
    hide *;
    NoneRuns(s, taken);
    NoReads();
    if id == taken {
      NoneInFlight(s, id);
      InFlightAt(t, id, w);
    } else {
      SameInFlight(s, t, id);
    }
    BalancedIf(scripts, s, Plan(Dispatch(w, at)), t, id);
  }

  lemma NoneRuns(s: System, id: Id)
    requires !Busy(s.master, id)
    ensures forall w :: !WorkerOf(s.master, id, w)
  {
  }

  /** An event of the master that takes no answer and loses no worker. */
  lemma BalancedIf(scripts: Id -> seq<Line>, s: System, a: Move, t: System, id: Id)
    requires a.Plan? && !a.e.Answer? && !a.e.LoseWorker? && InFlight(t, id) == InFlight(s, id)
    ensures Balanced(scripts, s, a, t, id)
  {
  }

  /** The worker that gets a query had no answer on its way, and nobody ran the query. */
  lemma DispatchFacts(st: Setup, scripts: Id -> seq<Line>, s: System, t: System, w: WorkerId, at: nat, taken: Id)
    requires Steady(st, scripts, s) && CanPlan(st, s, Dispatch(w, at)) && t == PlanStep(st, s, Dispatch(w, at))
    requires s.master.ready != [] && taken == s.master.ready[0]
    ensures !Busy(s.master, taken) && Paired(s.master) && Paired(t.master)
    ensures WorkerOf(t.master, taken, w) && w in t.stations && t.stations[w].outbox == []
    ensures forall q, v :: q != taken ==> (WorkerOf(s.master, q, v) <==> WorkerOf(t.master, q, v))
    ensures t.stations.Keys == s.stations.Keys && forall v :: v in s.stations ==> t.stations[v].outbox == s.stations[v].outbox
  {
    var m, e := s.master, Dispatch(w, at);
    hide *;
    PlanParts(st, scripts, s, e);
    DispatchPlan(st, s, w, at);
    SteadyParts(st, scripts, s);
    SameWorkers(scripts, s, w);
    IdleOutbox(st, scripts, s, w);
    FirstIdle(st, m, taken);
    DispatchWorkers(m, w, at);
    StepPaired(st, m, e);
    DeliverOutbox(s.stations, DispatchStep(m, w, at).1);
    RunsOneMore(m, t.master, w, taken);
  }

  lemma FirstIdle(st: Setup, m: Master, taken: Id)
    requires Inv(st, m) && taken in m.ready
    ensures !Busy(m, taken)
  {
    Exclusive(m, taken);
    hide Conserved;
  }

  lemma RunsOneMore(m: Master, r: Master, w: WorkerId, taken: Id)
    requires w in m.workers && m.workers[w] == -1 && r.workers == m.workers[w := taken]
    ensures WorkerOf(r, taken, w)
    ensures forall q, v :: q != taken ==> (WorkerOf(m, q, v) <==> WorkerOf(r, q, v))
  {
  }

  lemma DispatchPlan(st: Setup, s: System, w: WorkerId, at: nat)
    requires CanPlan(st, s, Dispatch(w, at))
    ensures var m := s.master;
            && m.ready != [] && m.ready[0] in m.queries && at <= |m.executing| && m.semReady > 0 && w in m.workers && m.workers[w] == -1
            && Step(st, m, Dispatch(w, at)) == DispatchStep(m, w, at)
            && PlanStep(st, s, Dispatch(w, at)) == System(DispatchStep(m, w, at).0, Deliver(s.stations, DispatchStep(m, w, at).1), s.log)
  {
    hide DispatchStep, Deliver, Sorted;
  }

  lemma NoReads()
    ensures Reads([]) == 0
  {
  }

  /** The master takes the oldest answer of a worker. */
  lemma AnswerBalanced(st: Setup, scripts: Id -> seq<Line>, s: System, w: WorkerId, reply: Reply, id: Id)
    requires Steady(st, scripts, s) && CanPlan(st, s, Answer(w, reply))
    ensures Balanced(scripts, s, Plan(Answer(w, reply)), PlanStep(st, s, Answer(w, reply)), id)
  {
    var t := PlanStep(st, s, Answer(w, reply));
    AnswerPlan(st, s, w, reply);
    var q := s.master.workers[w] as Id;
    AnswerFacts(st, scripts, s, t, w, reply, q);
    TakenIs(s, w, reply, id);
    hide *;
    if id == q {
      InFlightAt(s, id, w);
      if reply.ReadResult? { InFlightAt(t, id, w); } else { NoneInFlight(t, id); }
    } else {
      SameInFlight(s, t, id);
    }
    BalancedAnswer(scripts, s, w, reply, t, id);
  }

  lemma TakenIs(s: System, w: WorkerId, reply: Reply, id: Id)
    ensures ReadTaken(s, Plan(Answer(w, reply)), id) <==> reply.ReadResult? && WorkerOf(s.master, id, w)
    ensures ReadsLost(s, Plan(Answer(w, reply)), id) == 0
  {
  }

  lemma BalancedAnswer(scripts: Id -> seq<Line>, s: System, w: WorkerId, reply: Reply, t: System, id: Id)
    requires InFlight(s, id) == InFlight(t, id) + One(reply.ReadResult? && WorkerOf(s.master, id, w))
    ensures Balanced(scripts, s, Plan(Answer(w, reply)), t, id)
  {
    hide InFlight;
  }

  /** A result goes on one by one; an answer that ends the hold was the only one left. */
  lemma AnswerFacts(st: Setup, scripts: Id -> seq<Line>, s: System, t: System, w: WorkerId, reply: Reply, q: Id)
    requires Steady(st, scripts, s) && CanPlan(st, s, Answer(w, reply)) && t == PlanStep(st, s, Answer(w, reply)) && WorkerOf(s.master, q, w)
    ensures Paired(s.master) && Paired(t.master) && WorkerOf(s.master, q, w)
    ensures w in s.stations && t.stations.Keys == s.stations.Keys && forall v :: v in s.stations && v != w ==> t.stations[v] == s.stations[v]
    ensures Reads(s.stations[w].outbox) == One(reply.ReadResult?) + Reads(t.stations[w].outbox)
    ensures forall p, v :: p != q ==> (WorkerOf(s.master, p, v) <==> WorkerOf(t.master, p, v))
    ensures forall p :: p != q ==> !WorkerOf(s.master, p, w)
    ensures reply.ReadResult? ==> WorkerOf(t.master, q, w)
    ensures !reply.ReadResult? ==> Reads(t.stations[w].outbox) == 0
    ensures !reply.ReadResult? ==> forall v :: !WorkerOf(t.master, q, v)
  {
    hide *;
    var e := Answer(w, reply);
    PlanParts(st, scripts, s, e);
    AnswerPlan(st, s, w, reply);
    SteadyParts(st, scripts, s);
    AnswerWorkers(s.master, w, reply);
    AnswerOutbox(scripts, s, w);
    WorkerHas(s.master, q, w);
    StepPaired(st, s.master, e);
    RunsOneLess(s.master, t.master, w, q, reply.ReadResult?);
  }

  lemma WorkerHas(m: Master, q: Id, w: WorkerId)
    requires WorkerOf(m, q, w)
    ensures w in m.workers && m.workers[w] == q
  {
  }

  lemma RunsOneLess(m: Master, r: Master, w: WorkerId, q: Id, same: bool)
    requires Paired(m) && w in m.workers && m.workers[w] == q && r.workers == if same then m.workers else m.workers[w := -1]
    ensures forall p, v :: p != q ==> (WorkerOf(m, p, v) <==> WorkerOf(r, p, v))
    ensures forall p :: p != q ==> !WorkerOf(m, p, w)
    ensures same ==> WorkerOf(r, q, w)
    ensures !same ==> forall v :: !WorkerOf(r, q, v)
  {
  }

  lemma PlanParts(st: Setup, scripts: Id -> seq<Line>, s: System, e: Event)
    requires Steady(st, scripts, s) && CanPlan(st, s, e)
    ensures Inv(st, s.master) && AllOk(scripts, s) && Stored(s.master) && Allowed(st, s.master, e) && !Faults(st, s.master, e)
  {
    hide Inv, AllOk, Allowed, Faults, Stored;
  }

  lemma AnswerPlan(st: Setup, s: System, w: WorkerId, reply: Reply)
    requires CanPlan(st, s, Answer(w, reply))
    ensures w in s.master.workers && s.master.workers[w] >= 0 && s.master.workers[w] in s.master.queries
    ensures w in s.stations && s.stations[w].outbox != [] && s.stations[w].outbox[0] == reply
    ensures Step(st, s.master, Answer(w, reply)).0 == AnswerStep(s.master, w, reply)
    ensures PlanStep(st, s, Answer(w, reply)) ==
            System(AnswerStep(s.master, w, reply), s.stations[w := s.stations[w].(outbox := s.stations[w].outbox[1..])], s.log)
  {
    hide AnswerStep, Stored;
  }

  /** The answers of a worker, its oldest one apart. */
  lemma AnswerOutbox(scripts: Id -> seq<Line>, s: System, w: WorkerId)
    requires w in s.stations && w in s.master.workers && StationOk(scripts, s, w) && s.master.workers[w] >= 0 && s.stations[w].outbox != []
    ensures var out := s.stations[w].outbox;
            Reads(out) == One(out[0].ReadResult?) + Reads(out[1..]) && (!out[0].ReadResult? ==> Reads(out[1..]) == 0)
  {
    var d, q := s.stations[w], s.master.workers[w] as Id;
    AnswerCarried(d, w, q, |scripts(q)|, |s.log[q]|, s.master.queries[q].pc);
    hide Carried, StationOk;
  }

  lemma LossBalanced(st: Setup, scripts: Id -> seq<Line>, s: System, w: WorkerId, id: Id)
    requires Steady(st, scripts, s) && CanPlan(st, s, LoseWorker(w))
    ensures Balanced(scripts, s, Plan(LoseWorker(w)), PlanStep(st, s, LoseWorker(w)), id)
  {
    var e := LoseWorker(w);
    var t, q := PlanStep(st, s, e), s.master.workers[w] as Id;
    SteadyParts(st, scripts, s);
    StepPaired(st, s.master, e);
    assert t.master.workers == s.master.workers - {w} && t.stations == s.stations - {w};
    hide Steady, StationOk, Reads, Step, Allowed, Faults, Inv, CanPlan, PlanStep;
    if id == q {
      assert forall v :: !WorkerOf(t.master, id, v);
      NoneInFlight(t, id);
    } else {
      SameInFlight(s, t, id);
    }
  }

  lemma StepBalanced(st: Setup, scripts: Id -> seq<Line>, s: System, a: Move, id: Id)
    requires Steady(st, scripts, s) && Can(st, scripts, s, a) && forall q: Id :: WellEnded(scripts(q))
    ensures Balanced(scripts, s, a, SystemStep(st, scripts, s, a), id)
  {
    hide Steady, CanPlan, PlanStep, WellEnded, Balanced, Turn, Hear;
    match a {
      case Receive(w) => ReceiveBalanced(st, scripts, s, w, id);
      case Execute(w, ok, flushed) => ExecuteBalanced(st, scripts, s, w, ok, flushed, id);
      case Plan(e) =>
        match e {
          case Connect(w) => ConnectBalanced(st, scripts, s, w, id);
          case Dispatch(w, at) => DispatchBalanced(st, scripts, s, w, at, id);
          case Answer(w, reply) => AnswerBalanced(st, scripts, s, w, reply, id);
          case LoseWorker(w) => LossBalanced(st, scripts, s, w, id);
          case _ => CalmBalanced(st, scripts, s, e, id);
        }
    }
  }

  // ------------------------------------------------------------------ runs

  /** Over the run: READ lines of the query that succeeded, results its client got, results lost with a worker. */
  ghost function Done(st: Setup, scripts: Id -> seq<Line>, s: System, moves: seq<Move>, id: Id): nat
    requires Feasible(st, scripts, s, moves)
    decreases |moves|
  {
    if moves == [] then 0
    else One(ReadDone(scripts, s, moves[0], id)) + Done(st, scripts, SystemStep(st, scripts, s, moves[0]), moves[1..], id)
  }

  ghost function Taken(st: Setup, scripts: Id -> seq<Line>, s: System, moves: seq<Move>, id: Id): nat
    requires Feasible(st, scripts, s, moves)
    decreases |moves|
  {
    if moves == [] then 0
    else One(ReadTaken(s, moves[0], id)) + Taken(st, scripts, SystemStep(st, scripts, s, moves[0]), moves[1..], id)
  }

  ghost function Lost(st: Setup, scripts: Id -> seq<Line>, s: System, moves: seq<Move>, id: Id): nat
    requires Feasible(st, scripts, s, moves)
    decreases |moves|
  {
    if moves == [] then 0
    else ReadsLost(s, moves[0], id) + Lost(st, scripts, SystemStep(st, scripts, s, moves[0]), moves[1..], id)
  }

  lemma {:induction false} RunBalanced(st: Setup, scripts: Id -> seq<Line>, s: System, moves: seq<Move>, id: Id)
    requires Steady(st, scripts, s) && Feasible(st, scripts, s, moves) && forall q: Id :: WellEnded(scripts(q))
    ensures InFlight(Outcome(st, scripts, s, moves), id) + Taken(st, scripts, s, moves, id) + Lost(st, scripts, s, moves, id)
            == InFlight(s, id) + Done(st, scripts, s, moves, id)
    decreases |moves|
  {
    if moves != [] {
      SystemStepSteady(st, scripts, s, moves[0]);
      StepBalanced(st, scripts, s, moves[0], id);
      hide Steady, Can, SystemStep, WellEnded, InFlight, ReadDone, ReadTaken, ReadsLost;
      RunBalanced(st, scripts, SystemStep(st, scripts, s, moves[0]), moves[1..], id);
    }
  }

  /**
   Over every run, each READ line of a query that succeeds sends one result: it has
   reached the client, is on its way, or went with a worker that was lost; and
   nothing else counts as one.
   */
  lemma EveryReadAnswered(st: Setup, scripts: Id -> seq<Line>, moves: seq<Move>, id: Id)
    requires (forall q: Id :: WellEnded(scripts(q))) && Feasible(st, scripts, ORIGIN, moves)
    ensures Done(st, scripts, ORIGIN, moves, id)
            == Taken(st, scripts, ORIGIN, moves, id) + InFlight(Outcome(st, scripts, ORIGIN, moves), id) + Lost(st, scripts, ORIGIN, moves, id)
  {
    OriginSteady(st, scripts);
    NoneInFlight(ORIGIN, id);
    RunBalanced(st, scripts, ORIGIN, moves, id);
  }
}
