/** The fault of a stray token strikes: a query withdrawn from Ready, and a worker that then joins. */
module StrayToken {
  import opened Common
  import opened Scheduler
  import opened SchedulerInvariant
  import opened SchedulerRuns

  function Lone(action: Status, disconnected: bool, aging: bool): map<Id, Query> {
    map[0 := Query(0, 0, action, disconnected, aging)]
  }

  /** The only query arrived; in Ready; withdrawn from it; and then a worker joined. */
  const ARRIVED := START.(next := 1, queries := Lone(Created, false, false), arrived := [0], semWaiting := 1)

  function InReady(aging: bool): Master {
    START.(next := 1, queries := Lone(Waiting, false, aging), ready := [0], semReady := 1)
  }

  function Withdrawn(aging: bool): Master {
    START.(next := 1, queries := Lone(Finished, true, aging), done := [0], semReady := 1, semExit := 1, strays := 1)
  }

  function Joined(aging: bool): Master {
    Withdrawn(aging).(workers := map[0 := -1])
  }

  const WITHDRAWAL := [Arrive(0), MakeReady(0), Hangup(0), Connect(0)]

  lemma ArrivalStep(st: Setup)
    ensures Stored(START) && Allowed(st, START, Arrive(0)) && !Faults(st, START, Arrive(0))
    ensures Step(st, START, Arrive(0)).0 == ARRIVED
  {
    assert [] + [0] == [0];
  }

  lemma ReadinessStep(st: Setup)
    ensures Stored(ARRIVED) && Allowed(st, ARRIVED, MakeReady(0)) && !Faults(st, ARRIVED, MakeReady(0))
    ensures Step(st, ARRIVED, MakeReady(0)).0 == InReady(st.ages && st.algorithm == Priorities)
  {
    EntersReady();
    assert Place(st, ARRIVED.queries, ARRIVED.ready, 0, 0) by { assert Insert(ARRIVED.ready, 0, 0) == [0]; }
    hide Enter, Insert;
    assert Displaced(st, Enter(ARRIVED, 0), 0).None?;
  }

  lemma EntersReady()
    ensures Enter(ARRIVED, 0) == InReady(false).(semReady := 0)
  {
    assert Insert(ARRIVED.ready, 0, 0) == [0];
    assert ARRIVED.arrived[1..] == [];
  }

  lemma HangupInReady(st: Setup, aging: bool)
    ensures Stored(InReady(aging)) && Allowed(st, InReady(aging), Hangup(0)) && !Faults(st, InReady(aging), Hangup(0))
    ensures Step(st, InReady(aging), Hangup(0)).0 == Withdrawn(aging)
  {
    assert !Busy(InReady(aging), 0) && Remove([0], 0) == [];
  }

  lemma JoinStep(st: Setup, aging: bool)
    ensures Stored(Withdrawn(aging)) && Allowed(st, Withdrawn(aging), Connect(0)) && !Faults(st, Withdrawn(aging), Connect(0))
    ensures Step(st, Withdrawn(aging), Connect(0)).0 == Joined(aging)
  {
  }

  lemma One(st: Setup, m: Master, e: Event, r: Master, rest: seq<Event>, last: Master)
    requires Stored(m) && Allowed(st, m, e) && !Faults(st, m, e) && Step(st, m, e).0 == r
    requires Possible(st, r, rest) && After(st, r, rest) == last
    ensures Possible(st, m, [e] + rest) && After(st, m, [e] + rest) == last
  {
    hide Stored, Allowed, Faults, Step;
    assert ([e] + rest)[0] == e && ([e] + rest)[1..] == rest;
  }

  lemma WithdrawalRun(st: Setup) returns (m: Master)
    ensures Possible(st, START, WITHDRAWAL) && After(st, START, WITHDRAWAL) == m
    ensures m == Joined(st.ages && st.algorithm == Priorities)
  {
    var aging := st.ages && st.algorithm == Priorities;
    assert WITHDRAWAL == [Arrive(0)] + ([MakeReady(0)] + ([Hangup(0)] + ([Connect(0)] + [])));
    m := Joined(aging);
    assert Possible(st, m, []) && After(st, m, []) == m;
    ArrivalStep(st);
    ReadinessStep(st);
    HangupInReady(st, aging);
    JoinStep(st, aging);
    hide *;
    One(st, Withdrawn(aging), Connect(0), m, [], m);
    One(st, InReady(aging), Hangup(0), Withdrawn(aging), [Connect(0)] + [], m);
    One(st, ARRIVED, MakeReady(0), InReady(aging), [Hangup(0)] + ([Connect(0)] + []), m);
    One(st, START, Arrive(0), ARRIVED, [MakeReady(0)] + ([Hangup(0)] + ([Connect(0)] + [])), m);
  }

  /** In either mode, one query withdrawn from Ready is enough: the next worker to join dequeues from an empty Ready. */
  lemma WithdrawalFaults(st: Setup)
    ensures Possible(st, START, WITHDRAWAL)
    ensures var m := After(st, START, WITHDRAWAL);
            && m.ready == [] && m.strays == 1
            && Stored(m) && Allowed(st, m, Dispatch(0, 0)) && Faults(st, m, Dispatch(0, 0))
  {
    var m := WithdrawalRun(st);
    hide Possible, After;
  }
}
