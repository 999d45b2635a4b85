/** A run of the program as written in which simulated time goes backwards. */
module SimulationTrace {
  import opened Events
  import opened Calendar
  import opened CalendarDequeue
  import opened CalendarRun
  import opened CalendarTrace
  import opened ChannelBits
  import opened ChannelTable
  import opened Cell
  import opened Simulation
  import opened Options

  // The first call arrives at 3.1 and lasts 0.6; the second arrives at 4.2.
  const D0 := Draws(3.1, 0.0, 0.0)
  const D1 := Draws(1.0, 0.6, 1.1)
  const D2 := Draws(1.0, 5.0, 5.8)
  const D3 := Draws(1.0, 0.0, 0.0)

  ghost function State1(): State {
    FreshState()
  }

  ghost function State2(): State {
    State(CHANNELS_PER_CELL - 1, 1, 0, 0, 1, 3.1, RecomputeTa(TA, 3.1), {0})
  }

  ghost function State3(): State {
    State(CHANNELS_PER_CELL - 2, 2, 0, 0, 2, 4.2, RecomputeTa(TA, 4.2), {0, 1})
  }

  ghost function State4(): State {
    State(CHANNELS_PER_CELL - 1, 2, 1, 0, 3, 3.7, RecomputeTa(TA, 4.2), {1})
  }

  ghost function Sim1(id: nat): Sim {
    Sim(id, Some(State1()), Small([], [StartEvent(id, 3.1)], 0, 0.0, 1.5), Running)
  }

  ghost function Sim2(id: nat): Sim {
    Sim(id, Some(State2()), Small([StartEvent(id, 4.2)], [EndEvent(id, 0, 3.7)], 1, 3.1, 3.5), Running)
  }

  ghost function Sim3(id: nat): Sim {
    Sim(id, Some(State3()),
        Small([StartEvent(id, 10.0)], [EndEvent(id, 0, 3.7), EndEvent(id, 1, 9.2)], 0, 4.2, 4.5), Running)
  }

  ghost function Sim4(id: nat): Sim {
    Sim(id, Some(State4()), Small([StartEvent(id, 10.0)], [EndEvent(id, 1, 9.2)], 1, 3.7, 5.5), Running)
  }

  /** A turn from its parts. */
  lemma TurnBy(s: Sim, e: Event<Msg>, q1: Cal<Msg>, d: Draws, state: State, puts: seq<Event<Msg>>, q2: Cal<Msg>)
    requires Ready(s) && Drawn(d) && s.queue.size > 0
    requires Calendar.Get(s.queue, AsWritten) == Some((e, q1)) && Wf(q1)
    requires Dated(e.payload) && e.payload.receiver == s.id
    requires Process(s.state, e.payload, d) == Done(state, puts, 0)
    requires NotBefore(puts, 0.0) && PutAll(q1, puts, AsWritten) == Some(q2)
    ensures SimTurn(s, d, AsWritten) == Some(Sim(s.id, Some(state), q2, Running))
  {
    TurnIsHandle(s, e, q1, d);
    hide Process, PutAll, Wf, Calendar.Get, SimTurn;
  }

  lemma Free()
    ensures FirstFree({}, 0) == 0 && FirstFree({0}, 0) == 1
  {
    hide FirstFree;
    FirstFreeUnique(0, {});
    FirstFreeUnique(1, {0});
  }

  lemma Buckets()
    ensures Virtual(0.0, 1.0) == 0 && Virtual(3.1, 1.0) == 3 && Virtual(3.7, 1.0) == 3
    ensures Virtual(4.2, 1.0) == 4 && Virtual(9.2, 1.0) == 9 && Virtual(10.0, 1.0) == 10
  {
    VirtualUnique(0.0, 1.0, 0);
    VirtualUnique(3.1, 1.0, 3);
    VirtualUnique(3.7, 1.0, 3);
    VirtualUnique(4.2, 1.0, 4);
    VirtualUnique(9.2, 1.0, 9);
    VirtualUnique(10.0, 1.0, 10);
  }

  lemma StartIs(id: nat, garbage: real)
    ensures SimStart(id, garbage) == Sim(id, None, Small([InitEvent(id, garbage)], [], 0, 0.0, 1.5), Running)
    ensures Ready(SimStart(id, garbage))
  {
    StartReady(id, garbage);
    CalendarTrace.Start<Msg>();
    Buckets();
    SmallEnqueue([], [], 0, 0.0, 1.5, InitEvent(id, garbage));
    assert Insert([], InitEvent(id, garbage)) == [InitEvent(id, garbage)];
  }

  /** After INIT the first call is pending at 3.1. */
  lemma Turn0(id: nat, garbage: real)
    requires Ready(SimStart(id, garbage))
    ensures SimTurn(SimStart(id, garbage), D0, AsWritten) == Some(Sim1(id))
    ensures TurnTieFree(SimStart(id, garbage), D0, AsWritten)
  {
    StartIs(id, garbage);
    Buckets();
    var e, f := InitEvent(id, garbage), StartEvent(id, 3.1);
    assert [e][1..] == [];
    SmallHitHere([e], [], 0, 0.0, 1.5);
    var q1 := Small<Msg>([], [], 0, 0.0, 1.5);
    SmallPut([], [], 0, 0.0, 1.5, f);
    assert Insert([], f) == [f];
    PutAllOne(q1, f);
    SmallBag<Msg>([], [], 0, 0.0, 1.5);
    hide Wf, Calendar.Get, PutAll, SimTurn, Ready, Put, Bag;
    TurnBy(SimStart(id, garbage), e, q1, D0, State1(), [f], Small([], [f], 0, 0.0, 1.5));
    assert TieFree(Bag(q1), [f]);
  }

  /** The direct search finds it and leaves a gap of one; the call ends at 3.7, the next comes at 4.2. */
  lemma Turn1(id: nat)
    requires Ready(Sim1(id))
    ensures SimTurn(Sim1(id), D1, AsWritten) == Some(Sim2(id))
    ensures TurnTieFree(Sim1(id), D1, AsWritten)
  {
    hide Calendar.Get, PutAll, SimTurn, Put, Bag, Process;
    Buckets();
    Process1(id);
    var s, e, f := StartEvent(id, 3.1), EndEvent(id, 0, 3.7), StartEvent(id, 4.2);
    assert [s][1..] == [];
    SmallDirect([], [s], 0, 0.0, 1.5, 1);
    var q1, q2 := Small<Msg>([], [], 1, 3.1, 3.5), Small([f], [e], 1, 3.1, 3.5);
    TwoPuts([], [], 1, 3.1, 3.5, e, f, [f], [e]);
    SmallBag<Msg>([], [], 1, 3.1, 3.5);
    hide Wf, Ready;
    TurnBy(Sim1(id), s, q1, D1, State2(), [e, f], q2);
    NoTies(Bag(q1), e, f);
  }

  lemma Process1(id: nat)
    ensures Process(Some(State1()), StartEvent(id, 3.1).payload, D1) ==
            Done(State2(), [EndEvent(id, 0, 3.7), StartEvent(id, 4.2)], 0)
  {
    Free();
    hide FirstFree, RecomputeTa;
  }

  /** The end of the call at 3.7 is passed over for the start at 4.2. */
  lemma Turn2(id: nat)
    requires Ready(Sim2(id))
    ensures SimTurn(Sim2(id), D2, AsWritten) == Some(Sim3(id))
    ensures TurnTieFree(Sim2(id), D2, AsWritten)
  {
    hide Calendar.Get, PutAll, SimTurn, Put, Bag, Process, Insert, Virtual;
    Process2(id);
    var s, p := StartEvent(id, 4.2), EndEvent(id, 0, 3.7);
    var e, f := EndEvent(id, 1, 9.2), StartEvent(id, 10.0);
    var q1, q2 := Small([], [p], 0, 4.2, 4.5), Small([f], [p, e], 0, 4.2, 4.5);
    PassedOver(s, p);
    Puts2(p, e, f);
    SmallBag([], [p], 0, 4.2, 4.5);
    hide Wf, Ready;
    TurnBy(Sim2(id), s, q1, D2, State3(), [e, f], q2);
    NoTies(Bag(q1), e, f);
  }

  lemma PassedOver(s: Event<Msg>, p: Event<Msg>)
    requires s.priority == 4.2 && p.priority == 3.7 && Wf(Small([s], [p], 1, 3.1, 3.5))
    ensures Calendar.Get(Small([s], [p], 1, 3.1, 3.5), AsWritten) == Some((s, Small([], [p], 0, 4.2, 4.5)))
  {
    assert [s][1..] == [];
    hide Wf, Calendar.Get;
    SmallHitNext([s], [p], 1, 3.1, 3.5);
  }

  lemma Puts2(p: Event<Msg>, e: Event<Msg>, f: Event<Msg>)
    requires p.priority == 3.7 && e.priority == 9.2 && f.priority == 10.0 && Wf(Small([], [p], 0, 4.2, 4.5))
    ensures NotBefore([e, f], 0.0)
    ensures PutAll(Small([], [p], 0, 4.2, 4.5), [e, f], AsWritten) == Some(Small([f], [p, e], 0, 4.2, 4.5))
  {
    Buckets();
    InsertAt([p], e, 1);
    assert Insert([p], e) == [p, e] && Insert([], f) == [f];
    hide Wf, PutAll, Insert, Virtual;
    TwoPuts([], [p], 0, 4.2, 4.5, e, f, [f], [p, e]);
  }

  lemma Process2(id: nat)
    ensures Process(Some(State2()), StartEvent(id, 4.2).payload, D2) ==
            Done(State3(), [EndEvent(id, 1, 9.2), StartEvent(id, 10.0)], 0)
  {
    Free();
    assert {0} + {1} == {0, 1};
    hide FirstFree, RecomputeTa;
  }

  lemma Turn3(id: nat)
    requires Ready(Sim3(id))
    ensures SimTurn(Sim3(id), D3, AsWritten) == Some(Sim4(id))
    ensures TurnTieFree(Sim3(id), D3, AsWritten)
  {
    var f, p, e := StartEvent(id, 10.0), EndEvent(id, 0, 3.7), EndEvent(id, 1, 9.2);
    assert [p, e][1..] == [e];
    SmallHitNext([f], [p, e], 0, 4.2, 4.5);
    var q1 := Small([f], [e], 1, 3.7, 5.5);
    assert {0, 1} - {0} == {1};
    assert Process(Some(State3()), p.payload, D3) == Done(State4(), [], 0);
    hide Wf, Calendar.Get, SimTurn, Ready, Put, Bag, Process;
    TurnBy(Sim3(id), p, q1, D3, State4(), [], q1);
  }

  lemma TwoPuts(even: seq<Event<Msg>>, odd: seq<Event<Msg>>, last: int, prio: real, top: real,
                e: Event<Msg>, f: Event<Msg>, even': seq<Event<Msg>>, odd': seq<Event<Msg>>)
    requires Wf(Small(even, odd, last, prio, top)) && |even| + |odd| < 3 && e.priority >= 0.0 && f.priority >= 0.0
    requires Virtual(e.priority, 1.0) % 2 == 1 && Virtual(f.priority, 1.0) % 2 == 0
    requires even' == Insert(even, f) && odd' == Insert(odd, e)
    ensures NotBefore([e, f], 0.0)
    ensures PutAll(Small(even, odd, last, prio, top), [e, f], AsWritten) == Some(Small(even', odd', last, prio, top))
  {
    OddPut(even, odd, last, prio, top, e, odd');
    EvenPut(even, odd', last, prio, top, f, even');
    hide *;
    PutAllTwo(Small(even, odd, last, prio, top), e, f);
    PairNotBefore(e, f);
  }

  lemma OddPut(even: seq<Event<Msg>>, odd: seq<Event<Msg>>, last: int, prio: real, top: real,
               e: Event<Msg>, odd': seq<Event<Msg>>)
    requires Wf(Small(even, odd, last, prio, top)) && |even| + |odd| < 4 && e.priority >= 0.0
    requires Virtual(e.priority, 1.0) % 2 == 1 && odd' == Insert(odd, e)
    ensures Put(Small(even, odd, last, prio, top), e, AsWritten) == Some(Small(even, odd', last, prio, top))
    ensures Wf(Small(even, odd', last, prio, top)) && |odd'| == |odd| + 1
  {
    SmallPut(even, odd, last, prio, top, e);
    InsertLonger(odd, e);
    hide Put, Wf, Insert, Virtual, Small;
  }

  lemma EvenPut(even: seq<Event<Msg>>, odd: seq<Event<Msg>>, last: int, prio: real, top: real,
                e: Event<Msg>, even': seq<Event<Msg>>)
    requires Wf(Small(even, odd, last, prio, top)) && |even| + |odd| < 4 && e.priority >= 0.0
    requires Virtual(e.priority, 1.0) % 2 == 0 && even' == Insert(even, e)
    ensures Put(Small(even, odd, last, prio, top), e, AsWritten) == Some(Small(even', odd, last, prio, top))
    ensures Wf(Small(even', odd, last, prio, top))
  {
    SmallPut(even, odd, last, prio, top, e);
    hide Put, Wf, Insert, Virtual, Small;
  }

  lemma InsertLonger(s: seq<Event<Msg>>, e: Event<Msg>)
    ensures |Insert(s, e)| == |s| + 1
  {
    assert |multiset(Insert(s, e))| == |Insert(s, e)|;
    assert |multiset(s) + multiset{e}| == |s| + 1;
  }

  lemma SmallBag<T>(even: seq<Event<T>>, odd: seq<Event<T>>, last: int, prio: real, top: real)
    ensures Bag(Small(even, odd, last, prio, top)) == multiset(even) + multiset(odd)
  {
    assert [even, odd][..1] == [even] && [even][..0] == [];
    assert Pending([even]) == multiset(even);
  }

  lemma NoTies(m: multiset<Event<Msg>>, e: Event<Msg>, f: Event<Msg>)
    requires forall x | x in m :: x.priority != e.priority && x.priority != f.priority
    requires e.priority != f.priority
    ensures TieFree(m, [e, f])
  {
    assert [e, f][1..] == [f];
  }

  /** A run so far, without ties. */
  ghost predicate TieFreeRun(run: seq<Sim>, draws: seq<Draws>) {
    && IsSimRun(run, draws, AsWritten)
    && forall i | 0 <= i < |draws| :: Ready(run[i]) && Drawn(draws[i]) && TurnTieFree(run[i], draws[i], AsWritten)
  }

  lemma RunGrows(run: seq<Sim>, draws: seq<Draws>, d: Draws, s: Sim)
    requires TieFreeRun(run, draws) && Ready(run[|draws|]) && Drawn(d) && s.status == Running
    requires SimTurn(run[|draws|], d, AsWritten) == Some(s) && TurnTieFree(run[|draws|], d, AsWritten)
    ensures TieFreeRun(run + [s], draws + [d]) && |run| == |draws| + 1 && (run + [s])[|draws + [d]|] == s && Ready(s)
  {
    hide Ready, SimTurn, TurnTieFree;
    RunExtends(run, draws, AsWritten, d, s);
    RunReady(run + [s], draws + [d], AsWritten);
  }

  /** The run ends in `last`, from which the loop can go on. */
  ghost predicate ReachedBy(run: seq<Sim>, draws: seq<Draws>, last: Sim) {
    |run| == |draws| + 1 && run[|draws|] == last && TieFreeRun(run, draws) && Ready(last)
  }

  lemma Grown(run: seq<Sim>, draws: seq<Draws>, last: Sim, d: Draws, s: Sim)
    requires ReachedBy(run, draws, last) && Ready(last) && Drawn(d) && s.status == Running
    requires SimTurn(last, d, AsWritten) == Some(s) && TurnTieFree(last, d, AsWritten)
    ensures ReachedBy(run + [s], draws + [d], s)
  {
    hide Ready, SimTurn, TurnTieFree, TieFreeRun;
    RunGrows(run, draws, d, s);
  }

  lemma Reached(run: seq<Sim>, draws: seq<Draws>, last: Sim)
    requires ReachedBy(run, draws, last)
    ensures Ready(last) && TieFreeRun(run, draws)
  {
    hide Ready, TieFreeRun;
  }

  lemma Facts(id: nat)
    ensures Sim1(id).status == Running && Sim2(id).status == Running
    ensures Sim3(id).status == Running && Sim3(id).state.Some? && Sim3(id).state.value.lvt == 4.2
    ensures Sim4(id).status == Running && Sim4(id).state.Some? && Sim4(id).state.value.lvt == 3.7
    ensures Drawn(D0) && Drawn(D1) && Drawn(D2) && Drawn(D3)
  {
  }

  lemma Reached0(id: nat, garbage: real)
    ensures ReachedBy([SimStart(id, garbage)], [], SimStart(id, garbage))
  {
    StartIs(id, garbage);
    RunBegins(id, garbage, AsWritten);
  }

  lemma Reached1(id: nat, garbage: real)
    ensures ReachedBy([SimStart(id, garbage), Sim1(id)], [D0], Sim1(id))
  {
    var s0 := SimStart(id, garbage);
    hide *;
    Facts(id);
    Reached0(id, garbage);
    Reached([s0], [], s0);
    Turn0(id, garbage);
    Grown([s0], [], s0, D0, Sim1(id));
    assert [s0] + [Sim1(id)] == [s0, Sim1(id)] && [] + [D0] == [D0];
  }

  lemma Reached2(id: nat, garbage: real)
    ensures ReachedBy([SimStart(id, garbage), Sim1(id), Sim2(id)], [D0, D1], Sim2(id))
  {
    var s0, s1, s2 := SimStart(id, garbage), Sim1(id), Sim2(id);
    hide *;
    Facts(id);
    Reached1(id, garbage);
    Reached([s0, s1], [D0], s1);
    Turn1(id);
    Grown([s0, s1], [D0], s1, D1, s2);
    assert [s0, s1] + [s2] == [s0, s1, s2] && [D0] + [D1] == [D0, D1];
  }

  lemma Reached3(id: nat, garbage: real)
    ensures ReachedBy([SimStart(id, garbage), Sim1(id), Sim2(id), Sim3(id)], [D0, D1, D2], Sim3(id))
  {
    var s0, s1, s2, s3 := SimStart(id, garbage), Sim1(id), Sim2(id), Sim3(id);
    hide *;
    Facts(id);
    Reached2(id, garbage);
    Reached([s0, s1, s2], [D0, D1], s2);
    Turn2(id);
    Grown([s0, s1, s2], [D0, D1], s2, D2, s3);
    assert [s0, s1, s2] + [s3] == [s0, s1, s2, s3] && [D0, D1] + [D2] == [D0, D1, D2];
  }

  /** Draws of the right sign, no ties, and yet the cell's clock goes from 4.2 back to 3.7. */
  lemma TimeRunsBackwards(id: nat, garbage: real)
    ensures TieFreeRun([SimStart(id, garbage), Sim1(id), Sim2(id), Sim3(id), Sim4(id)], [D0, D1, D2, D3])
    ensures Sim3(id).state.Some? && Sim3(id).state.value.lvt == 4.2
    ensures Sim4(id).state.Some? && Sim4(id).state.value.lvt == 3.7
  {
    var s0, s1, s2, s3, s4 := SimStart(id, garbage), Sim1(id), Sim2(id), Sim3(id), Sim4(id);
    hide *;
    Facts(id);
    Reached3(id, garbage);
    Reached([s0, s1, s2, s3], [D0, D1, D2], s3);
    Turn3(id);
    Grown([s0, s1, s2, s3], [D0, D1, D2], s3, D3, s4);
    assert [s0, s1, s2, s3] + [s4] == [s0, s1, s2, s3, s4] && [D0, D1, D2] + [D3] == [D0, D1, D2, D3];
    Reached([s0, s1, s2, s3, s4], [D0, D1, D2, D3], s4);
  }
}
