/** A run of the program as written, without ties, that ends in a resize with a negative width. */
module SimulationFailure {
  import opened Options
  import opened Events
  import opened Calendar
  import opened CalendarCursor
  import opened CalendarDequeue
  import opened CalendarFailure
  import opened CalendarRun
  import opened CalendarTrace
  import opened CalendarWidth
  import opened ChannelBits
  import opened ChannelTable
  import opened Cell
  import opened Simulation
  import opened SimulationTrace

  // Calls arrive at 6.5, 6.9, 7.3 and 7.5 and end at 8.6, 8.5, 12.6 and 9.4; the next comes at 8.3.
  const C0 := Draws(6.5, 0.0, 0.0)
  const C1 := Draws(1.0, 2.1, 0.4)
  const C2 := Draws(1.0, 1.6, 0.4)
  const C3 := Draws(1.0, 5.3, 0.2)
  const C4 := Draws(1.0, 1.9, 0.8)

  ghost function Cell2(): State {
    State(CHANNELS_PER_CELL - 1, 1, 0, 0, 1, 6.5, RecomputeTa(TA, 6.5), {0})
  }

  ghost function Cell3(): State {
    State(CHANNELS_PER_CELL - 2, 2, 0, 0, 2, 6.9, RecomputeTa(TA, 6.9), {0, 1})
  }

  ghost function Cell4(): State {
    State(CHANNELS_PER_CELL - 3, 3, 0, 0, 3, 7.3, RecomputeTa(TA, 7.3), {0, 1, 2})
  }

  ghost function Cell5(): State {
    State(CHANNELS_PER_CELL - 4, 4, 0, 0, 4, 7.5, RecomputeTa(TA, 7.5), {0, 1, 2, 3})
  }

  ghost function At1(id: nat): Sim {
    Sim(id, Some(FreshState()), Small([StartEvent(id, 6.5)], [], 0, 0.0, 1.5), Running)
  }

  ghost function At2(id: nat): Sim {
    Sim(id, Some(Cell2()), Small([StartEvent(id, 6.9), EndEvent(id, 0, 8.6)], [], 0, 6.5, 3.5), Running)
  }

  ghost function At3(id: nat): Sim {
    Sim(id, Some(Cell3()),
        Small([EndEvent(id, 1, 8.5), EndEvent(id, 0, 8.6)], [StartEvent(id, 7.3)], 0, 6.9, 5.5), Running)
  }

  ghost function At4(id: nat): Sim {
    Sim(id, Some(Cell4()),
        Small([EndEvent(id, 1, 8.5), EndEvent(id, 0, 8.6), EndEvent(id, 2, 12.6)], [StartEvent(id, 7.5)], 1, 7.3, 7.5),
        Running)
  }

  /** The calendar the last put samples. */
  ghost function Last(id: nat): Cal<Msg> {
    Small([StartEvent(id, 8.3), EndEvent(id, 1, 8.5), EndEvent(id, 0, 8.6), EndEvent(id, 2, 12.6)],
          [EndEvent(id, 3, 9.4)], 1, 7.5, 9.5)
  }

  lemma CallBuckets()
    ensures Virtual(6.5, 1.0) == 6 && Virtual(6.9, 1.0) == 6 && Virtual(7.3, 1.0) == 7 && Virtual(7.5, 1.0) == 7
    ensures Virtual(8.3, 1.0) == 8 && Virtual(8.5, 1.0) == 8 && Virtual(8.6, 1.0) == 8
    ensures Virtual(9.4, 1.0) == 9 && Virtual(12.6, 1.0) == 12
  {
    VirtualUnique(6.5, 1.0, 6);
    VirtualUnique(6.9, 1.0, 6);
    VirtualUnique(7.3, 1.0, 7);
    VirtualUnique(7.5, 1.0, 7);
    VirtualUnique(8.3, 1.0, 8);
    VirtualUnique(8.5, 1.0, 8);
    VirtualUnique(8.6, 1.0, 8);
    VirtualUnique(9.4, 1.0, 9);
    VirtualUnique(12.6, 1.0, 12);
  }

  lemma FreeOnes()
    ensures FirstFree({}, 0) == 0 && FirstFree({0}, 0) == 1 && FirstFree({0, 1}, 0) == 2 && FirstFree({0, 1, 2}, 0) == 3
  {
    hide FirstFree;
    FirstFreeUnique(0, {});
    FirstFreeUnique(1, {0});
    FirstFreeUnique(2, {0, 1});
    FirstFreeUnique(3, {0, 1, 2});
  }

  // ---------------------------------------------------------------- the turns that go through

  lemma First(id: nat, garbage: real)
    requires Ready(SimStart(id, garbage))
    ensures SimTurn(SimStart(id, garbage), C0, AsWritten) == Some(At1(id))
    ensures TurnTieFree(SimStart(id, garbage), C0, AsWritten)
  {
    hide Calendar.Get, PutAll, SimTurn, Put, Bag, Virtual, Wf, Dequeue;
    StartIs(id, garbage);
    CallBuckets();
    var e, f := InitEvent(id, garbage), StartEvent(id, 6.5);
    assert [e][1..] == [];
    ReadyWf(SimStart(id, garbage));
    SmallHitHere([e], [], 0, 0.0, 1.5);
    var q1 := Small<Msg>([], [], 0, 0.0, 1.5);
    GetWf(SimStart(id, garbage).queue, e, q1);
    assert Insert([], f) == [f];
    EvenPut([], [], 0, 0.0, 1.5, f, [f]);
    PutAllOne(q1, f);
    SmallBag<Msg>([], [], 0, 0.0, 1.5);
    hide Ready;
    TurnBy(SimStart(id, garbage), e, q1, C0, FreshState(), [f], Small([f], [], 0, 0.0, 1.5));
    assert TieFree(Bag(q1), [f]);
  }

  lemma ReadyWf(s: Sim)
    requires Ready(s)
    ensures Wf(s.queue)
  {
  }

  lemma GetWf(q: Cal<Msg>, e: Event<Msg>, q1: Cal<Msg>)
    requires Wf(q) && q.size > 0 && Calendar.Get(q, AsWritten) == Some((e, q1))
    ensures Wf(q1)
  {
    hide Wf;
  }

  /** A call arrives and two events are put. */
  lemma Arrival(s: Sim, e: Event<Msg>, q1: Cal<Msg>, d: Draws, state: State, a: Event<Msg>, b: Event<Msg>, q2: Cal<Msg>)
    requires Ready(s) && Drawn(d) && s.queue.size > 0 && Calendar.Get(s.queue, AsWritten) == Some((e, q1))
    requires Dated(e.payload) && e.payload.receiver == s.id && Wf(q1)
    requires Process(s.state, e.payload, d) == Done(state, [a, b], 0) && a.priority >= 0.0 && b.priority >= 0.0
    requires PutAll(q1, [a, b], AsWritten) == Some(q2)
    requires a.priority != b.priority && forall x | x in Bag(q1) :: x.priority != a.priority && x.priority != b.priority
    ensures SimTurn(s, d, AsWritten) == Some(Sim(s.id, Some(state), q2, Running))
    ensures TurnTieFree(s, d, AsWritten)
  {
    hide Process, PutAll, Wf, Calendar.Get, SimTurn, Ready, Bag;
    PairNotBefore(a, b);
    TurnBy(s, e, q1, d, state, [a, b], q2);
    NoTies(Bag(q1), a, b);
    PutsAre(s, e, d, [a, b]);
  }

  lemma PutsAre(s: Sim, e: Event<Msg>, d: Draws, puts: seq<Event<Msg>>)
    requires Dated(e.payload) && Drawn(d) && e.payload.receiver == s.id
    requires Process(s.state, e.payload, d).Done? && Process(s.state, e.payload, d).puts == puts
    ensures TurnPuts(s, e, d) == puts
  {
    hide Process;
  }

  lemma Process1(id: nat)
    ensures Process(Some(FreshState()), StartEvent(id, 6.5).payload, C1) ==
            Done(Cell2(), [EndEvent(id, 0, 8.6), StartEvent(id, 6.9)], 0)
  {
    FreeOnes();
    hide FirstFree, RecomputeTa;
  }

  lemma Second(id: nat)
    requires Ready(At1(id))
    ensures SimTurn(At1(id), C1, AsWritten) == Some(At2(id)) && TurnTieFree(At1(id), C1, AsWritten)
  {
    hide Calendar.Get, PutAll, SimTurn, Put, Bag, Virtual, Wf, Dequeue, Process, Ready, Insert, TurnTieFree;
    CallBuckets();
    Process1(id);
    var e, a, b := StartEvent(id, 6.5), EndEvent(id, 0, 8.6), StartEvent(id, 6.9);
    ReadyWf(At1(id));
    assert [e][1..] == [];
    SmallDirect([e], [], 0, 0.0, 1.5, 0);
    var q1 := Small<Msg>([], [], 0, 6.5, 3.5);
    GetWf(At1(id).queue, e, q1);
    OneInserted(a);
    PutBefore(a, b);
    EvenPut([], [], 0, 6.5, 3.5, a, [a]);
    EvenPut([a], [], 0, 6.5, 3.5, b, [b, a]);
    PutAllTwo(q1, a, b);
    SmallBag<Msg>([], [], 0, 6.5, 3.5);
    Arrival(At1(id), e, q1, C1, Cell2(), a, b, Small([b, a], [], 0, 6.5, 3.5));
  }

  lemma OneInserted(e: Event<Msg>)
    ensures Insert([], e) == [e]
  {
  }

  /** Insertion in front of a list of one. */
  lemma PutBefore(a: Event<Msg>, b: Event<Msg>)
    requires b.priority < a.priority
    ensures Insert([a], b) == [b, a]
  {
    assert [b] + [a] == [b, a];
  }

  lemma Process2(id: nat)
    ensures Process(Some(Cell2()), StartEvent(id, 6.9).payload, C2) ==
            Done(Cell3(), [EndEvent(id, 1, 8.5), StartEvent(id, 7.3)], 0)
  {
    FreeOnes();
    assert {0} + {1} == {0, 1};
    hide FirstFree, RecomputeTa;
  }

  lemma Third(id: nat)
    requires Ready(At2(id))
    ensures SimTurn(At2(id), C2, AsWritten) == Some(At3(id)) && TurnTieFree(At2(id), C2, AsWritten)
  {
    hide Calendar.Get, PutAll, SimTurn, Put, Bag, Virtual, Wf, Dequeue, Process, Ready, Insert, TurnTieFree;
    CallBuckets();
    Process2(id);
    var e, x := StartEvent(id, 6.9), EndEvent(id, 0, 8.6);
    var a, b := EndEvent(id, 1, 8.5), StartEvent(id, 7.3);
    ReadyWf(At2(id));
    assert [e, x][1..] == [x];
    SmallDirect([e, x], [], 0, 6.5, 3.5, 0);
    var q1 := Small([x], [], 0, 6.9, 5.5);
    GetWf(At2(id).queue, e, q1);
    OneInserted(b);
    PutBefore(x, a);
    EvenPut([x], [], 0, 6.9, 5.5, a, [a, x]);
    OddPut([a, x], [], 0, 6.9, 5.5, b, [b]);
    PutAllTwo(q1, a, b);
    SmallBag([x], [], 0, 6.9, 5.5);
    Arrival(At2(id), e, q1, C2, Cell3(), a, b, Small([a, x], [b], 0, 6.9, 5.5));
  }

  lemma Process3(id: nat)
    ensures Process(Some(Cell3()), StartEvent(id, 7.3).payload, C3) ==
            Done(Cell4(), [EndEvent(id, 2, 12.6), StartEvent(id, 7.5)], 0)
  {
    FreeOnes();
    assert {0, 1} + {2} == {0, 1, 2};
    hide FirstFree, RecomputeTa;
  }

  lemma Fourth(id: nat)
    requires Ready(At3(id))
    ensures SimTurn(At3(id), C3, AsWritten) == Some(At4(id)) && TurnTieFree(At3(id), C3, AsWritten)
  {
    hide Calendar.Get, PutAll, SimTurn, Put, Bag, Virtual, Wf, Dequeue, Process, Ready, Insert, TurnTieFree;
    CallBuckets();
    Process3(id);
    var e, x, y := StartEvent(id, 7.3), EndEvent(id, 1, 8.5), EndEvent(id, 0, 8.6);
    var a, b := EndEvent(id, 2, 12.6), StartEvent(id, 7.5);
    ReadyWf(At3(id));
    assert [e][1..] == [];
    SmallDirect([x, y], [e], 0, 6.9, 5.5, 1);
    var q1 := Small([x, y], [], 1, 7.3, 7.5);
    GetWf(At3(id).queue, e, q1);
    OneInserted(b);
    InsertAt([x, y], a, 2);
    EvenPut([x, y], [], 1, 7.3, 7.5, a, [x, y, a]);
    OddPut([x, y, a], [], 1, 7.3, 7.5, b, [b]);
    PutAllTwo(q1, a, b);
    SmallBag([x, y], [], 1, 7.3, 7.5);
    Arrival(At3(id), e, q1, C3, Cell4(), a, b, Small([x, y, a], [b], 1, 7.3, 7.5));
  }

  // ---------------------------------------------------------------- the turn that does not

  lemma LastRemoval1(id: nat)
    requires Wf(Last(id))
    ensures Dequeue(Last(id), AsWritten) == (EndEvent(id, 3, 9.4), Late(id, 0, 9.4, 9.5).(lastBucket := 1))
  {
    hide Wf, Dequeue, Get;
    var a := EndEvent(id, 3, 9.4);
    assert [a][1..] == [];
    SmallHitHere([StartEvent(id, 8.3), EndEvent(id, 1, 8.5), EndEvent(id, 0, 8.6), EndEvent(id, 2, 12.6)],
                 [a], 1, 7.5, 9.5);
  }

  /** What is left of it after `n` removals from the first bucket. */
  ghost function Late(id: nat, n: nat, prio: real, top: real): Cal<Msg>
    requires n <= 4
  {
    Small([StartEvent(id, 8.3), EndEvent(id, 1, 8.5), EndEvent(id, 0, 8.6), EndEvent(id, 2, 12.6)][n..],
          [], 0, prio, top)
  }

  lemma LastRemoval2(id: nat)
    requires Wf(Late(id, 0, 9.4, 9.5).(lastBucket := 1))
    ensures var q := Late(id, 0, 9.4, 9.5).(lastBucket := 1);
            q.size > 0 && Dequeue(q, AsWritten) == (StartEvent(id, 8.3), Late(id, 1, 8.3, 10.5))
  {
    hide Wf, Dequeue, Get;
    var s := [StartEvent(id, 8.3), EndEvent(id, 1, 8.5), EndEvent(id, 0, 8.6), EndEvent(id, 2, 12.6)];
    assert s[0..] == s;
    SmallHitNext(s, [], 1, 9.4, 9.5);
  }

  lemma LastRemoval3(id: nat)
    requires Wf(Late(id, 1, 8.3, 10.5))
    ensures Late(id, 1, 8.3, 10.5).size > 0
    ensures Dequeue(Late(id, 1, 8.3, 10.5), AsWritten) == (EndEvent(id, 1, 8.5), Late(id, 2, 8.5, 10.5))
  {
    hide Wf, Dequeue, Get;
    var s := [StartEvent(id, 8.3), EndEvent(id, 1, 8.5), EndEvent(id, 0, 8.6), EndEvent(id, 2, 12.6)];
    assert s[1..][1..] == s[2..];
    SmallHitHere(s[1..], [], 0, 8.3, 10.5);
  }

  lemma LastRemoval4(id: nat)
    requires Wf(Late(id, 2, 8.5, 10.5))
    ensures Late(id, 2, 8.5, 10.5).size > 0
    ensures Dequeue(Late(id, 2, 8.5, 10.5), AsWritten) == (EndEvent(id, 0, 8.6), Late(id, 3, 8.6, 10.5))
  {
    hide Wf, Dequeue, Get;
    var s := [StartEvent(id, 8.3), EndEvent(id, 1, 8.5), EndEvent(id, 0, 8.6), EndEvent(id, 2, 12.6)];
    assert s[2..][1..] == s[3..];
    SmallHitHere(s[2..], [], 0, 8.5, 10.5);
  }

  lemma LastRemoval5(id: nat)
    requires Wf(Late(id, 3, 8.6, 10.5))
    ensures Late(id, 3, 8.6, 10.5).size > 0
    ensures Dequeue(Late(id, 3, 8.6, 10.5), AsWritten) == (EndEvent(id, 2, 12.6), Late(id, 4, 12.6, 12.5))
  {
    hide Wf, Dequeue, Get;
    var s := [StartEvent(id, 8.3), EndEvent(id, 1, 8.5), EndEvent(id, 0, 8.6), EndEvent(id, 2, 12.6)];
    assert s[3..][1..] == s[4..];
    SmallDirect(s[3..], [], 0, 8.6, 10.5, 0);
  }

  ghost function LastSamples(id: nat): seq<Event<Msg>> {
    [EndEvent(id, 3, 9.4), StartEvent(id, 8.3), EndEvent(id, 1, 8.5), EndEvent(id, 0, 8.6), EndEvent(id, 2, 12.6)]
  }

  lemma LastSizes(id: nat)
    ensures Last(id).size == 5
  {
  }

  lemma TwoSamples(id: nat)
    requires Wf(Last(id))
    ensures Wf(Late(id, 1, 8.3, 10.5))
    ensures Sample(Last(id), 2, AsWritten) == ([EndEvent(id, 3, 9.4), StartEvent(id, 8.3)], Late(id, 1, 8.3, 10.5))
  {
    hide *;
    var a, b := EndEvent(id, 3, 9.4), StartEvent(id, 8.3);
    LastSizes(id);
    SampleNothing(Last(id), AsWritten);
    LastRemoval1(id);
    var q1 := Late(id, 0, 9.4, 9.5).(lastBucket := 1);
    OneMore(Last(id), 0, [], Last(id), a, q1, [a]);
    LastRemoval2(id);
    OneMore(Last(id), 1, [a], q1, b, Late(id, 1, 8.3, 10.5), [a, b]);
  }

  lemma FourSamples(id: nat)
    requires Wf(Last(id))
    ensures Wf(Late(id, 3, 8.6, 10.5))
    ensures Sample(Last(id), 4, AsWritten) ==
            ([EndEvent(id, 3, 9.4), StartEvent(id, 8.3), EndEvent(id, 1, 8.5), EndEvent(id, 0, 8.6)],
             Late(id, 3, 8.6, 10.5))
  {
    hide *;
    var a, b, c, d := EndEvent(id, 3, 9.4), StartEvent(id, 8.3), EndEvent(id, 1, 8.5), EndEvent(id, 0, 8.6);
    LastSizes(id);
    TwoSamples(id);
    LastRemoval3(id);
    OneMore(Last(id), 2, [a, b], Late(id, 1, 8.3, 10.5), c, Late(id, 2, 8.5, 10.5), [a, b, c]);
    LastRemoval4(id);
    OneMore(Last(id), 3, [a, b, c], Late(id, 2, 8.5, 10.5), d, Late(id, 3, 8.6, 10.5), [a, b, c, d]);
  }

  lemma AllSamples(id: nat)
    requires Wf(Last(id))
    ensures Last(id).size == 5 && Sample(Last(id), 5, AsWritten).0 == LastSamples(id)
  {
    hide Wf, Dequeue, Get, Sample, Last, Late;
    var a, b, c, d := EndEvent(id, 3, 9.4), StartEvent(id, 8.3), EndEvent(id, 1, 8.5), EndEvent(id, 0, 8.6);
    LastSizes(id);
    FourSamples(id);
    LastRemoval5(id);
    OneMore(Last(id), 4, [a, b, c, d], Late(id, 3, 8.6, 10.5), EndEvent(id, 2, 12.6),
            Late(id, 4, 12.6, 12.5), LastSamples(id));
  }

  lemma LastWidth(id: nat)
    ensures WidthOf(LastSamples(id)) == Some(-0.8)
  {
    var s := LastSamples(id);
    GapSumTelescopes(s, 5);
    assert GapLimit(s) == 1.6;
    assert SmallGaps(s, 2, 1.6) == (-1.1, 1);
    assert SmallGaps(s, 3, 1.6) == (-0.9, 2);
    assert SmallGaps(s, 4, 1.6) == (-0.8, 3);
    assert SmallGaps(s, 5, 1.6) == (-0.8, 3);
  }

  ghost function BeforeLast(id: nat): Cal<Msg> {
    Small([EndEvent(id, 1, 8.5), EndEvent(id, 0, 8.6), EndEvent(id, 2, 12.6)], [EndEvent(id, 3, 9.4)], 1, 7.5, 9.5)
  }

  lemma LastEnqueue(id: nat)
    requires Wf(BeforeLast(id))
    ensures Enqueue(BeforeLast(id), StartEvent(id, 8.3)) == Last(id) && Wf(Last(id)) && |Last(id).buckets| == 2
  {
    CallBuckets();
    var s, e := [EndEvent(id, 1, 8.5), EndEvent(id, 0, 8.6), EndEvent(id, 2, 12.6)], StartEvent(id, 8.3);
    assert Insert(s, e) == [e] + s;
    assert [e] + s == [e, EndEvent(id, 1, 8.5), EndEvent(id, 0, 8.6), EndEvent(id, 2, 12.6)];
    hide Wf, Insert, Virtual;
    SmallEnqueue(s, [EndEvent(id, 3, 9.4)], 1, 7.5, 9.5, e);
  }

  lemma LastPut(id: nat)
    requires Wf(BeforeLast(id))
    ensures Put(BeforeLast(id), StartEvent(id, 8.3), AsWritten) == None
    ensures Wf(Last(id)) && NewWidth(Last(id), AsWritten) == Some(-0.8)
  {
    hide Wf, Sample, WidthOf, Insert, AfterSampling, Last, LastSamples;
    LastEnqueue(id);
    AllSamples(id);
    LastWidth(id);
  }

  lemma Process4(id: nat)
    ensures Process(Some(Cell4()), StartEvent(id, 7.5).payload, C4) ==
            Done(Cell5(), [EndEvent(id, 3, 9.4), StartEvent(id, 8.3)], 0)
  {
    FreeOnes();
    assert {0, 1, 2} + {3} == {0, 1, 2, 3};
    hide FirstFree, RecomputeTa;
  }

  /** A turn whose puts fail. */
  lemma ArrivalFails(s: Sim, e: Event<Msg>, q1: Cal<Msg>, d: Draws, state: State, a: Event<Msg>, b: Event<Msg>)
    requires Ready(s) && Drawn(d) && s.queue.size > 0 && Calendar.Get(s.queue, AsWritten) == Some((e, q1))
    requires Dated(e.payload) && e.payload.receiver == s.id && Wf(q1)
    requires Process(s.state, e.payload, d) == Done(state, [a, b], 0) && a.priority >= 0.0 && b.priority >= 0.0
    requires PutAll(q1, [a, b], AsWritten) == None
    requires a.priority != b.priority && forall x | x in Bag(q1) :: x.priority != a.priority && x.priority != b.priority
    ensures SimTurn(s, d, AsWritten) == None && TurnTieFree(s, d, AsWritten)
  {
    hide Process, PutAll, Wf, Calendar.Get, SimTurn, Ready, Bag;
    PairNotBefore(a, b);
    TurnIsHandle(s, e, q1, d);
    NoTies(Bag(q1), a, b);
    PutsAre(s, e, d, [a, b]);
  }

  lemma Fifth(id: nat)
    requires Ready(At4(id))
    ensures SimTurn(At4(id), C4, AsWritten) == None && TurnTieFree(At4(id), C4, AsWritten)
    ensures Wf(Last(id)) && NewWidth(Last(id), AsWritten) == Some(-0.8)
  {
    hide Calendar.Get, PutAll, SimTurn, Put, Bag, Virtual, Wf, Dequeue, Process;
    hide Ready, Insert, TurnTieFree, Last, NewWidth;
    CallBuckets();
    Process4(id);
    var e, x, y, z := StartEvent(id, 7.5), EndEvent(id, 1, 8.5), EndEvent(id, 0, 8.6), EndEvent(id, 2, 12.6);
    var a, b := EndEvent(id, 3, 9.4), StartEvent(id, 8.3);
    ReadyWf(At4(id));
    assert [e][1..] == [];
    SmallDirect([x, y, z], [e], 1, 7.3, 7.5, 1);
    var q1 := Small([x, y, z], [], 1, 7.5, 9.5);
    GetWf(At4(id).queue, e, q1);
    OneInserted(a);
    OddPut([x, y, z], [], 1, 7.5, 9.5, a, [a]);
    LastPut(id);
    PutAllTwo(q1, a, b);
    SmallBag([x, y, z], [], 1, 7.5, 9.5);
    ArrivalFails(At4(id), e, q1, C4, Cell5(), a, b);
  }

  lemma AllRunning(id: nat)
    ensures At1(id).status == Running && At2(id).status == Running && At3(id).status == Running
    ensures At4(id).status == Running
    ensures Drawn(C0) && Drawn(C1) && Drawn(C2) && Drawn(C3) && Drawn(C4)
  {
  }

  lemma ReachedTwo(id: nat, garbage: real)
    ensures ReachedBy([SimStart(id, garbage), At1(id), At2(id)], [C0, C1], At2(id))
  {
    var s0, s1, s2 := SimStart(id, garbage), At1(id), At2(id);
    hide *;
    AllRunning(id);
    Reached0(id, garbage);
    Reached([s0], [], s0);
    First(id, garbage);
    Grown([s0], [], s0, C0, s1);
    assert [s0] + [s1] == [s0, s1] && [] + [C0] == [C0];
    Reached([s0, s1], [C0], s1);
    Second(id);
    Grown([s0, s1], [C0], s1, C1, s2);
    assert [s0, s1] + [s2] == [s0, s1, s2] && [C0] + [C1] == [C0, C1];
  }

  lemma ReachedThree(id: nat, garbage: real)
    ensures ReachedBy([SimStart(id, garbage), At1(id), At2(id), At3(id)], [C0, C1, C2], At3(id))
  {
    var s0, s1, s2, s3 := SimStart(id, garbage), At1(id), At2(id), At3(id);
    hide *;
    AllRunning(id);
    ReachedTwo(id, garbage);
    Reached([s0, s1, s2], [C0, C1], s2);
    Third(id);
    Grown([s0, s1, s2], [C0, C1], s2, C2, s3);
    assert [s0, s1, s2] + [s3] == [s0, s1, s2, s3] && [C0, C1] + [C2] == [C0, C1, C2];
  }

  lemma ReachedFour(id: nat, garbage: real)
    ensures ReachedBy([SimStart(id, garbage), At1(id), At2(id), At3(id), At4(id)], [C0, C1, C2, C3], At4(id))
  {
    var s0, s1, s2, s3, s4 := SimStart(id, garbage), At1(id), At2(id), At3(id), At4(id);
    hide *;
    AllRunning(id);
    ReachedThree(id, garbage);
    Reached([s0, s1, s2, s3], [C0, C1, C2], s3);
    Fourth(id);
    Grown([s0, s1, s2, s3], [C0, C1, C2], s3, C3, s4);
    assert [s0, s1, s2, s3] + [s4] == [s0, s1, s2, s3, s4] && [C0, C1, C2] + [C3] == [C0, C1, C2, C3];
  }

  /** After four turns without ties the fifth, also without, computes a width of -0.8 and with it, for
      the time 7.5 reached, the cursor -1 in a calendar of four buckets. */
  lemma ResizeFails(id: nat, garbage: real)
    ensures TieFreeRun([SimStart(id, garbage), At1(id), At2(id), At3(id), At4(id)], [C0, C1, C2, C3])
    ensures Ready(At4(id)) && Drawn(C4) && TurnTieFree(At4(id), C4, AsWritten)
    ensures SimTurn(At4(id), C4, AsWritten) == None
    ensures Wf(Last(id)) && NewWidth(Last(id), AsWritten) == Some(-0.8) && CBucket(7.5, -0.8, 4) == -1
  {
    var s0, s1, s2, s3, s4 := SimStart(id, garbage), At1(id), At2(id), At3(id), At4(id);
    hide *;
    CursorInFront();
    AllRunning(id);
    ReachedFour(id, garbage);
    Reached([s0, s1, s2, s3, s4], [C0, C1, C2, C3], s4);
    Fifth(id);
  }

  lemma CursorInFront()
    ensures CBucket(7.5, -0.8, 4) == -1
  {
  }
}
