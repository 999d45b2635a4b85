/** The cell on its calendar queue: the loop of main.c with the order of events decided by the queue. */
module Simulation {
  import opened Events
  import opened Calendar
  import opened CalendarDequeue
  import opened CalendarExact
  import opened CalendarRun
  import opened Cell
  import opened ChannelBits
  import opened Options

  datatype Sim = Sim(id: nat, state: Option<State>, queue: Cal<Msg>, status: Status)

  /** The same state with the queue forgotten but for its contents. */
  ghost function Contents(s: Sim): System {
    System(s.id, s.state, Bag(s.queue), s.status)
  }

  /** Put the events in turn; None once a put fails. */
  ghost function PutAll(q: Cal<Msg>, puts: seq<Event<Msg>>, variant: Variant): (r: Option<Cal<Msg>>)
    requires Wf(q) && forall e | e in puts :: e.priority >= 0.0
    ensures r.Some? ==> Wf(r.value) && Bag(r.value) == Bag(q) + multiset(puts) && r.value.lastPrio == q.lastPrio
    decreases |puts|
  {
    hide Wf, Put, Bag, Pending, MustGrow;
    if puts == [] then Some(q)
    else
      match Put(q, puts[0], variant)
      case None => None
      case Some(q1) =>
        FirstOff(puts);
        PutAll(q1, puts[1..], variant)
  }

  lemma FirstOff(puts: seq<Event<Msg>>)
    requires puts != []
    ensures multiset(puts) == multiset{puts[0]} + multiset(puts[1..])
    ensures forall e | e in puts[1..] :: e in puts
  {
    assert puts == [puts[0]] + puts[1..];
  }

  lemma PutAllOne(q: Cal<Msg>, e: Event<Msg>)
    requires Wf(q) && e.priority >= 0.0
    ensures PutAll(q, [e], AsWritten) == Put(q, e, AsWritten)
  {
    hide Put, Wf;
  }

  lemma PutAllTwo(q: Cal<Msg>, e: Event<Msg>, f: Event<Msg>)
    requires Wf(q) && e.priority >= 0.0 && f.priority >= 0.0
    ensures PutAll(q, [e, f], AsWritten) ==
            match Put(q, e, AsWritten) case None => None case Some(q1) => Put(q1, f, AsWritten)
  {
    assert [e, f][1..] == [f];
    hide Put, Wf;
    if Put(q, e, AsWritten).Some? { PutAllOne(Put(q, e, AsWritten).value, f); }
  }

  ghost predicate Ready(s: Sim) {
    && Wf(s.queue) && s.status == Running
    && forall e | e in Bag(s.queue) :: Dated(e.payload)
  }

  lemma PutsLater(state: Option<State>, msg: Msg, d: Draws)
    requires Dated(msg) && Drawn(d) && Process(state, msg, d).Done?
    ensures forall e | e in Process(state, msg, d).puts ::
              e.priority == e.payload.timestamp && e.priority >= if msg.kind == INIT then 0.0 else msg.timestamp
  {
    hide RecomputeTa, FirstFree;
  }

  /** Handling the event just taken from the queue, which is now `q1`. */
  ghost function Handle(s: Sim, e: Event<Msg>, q1: Cal<Msg>, d: Draws, variant: Variant): (r: Option<Sim>)
    requires Wf(q1) && Dated(e.payload) && Drawn(d)
    ensures r.Some? ==> Wf(r.value.queue)
  {
    hide Wf, PutAll, Process;
    if e.payload.receiver != s.id then Some(s.(queue := q1, status := WrongReceiver))
    else
      match Process(s.state, e.payload, d)
      case Abort => Some(s.(queue := q1, status := Aborted))
      case Done(state, puts, ret) =>
        PutsLater(s.state, e.payload, d);
        match PutAll(q1, puts, variant)
        case None => None
        case Some(q2) => Some(Sim(s.id, Some(state), q2, if ret != 0 then Finished else Running))
  }

  /** One turn of the loop; None once a resize computes a width that is not a positive number. */
  ghost function SimTurn(s: Sim, d: Draws, variant: Variant): (r: Option<Sim>)
    requires Ready(s) && Drawn(d)
    ensures r.Some? ==> Wf(r.value.queue)
  {
    hide Calendar.Get, Handle;
    if s.queue.size == 0 then Some(s.(status := NoEvents))
    else
      match Calendar.Get(s.queue, variant)
      case None => None
      case Some((e, q1)) => Handle(s, e, q1, d, variant)
  }

  /** The event the queue would hand out. */
  ghost function NextEvent(s: Sim, variant: Variant): Option<Event<Msg>>
    requires Wf(s.queue)
  {
    if s.queue.size == 0 then None else Some(Dequeue(s.queue, variant).0)
  }

  ghost function SimStart(id: nat, garbage: real): Sim {
    Sim(id, None, Enqueue(InitialCal(), InitEvent(id, garbage)), Running)
  }

  /** What the loop does with its queue is one of the turns of the closed system. */
  lemma TurnProjects(s: Sim, d: Draws, variant: Variant)
    requires Ready(s) && Drawn(d) && SimTurn(s, d, variant).Some?
    ensures var next := NextEvent(s, variant);
            && Choice(Contents(s), next)
            && (next.Some? ==> Dated(next.value.payload))
            && Contents(SimTurn(s, d, variant).value) == Turn(Contents(s), next, d)
  {
    SizeIsBag(s.queue);
    if s.queue.size > 0 {
      GetTakes(s.queue, variant);
      var (e, q1) := Calendar.Get(s.queue, variant).value;
      hide Bag, Calendar.Get, Dequeue, Handle, Turn;
      HandleProjects(s, e, q1, d, variant);
    }
  }

  lemma HandleProjects(s: Sim, e: Event<Msg>, q1: Cal<Msg>, d: Draws, variant: Variant)
    requires Wf(q1) && Dated(e.payload) && Drawn(d) && Handle(s, e, q1, d, variant).Some?
    requires s.status == Running && Bag(q1) == Bag(s.queue) - multiset{e}
    ensures Contents(Handle(s, e, q1, d, variant).value) == Turn(Contents(s), Some(e), d)
  {
    hide Wf, PutAll, Process, Bag;
  }

  lemma SizeIsBag(q: Cal<Msg>)
    requires Wf(q)
    ensures q.size == |Bag(q)| && (q.size == 0 ==> Bag(q) == multiset{})
  {
  }

  lemma GetTakes(q: Cal<Msg>, variant: Variant)
    requires Wf(q) && q.size > 0
    ensures Calendar.Get(q, variant).Some? ==>
              var (e, q1) := Calendar.Get(q, variant).value;
              e == Dequeue(q, variant).0 && Bag(q1) == Bag(q) - multiset{e}
    ensures Dequeue(q, variant).0 in Bag(q)
  {
    hide Wf, Dequeue, Resize, Bag;
  }

  lemma TurnIsHandle(s: Sim, e: Event<Msg>, q1: Cal<Msg>, d: Draws)
    requires Ready(s) && Drawn(d) && s.queue.size > 0 && Calendar.Get(s.queue, AsWritten) == Some((e, q1))
    ensures Wf(q1) && Dated(e.payload) && SimTurn(s, d, AsWritten) == Handle(s.(queue := q1), e, q1, d, AsWritten)
  {
    hide Calendar.Get, Process, PutAll;
  }

  // ---------------------------------------------------------------- closed in every run

  ghost predicate SimFollows(s: Sim, d: Draws, s': Sim, variant: Variant) {
    Ready(s) && Drawn(d) && SimTurn(s, d, variant) == Some(s')
  }

  ghost predicate IsSimRun(run: seq<Sim>, draws: seq<Draws>, variant: Variant) {
    && |run| == |draws| + 1
    && (exists id, garbage :: run[0] == SimStart(id, garbage))
    && forall i :: 0 <= i < |draws| ==> SimFollows(run[i], draws[i], run[i + 1], variant)
  }

  ghost function AllContents(run: seq<Sim>): seq<System> {
    seq(|run|, i requires 0 <= i < |run| => Contents(run[i]))
  }

  /** Whatever order the queue comes up with, a run of the loop is a run of the closed system, so
      everything proved of those holds of it. */
  lemma SimRunIsRun(run: seq<Sim>, draws: seq<Draws>, variant: Variant)
    requires IsSimRun(run, draws, variant)
    ensures IsRun(AllContents(run))
  {
    hide SimStart, Start, SimFollows, Follows, Contents;
    var all := AllContents(run);
    var id, garbage :| run[0] == SimStart(id, garbage);
    StartContents(id, garbage);
    forall i | 0 <= i < |all| - 1 ensures Follows(all[i], all[i + 1]) {
      FollowsProjects(run[i], draws[i], run[i + 1], variant);
    }
  }

  lemma StartContents(id: nat, garbage: real)
    ensures Contents(SimStart(id, garbage)) == Start(id, garbage)
  {
    hide Enqueue;
  }

  lemma FollowsProjects(s: Sim, d: Draws, s': Sim, variant: Variant)
    requires SimFollows(s, d, s', variant)
    ensures Follows(Contents(s), Contents(s'))
  {
    TurnProjects(s, d, variant);
    hide Turn, SimTurn, Bag, Wf, Dequeue;
    var next := NextEvent(s, variant);
    assert Choice(Contents(s), next) && Contents(s') == Turn(Contents(s), next, d);
  }

  /** The queue of the running program never holds more than one event beyond the calls under way,
      and is never found empty. */
  lemma SimQueueBounded(run: seq<Sim>, draws: seq<Draws>, variant: Variant, i: nat)
    requires IsSimRun(run, draws, variant) && 0 < i < |run|
    ensures run[i].status == Running || run[i].status == Finished
    ensures Wf(run[i].queue) && 1 <= run[i].queue.size <= 1 + CHANNELS_PER_CELL
  {
    SimRunIsRun(run, draws, variant);
    RunStaysClosed(AllContents(run), i);
    ClosedMeans(AllContents(run)[i]);
    assert SimFollows(run[i - 1], draws[i - 1], run[i - 1 + 1], variant);
    TurnProjects(run[i - 1], draws[i - 1], variant);
    SizeIsBag(run[i].queue);
  }

  /** A run can go on as long as its loop does. */
  lemma RunReady(run: seq<Sim>, draws: seq<Draws>, variant: Variant)
    requires IsSimRun(run, draws, variant) && run[|draws|].status == Running
    ensures Ready(run[|draws|])
  {
    var n := |draws|;
    if n == 0 {
      var id, garbage :| run[0] == SimStart(id, garbage);
      StartReady(id, garbage);
    } else {
      SimQueueBounded(run, draws, variant, n);
      SimRunIsRun(run, draws, variant);
      RunStaysClosed(AllContents(run), n);
      ClosedDated(AllContents(run)[n]);
    }
  }

  lemma StartReady(id: nat, garbage: real)
    ensures Ready(SimStart(id, garbage))
  {
    var s := SimStart(id, garbage);
    StartContents(id, garbage);
    hide Enqueue, InitialCal;
    assert Bag(s.queue) == multiset{InitEvent(id, garbage)};
  }

  lemma ClosedDated(sys: System)
    requires Closed(sys)
    ensures forall e | e in sys.pending :: Dated(e.payload)
  {
    hide Agrees, Balanced;
    forall e | e in sys.pending ensures Dated(e.payload) {
      var start, ends :| Agrees(sys.id, sys.state.value.busy, sys.pending, start, ends);
      NextKinds(sys, Some(e), start, ends);
    }
  }

  lemma RunBegins(id: nat, garbage: real, variant: Variant)
    ensures IsSimRun([SimStart(id, garbage)], [], variant)
  {
    hide SimStart;
  }

  lemma RunExtends(run: seq<Sim>, draws: seq<Draws>, variant: Variant, d: Draws, s: Sim)
    requires IsSimRun(run, draws, variant) && SimFollows(run[|draws|], d, s, variant)
    ensures IsSimRun(run + [s], draws + [d], variant)
  {
    hide SimFollows;
    assert (run + [s])[0] == run[0];
    forall i | 0 <= i < |draws + [d]|
      ensures SimFollows((run + [s])[i], (draws + [d])[i], (run + [s])[i + 1], variant)
    {
      if i < |draws| { assert SimFollows(run[i], draws[i], run[i + 1], variant); }
    }
  }

  // ---------------------------------------------------------------- time

  /** No event put ties with one pending by then. */
  ghost predicate TieFree(m: multiset<Event<Msg>>, puts: seq<Event<Msg>>)
    decreases |puts|
  {
    puts == [] ||
    ((forall x | x in m :: x.priority != puts[0].priority) && TieFree(m + multiset{puts[0]}, puts[1..]))
  }

  ghost predicate PutsSafe(q: Cal<Msg>, puts: seq<Event<Msg>>, variant: Variant)
    requires Wf(q) && forall e | e in puts :: e.priority >= 0.0
    decreases |puts|
  {
    puts == [] ||
    (PutGapsSafe(q, puts[0], variant) &&
     (Put(q, puts[0], variant).Some? ==> PutsSafe(Put(q, puts[0], variant).value, puts[1..], variant)))
  }

  /** The events this turn puts. */
  ghost function TurnPuts(s: Sim, e: Event<Msg>, d: Draws): (puts: seq<Event<Msg>>)
    requires Dated(e.payload) && Drawn(d)
    ensures forall x | x in puts :: x.priority >= 0.0
  {
    if e.payload.receiver != s.id || Process(s.state, e.payload, d).Abort? then []
    else
      PutsLater(s.state, e.payload, d);
      Process(s.state, e.payload, d).puts
  }

  ghost predicate TurnTieFree(s: Sim, d: Draws, variant: Variant)
    requires Ready(s) && Drawn(d)
  {
    s.queue.size > 0 && Calendar.Get(s.queue, variant).Some? ==>
      var (e, q1) := Calendar.Get(s.queue, variant).value;
      TieFree(Bag(q1), TurnPuts(s, e, d))
  }

  /** No direct search of this turn spoils the gap. */
  ghost predicate TurnSafe(s: Sim, d: Draws, variant: Variant)
    requires Ready(s) && Drawn(d)
  {
    s.queue.size > 0 ==>
      && GetGapsSafe(s.queue, variant)
      && (Calendar.Get(s.queue, variant).Some? ==>
            var (e, q1) := Calendar.Get(s.queue, variant).value;
            PutsSafe(q1, TurnPuts(s, e, d), variant))
  }

  ghost predicate NotBefore(puts: seq<Event<Msg>>, time: real) {
    forall e | e in puts :: e.priority >= time
  }

  lemma PairNotBefore(e: Event<Msg>, f: Event<Msg>)
    requires e.priority >= 0.0 && f.priority >= 0.0
    ensures NotBefore([e, f], 0.0) && NotBefore([f], 0.0)
  {
  }

  lemma {:induction false} GoodPutAll(q: Cal<Msg>, puts: seq<Event<Msg>>, variant: Variant)
    requires Good(q) && NotBefore(puts, q.lastPrio) && NotBefore(puts, 0.0)
    requires TieFree(Bag(q), puts) && PutsSafe(q, puts, variant)
    ensures PutAll(q, puts, variant).Some? && Good(PutAll(q, puts, variant).value)
    decreases |puts|
  {
    if puts != [] {
      FirstPut(q, puts, variant);
      hide *;
      GoodPutAll(Put(q, puts[0], variant).value, puts[1..], variant);
    }
  }

  lemma FirstPut(q: Cal<Msg>, puts: seq<Event<Msg>>, variant: Variant)
    requires Good(q) && NotBefore(puts, q.lastPrio) && NotBefore(puts, 0.0) && puts != []
    requires TieFree(Bag(q), puts) && PutsSafe(q, puts, variant)
    ensures puts[0].priority >= 0.0 && Put(q, puts[0], variant).Some?
    ensures var q1 := Put(q, puts[0], variant).value;
            && Good(q1) && NotBefore(puts[1..], q1.lastPrio) && NotBefore(puts[1..], 0.0)
            && TieFree(Bag(q1), puts[1..]) && PutsSafe(q1, puts[1..], variant)
            && PutAll(q, puts, variant) == PutAll(q1, puts[1..], variant)
  {
    assert Wf(q);
    hide Good, Wf, Put, Bag, PutGapsSafe;
    assert puts[0] in puts;
    assert Timely(Bag(q), q.lastPrio, puts[0]);
    GoodPut(q, puts[0], variant);
  }

  /** Time as the cell and its queue see it: the clock is the priority last handed out. */
  ghost predicate Timed(s: Sim) {
    && Good(s.queue)
    && AllStamped(Bag(s.queue))
    && s.queue.lastPrio == if s.state.Some? then s.state.value.lvt else 0.0
  }

  ghost predicate Stamped(e: Event<Msg>) {
    e.priority == (if e.payload.kind == INIT then 0.0 else e.payload.timestamp) && e.priority >= 0.0
  }

  ghost predicate AllStamped(m: multiset<Event<Msg>>) {
    forall e | e in m :: Stamped(e)
  }

  lemma StampedPuts(m: multiset<Event<Msg>>, puts: seq<Event<Msg>>)
    requires AllStamped(m) && forall e | e in puts :: Stamped(e)
    ensures AllStamped(m + multiset(puts))
  {
  }

  lemma StampedTaken(m: multiset<Event<Msg>>, e: Event<Msg>)
    requires AllStamped(m)
    ensures AllStamped(m - multiset{e}) && (e in m ==> Stamped(e))
  {
  }

  /** In a turn without ties and without spoiled gaps every resize succeeds, the event handled is the
      earliest pending, the clock moves to its time and does not move back. */
  lemma TurnInOrder(s: Sim, d: Draws, variant: Variant)
    requires Ready(s) && Drawn(d) && Timed(s) && TurnTieFree(s, d, variant) && TurnSafe(s, d, variant)
    ensures SimTurn(s, d, variant).Some?
    ensures s.queue.size > 0 ==>
              var e := NextEvent(s, variant).value;
              IsMin(e, Bag(s.queue)) && e.priority >= s.queue.lastPrio
    ensures var s' := SimTurn(s, d, variant).value;
            s'.status == Running || s'.status == Finished ==>
              && s.queue.size > 0 && Timed(s') && s'.state.Some?
              && s'.queue.lastPrio == NextEvent(s, variant).value.priority
  {
    if s.queue.size > 0 {
      GotInOrder(s, d, variant);
      var (e, q1) := Calendar.Get(s.queue, variant).value;
      hide Good, Wf, Bag, Calendar.Get, Dequeue, AllStamped, IsMin, TieFree, PutsSafe, Handle;
      hide GetGapsSafe, Ready, TurnTieFree, TurnSafe;
      HandleInOrder(s, e, q1, d, variant);
    }
  }

  lemma GotInOrder(s: Sim, d: Draws, variant: Variant)
    requires Ready(s) && Drawn(d) && Timed(s) && TurnTieFree(s, d, variant) && TurnSafe(s, d, variant)
    requires s.queue.size > 0
    ensures Calendar.Get(s.queue, variant).Some?
    ensures var (e, q1) := Calendar.Get(s.queue, variant).value;
            && Good(q1) && Dated(e.payload) && Stamped(e) && q1.lastPrio == e.priority && AllStamped(Bag(q1))
            && TieFree(Bag(q1), TurnPuts(s, e, d)) && PutsSafe(q1, TurnPuts(s, e, d), variant)
            && NextEvent(s, variant) == Some(e) && IsMin(e, Bag(s.queue)) && e.priority >= s.queue.lastPrio
            && SimTurn(s, d, variant) == Handle(s, e, q1, d, variant)
  {
    hide Good, Bag, Calendar.Get, Dequeue, AllStamped, IsMin, TieFree, PutsSafe, Handle, GetGapsSafe, TurnPuts, Stamped;
    GoodGet(s.queue, variant);
    GetTakes(s.queue, variant);
    StampedTaken(Bag(s.queue), Calendar.Get(s.queue, variant).value.0);
  }

  lemma HandleInOrder(s: Sim, e: Event<Msg>, q1: Cal<Msg>, d: Draws, variant: Variant)
    requires Good(q1) && Drawn(d) && Dated(e.payload) && Stamped(e) && q1.lastPrio == e.priority
    requires AllStamped(Bag(q1))
    requires TieFree(Bag(q1), TurnPuts(s, e, d)) && PutsSafe(q1, TurnPuts(s, e, d), variant)
    ensures Handle(s, e, q1, d, variant).Some?
    ensures var s' := Handle(s, e, q1, d, variant).value;
            s'.status == Running || s'.status == Finished ==>
              Timed(s') && s'.state.Some? && s'.queue.lastPrio == e.priority
  {
    assert Wf(q1);
    if e.payload.receiver == s.id && Process(s.state, e.payload, d).Done? {
      PutsLater(s.state, e.payload, d);
      ClockMoves(s.state, e.payload, d);
      var puts := Process(s.state, e.payload, d).puts;
      hide Process, Good, Wf, Bag, PutAll, TieFree, PutsSafe, AllStamped;
      StampedPuts(Bag(q1), puts);
      assert puts == TurnPuts(s, e, d);
      GoodPutAll(q1, puts, variant);
    }
  }

  lemma ClockMoves(state: Option<State>, msg: Msg, d: Draws)
    requires Dated(msg) && Process(state, msg, d).Done?
    ensures Process(state, msg, d).state.lvt == if msg.kind == INIT then 0.0 else msg.timestamp
    ensures forall e | e in Process(state, msg, d).puts :: e.payload.kind != INIT
  {
    hide RecomputeTa, FirstFree;
  }

  ghost predicate OrderlyTurn(s: Sim, d: Draws, variant: Variant) {
    Ready(s) && Drawn(d) && TurnTieFree(s, d, variant) && TurnSafe(s, d, variant)
  }

  /** Turn `i` handles the earliest pending event, and the clock does not run backwards. */
  ghost predicate InOrder(s: Sim, s': Sim, variant: Variant) {
    && Wf(s.queue) && Timed(s) && Timed(s')
    && s.queue.size > 0 && IsMin(NextEvent(s, variant).value, Bag(s.queue))
    && s'.state.Some? && s'.state.value.lvt == NextEvent(s, variant).value.priority
    && (s.state.Some? ==> s'.state.value.lvt >= s.state.value.lvt)
  }

  lemma StartTimed(id: nat, garbage: real)
    ensures Ready(SimStart(id, garbage)) && Timed(SimStart(id, garbage))
  {
    InitialGood();
    hide Good, Bag, InitialCal, Enqueue, Timed, Ready;
    TimedFrom(InitialCal(), id, garbage);
  }

  lemma InitialGood()
    ensures Good(InitialCal<Msg>()) && Bag(InitialCal<Msg>()) == multiset{} && InitialCal<Msg>().lastPrio == 0.0
  {
    InitialRepresents<Msg>();
  }

  lemma TimedFrom(q: Cal<Msg>, id: nat, garbage: real)
    requires Good(q) && Wf(q) && Bag(q) == multiset{} && q.lastPrio == 0.0
    ensures var s := Sim(id, None, Enqueue(q, InitEvent(id, garbage)), Running); Ready(s) && Timed(s)
  {
    hide Good, Wf, Bag, Enqueue;
    GoodEnqueue(q, InitEvent(id, garbage));
    assert Bag(Enqueue(q, InitEvent(id, garbage))) == multiset{InitEvent(id, garbage)};
  }

  lemma FirstTimed(run: seq<Sim>, draws: seq<Draws>, variant: Variant)
    requires IsSimRun(run, draws, variant)
    ensures run != [] && Timed(run[0])
  {
    hide SimStart, SimFollows, Timed;
    var id, garbage :| run[0] == SimStart(id, garbage);
    StartTimed(id, garbage);
  }

  lemma InOrderTimed(s: Sim, s': Sim, variant: Variant)
    requires InOrder(s, s', variant)
    ensures Timed(s')
  {
    hide Timed, Wf, Bag, IsMin;
  }

  /** Simulated time never runs backwards: in a run of the program without ties and without spoiled
      gaps, every event handled is the earliest pending one and the cell's clock never decreases. */
  lemma {:induction false} RunInOrder(run: seq<Sim>, draws: seq<Draws>, variant: Variant, i: nat)
    requires IsSimRun(run, draws, variant) && i < |draws|
    requires forall k :: 0 <= k <= i ==> OrderlyTurn(run[k], draws[k], variant)
    ensures InOrder(run[i], run[i + 1], variant)
  {
    hide IsSimRun, SimFollows, OrderlyTurn, InOrder, Timed;
    RunStep(run, draws, variant, i);
    if i == 0 {
      FirstTimed(run, draws, variant);
    } else {
      RunInOrder(run, draws, variant, i - 1);
      InOrderTimed(run[i - 1], run[i - 1 + 1], variant);
    }
    SimQueueBounded(run, draws, variant, i + 1);
    InOrderStep(run[i], draws[i], run[i + 1], variant);
  }

  /** The turn finds its queue such that a get hands out a minimum. */
  ghost predicate GetMeets(s: Sim) {
    Wf(s.queue) && Meets(s.queue)
  }

  /** The turn handles an earliest pending event. */
  ghost predicate HandlesMinimum(s: Sim, variant: Variant) {
    Wf(s.queue) && s.queue.size > 0 && IsMin(NextEvent(s, variant).value, Bag(s.queue))
  }

  /** For any run, ties, gaps and all: a turn handles an earliest pending event exactly when its get
      meets the criterion. */
  lemma RunMinimumIff(run: seq<Sim>, draws: seq<Draws>, variant: Variant, i: nat)
    requires IsSimRun(run, draws, variant) && i < |draws|
    ensures HandlesMinimum(run[i], variant) <==> GetMeets(run[i])
  {
    hide IsSimRun, Bag, Dequeue, Wf, IsMin, NothingAdmitted, AdmittedFirst;
    RunStep(run, draws, variant, i);
    NotEmpty(run, draws, variant, i);
    DequeueMinimumIff(run[i].queue, variant);
  }

  lemma NotEmpty(run: seq<Sim>, draws: seq<Draws>, variant: Variant, i: nat)
    requires IsSimRun(run, draws, variant) && i < |run|
    ensures Wf(run[i].queue) && run[i].queue.size > 0
  {
    if i == 0 {
      var id, garbage :| run[0] == SimStart(id, garbage);
      StartReady(id, garbage);
      StartContents(id, garbage);
      SizeIsBag(run[0].queue);
    } else {
      SimQueueBounded(run, draws, variant, i);
    }
  }

  /** The event a turn of a run handles. */
  lemma NextStamped(run: seq<Sim>, draws: seq<Draws>, variant: Variant, i: nat) returns (e: Event<Msg>)
    requires IsSimRun(run, draws, variant) && i < |draws|
    ensures |run| == |draws| + 1 && SimFollows(run[i], draws[i], run[i + 1], variant)
    ensures Wf(run[i].queue) && run[i].queue.size > 0
    ensures run[i + 1].status == Running || run[i + 1].status == Finished
    ensures NextEvent(run[i], variant) == Some(e) && Stamped(e) && (i > 0 ==> e.payload.kind != INIT)
    ensures e in Bag(run[i].queue)
  {
    hide *;
    RunStep(run, draws, variant, i);
    NotEmpty(run, draws, variant, i);
    SimQueueBounded(run, draws, variant, i + 1);
    e := NextPending(run[i], variant);
    if i == 0 { FirstStamped(run, draws, variant, e); } else { LaterStamped(run, draws, variant, i, e); }
  }

  lemma RunStep(run: seq<Sim>, draws: seq<Draws>, variant: Variant, i: nat)
    requires IsSimRun(run, draws, variant) && i < |draws|
    ensures |run| == |draws| + 1 && SimFollows(run[i], draws[i], run[i + 1], variant)
  {
    hide SimFollows, SimStart;
  }

  lemma NextPending(s: Sim, variant: Variant) returns (e: Event<Msg>)
    requires Wf(s.queue) && s.queue.size > 0
    ensures NextEvent(s, variant) == Some(e) && e in Bag(s.queue)
  {
    hide Wf, Bag, Dequeue;
    GetTakes(s.queue, variant);
    e := NextEvent(s, variant).value;
  }

  lemma FirstStamped(run: seq<Sim>, draws: seq<Draws>, variant: Variant, e: Event<Msg>)
    requires IsSimRun(run, draws, variant) && e in Bag(run[0].queue)
    ensures Stamped(e)
  {
    hide SimFollows, SimStart, Bag;
    var id, garbage :| run[0] == SimStart(id, garbage);
    StartContents(id, garbage);
  }

  lemma LaterStamped(run: seq<Sim>, draws: seq<Draws>, variant: Variant, i: nat, e: Event<Msg>)
    requires IsSimRun(run, draws, variant) && 0 < i < |run| && e in Bag(run[i].queue)
    ensures Stamped(e) && e.payload.kind != INIT
  {
    hide IsSimRun, IsRun, Closed, Bag, Stamped;
    SimRunIsRun(run, draws, variant);
    RunStaysClosed(AllContents(run), i);
    ClosedNext(Contents(run[i]), e);
  }

  lemma ClosedNext(sys: System, e: Event<Msg>)
    requires Closed(sys) && e in sys.pending
    ensures Stamped(e) && e.payload.kind != INIT
  {
    hide Agrees, Balanced;
    var start, ends :| Agrees(sys.id, sys.state.value.busy, sys.pending, start, ends);
    NextKinds(sys, Some(e), start, ends);
  }

  /** The clock after a turn. */
  lemma Clocked(s: Sim, d: Draws, variant: Variant)
    requires Ready(s) && Drawn(d) && SimTurn(s, d, variant).Some? && s.queue.size > 0
    requires Stamped(NextEvent(s, variant).value)
    ensures var s' := SimTurn(s, d, variant).value;
            s'.status == Running || s'.status == Finished ==>
              && s'.state.Some? && s'.state.value.lvt == NextEvent(s, variant).value.priority
              && Dated(NextEvent(s, variant).value.payload)
              && Process(s.state, NextEvent(s, variant).value.payload, d).Done?
              && Bag(s'.queue) == Bag(s.queue) - multiset{NextEvent(s, variant).value} +
                                  multiset(Process(s.state, NextEvent(s, variant).value.payload, d).puts)
  {
    TurnProjects(s, d, variant);
    hide Bag, Dequeue, SimTurn, Wf, Process;
    var e := NextEvent(s, variant).value;
    if Process(s.state, e.payload, d).Done? { ClockMoves(s.state, e.payload, d); }
  }

  /** A turn that handles a minimum leaves nothing behind the clock. */
  lemma MinimumKeepsTime(s: Sim, d: Draws, variant: Variant)
    requires Ready(s) && Drawn(d) && SimTurn(s, d, variant).Some? && s.queue.size > 0
    requires Stamped(NextEvent(s, variant).value) && IsMin(NextEvent(s, variant).value, Bag(s.queue))
    ensures var s' := SimTurn(s, d, variant).value;
            s'.status == Running || s'.status == Finished ==>
              s'.state.Some? && forall x | x in Bag(s'.queue) :: x.priority >= s'.state.value.lvt
  {
    hide Bag, Dequeue, SimTurn, Wf, Process;
    Clocked(s, d, variant);
    var e, s' := NextEvent(s, variant).value, SimTurn(s, d, variant).value;
    if s'.status == Running || s'.status == Finished {
      PutsLater(s.state, e.payload, d);
      var puts := Process(s.state, e.payload, d).puts;
      forall x | x in Bag(s'.queue) ensures x.priority >= s'.state.value.lvt {
        if x !in Bag(s.queue) { assert x in puts; }
      }
    }
  }

  /** After a turn that handles an earliest pending event the clock does not run backwards, whatever
      ties and whatever gap there is. */
  lemma MinimaKeepTime(run: seq<Sim>, draws: seq<Draws>, variant: Variant, i: nat)
    requires IsSimRun(run, draws, variant) && i + 1 < |draws| && GetMeets(run[i])
    ensures run[i + 1].state.Some? && run[i + 2].state.Some?
    ensures run[i + 1].state.value.lvt <= run[i + 2].state.value.lvt
  {
    hide *;
    RunMinimumIff(run, draws, variant, i);
    var e := NextStamped(run, draws, variant, i);
    var f := NextStamped(run, draws, variant, i + 1);
    TwoTurns(run[i], draws[i], run[i + 1], draws[i + 1], run[i + 2], variant);
  }

  lemma TwoTurns(s: Sim, d: Draws, s1: Sim, d1: Draws, s2: Sim, variant: Variant)
    requires SimFollows(s, d, s1, variant) && SimFollows(s1, d1, s2, variant) && HandlesMinimum(s, variant)
    requires s2.status == Running || s2.status == Finished
    requires Stamped(NextEvent(s, variant).value)
    requires s1.queue.size > 0 && Wf(s1.queue) && Stamped(NextEvent(s1, variant).value)
    requires NextEvent(s1, variant).value in Bag(s1.queue)
    ensures s1.state.Some? && s2.state.Some? && s1.state.value.lvt <= s2.state.value.lvt
  {
    hide Bag, Dequeue, SimTurn, Wf, IsMin, Stamped;
    MinimumKeepsTime(s, d, variant);
    Clocked(s1, d1, variant);
  }

  lemma InOrderStep(s: Sim, d: Draws, s': Sim, variant: Variant)
    requires SimFollows(s, d, s', variant) && OrderlyTurn(s, d, variant) && Timed(s)
    requires s'.status == Running || s'.status == Finished
    ensures InOrder(s, s', variant)
  {
    hide Good, Wf, Bag, SimTurn, TurnTieFree, TurnSafe, Dequeue, IsMin, Drawn, AllStamped;
    TurnInOrder(s, d, variant);
  }

  /** Wherever such a run has got to, its queue and its clock agree. */
  lemma RunTimed(run: seq<Sim>, draws: seq<Draws>, variant: Variant)
    requires IsSimRun(run, draws, variant)
    requires forall k :: 0 <= k < |draws| ==> OrderlyTurn(run[k], draws[k], variant)
    ensures Timed(run[|draws|])
  {
    var n := |draws|;
    if n == 0 {
      var id, garbage :| run[0] == SimStart(id, garbage);
      StartTimed(id, garbage);
    } else {
      RunInOrder(run, draws, variant, n - 1);
      assert Timed(run[n - 1 + 1]);
    }
  }

  /** Without ties and spoiled gaps no resize fails: the next turn goes through, and leaves a queue that
      is not empty and holds at most one event beyond the number of channels. */
  lemma OrderlyGoesOn(run: seq<Sim>, draws: seq<Draws>, d: Draws, variant: Variant)
    requires IsSimRun(run, draws, variant)
    requires forall k :: 0 <= k < |draws| ==> OrderlyTurn(run[k], draws[k], variant)
    requires OrderlyTurn(run[|draws|], d, variant)
    ensures SimTurn(run[|draws|], d, variant).Some?
    ensures var s := SimTurn(run[|draws|], d, variant).value;
            && IsSimRun(run + [s], draws + [d], variant) && (s.status == Running || s.status == Finished)
            && 1 <= s.queue.size <= 1 + CHANNELS_PER_CELL
  {
    hide Timed, Ready, SimTurn, TurnTieFree, TurnSafe, Drawn, Wf;
    RunTimed(run, draws, variant);
    TurnInOrder(run[|draws|], d, variant);
    var s := SimTurn(run[|draws|], d, variant).value;
    RunExtends(run, draws, variant, d, s);
    SimQueueBounded(run + [s], draws + [d], variant, |draws| + 1);
  }

  /** With the repaired direct search the gaps are safe by themselves. */
  lemma RepairedTurnSafe(s: Sim, d: Draws)
    requires Ready(s) && Drawn(d) && Good(s.queue)
    ensures TurnSafe(s, d, Repaired)
  {
    if s.queue.size > 0 {
      RepairedGetSafe(s.queue);
      if Calendar.Get(s.queue, Repaired).Some? {
        var (e, q1) := Calendar.Get(s.queue, Repaired).value;
        RepairedPutsSafe(q1, TurnPuts(s, e, d));
      }
    }
  }

  lemma {:induction false} RepairedPutsSafe(q: Cal<Msg>, puts: seq<Event<Msg>>)
    requires CursorOk(q) && Wf(q) && NotBefore(puts, 0.0)
    ensures PutsSafe(q, puts, Repaired)
    decreases |puts|
  {
    if puts != [] {
      assert puts[0] in puts;
      RepairedPutSafe(q, puts[0]);
      hide CursorOk, Put, PutGapsSafe;
      if Put(q, puts[0], Repaired).Some? { RepairedPutsSafe(Put(q, puts[0], Repaired).value, puts[1..]); }
    }
  }

  lemma {:induction false} RepairedRunInOrder(run: seq<Sim>, draws: seq<Draws>, i: nat)
    requires IsSimRun(run, draws, Repaired) && i < |draws|
    requires forall k :: 0 <= k <= i ==>
               SimFollows(run[k], draws[k], run[k + 1], Repaired) && TurnTieFree(run[k], draws[k], Repaired)
    ensures forall k :: 0 <= k <= i ==> OrderlyTurn(run[k], draws[k], Repaired)
    ensures InOrder(run[i], run[i + 1], Repaired)
  {
    hide IsSimRun, SimFollows, OrderlyTurn, InOrder, Timed, TurnTieFree;
    RunStep(run, draws, Repaired, i);
    if i == 0 {
      FirstTimed(run, draws, Repaired);
    } else {
      RepairedRunInOrder(run, draws, i - 1);
      InOrderTimed(run[i - 1], run[i - 1 + 1], Repaired);
    }
    RepairedOrderly(run[i], draws[i], run[i + 1]);
    RunInOrder(run, draws, Repaired, i);
  }

  lemma RepairedOrderly(s: Sim, d: Draws, s': Sim)
    requires SimFollows(s, d, s', Repaired) && TurnTieFree(s, d, Repaired) && Timed(s)
    ensures OrderlyTurn(s, d, Repaired)
  {
    hide Good, Wf, Bag, SimTurn, TurnTieFree, TurnSafe, AllStamped;
    RepairedTurnSafe(s, d);
  }

  /** The repaired program goes on as long as nothing ties. */
  lemma RepairedGoesOn(run: seq<Sim>, draws: seq<Draws>, d: Draws)
    requires IsSimRun(run, draws, Repaired)
    requires forall k :: 0 <= k < |draws| ==>
               SimFollows(run[k], draws[k], run[k + 1], Repaired) && TurnTieFree(run[k], draws[k], Repaired)
    requires Ready(run[|draws|]) && Drawn(d) && TurnTieFree(run[|draws|], d, Repaired)
    ensures SimTurn(run[|draws|], d, Repaired).Some?
    ensures IsSimRun(run + [SimTurn(run[|draws|], d, Repaired).value], draws + [d], Repaired)
  {
    var n := |draws|;
    if n > 0 { RepairedRunInOrder(run, draws, n - 1); }
    RunTimed(run, draws, Repaired);
    hide Ready, SimTurn, TurnTieFree, TurnSafe, Drawn, Wf, Good;
    RepairedTurnSafe(run[n], d);
    OrderlyGoesOn(run, draws, d, Repaired);
  }
}
