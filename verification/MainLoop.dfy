/** ProcessEvent of model.c and the loop of main.c on the calendar queue, the packed words and the
    channel list updated in place. */
module MainLoop {
  import opened Events
  import opened Calendar
  import opened CalendarRun
  import opened Calqueue
  import opened ChannelBits
  import opened ChannelTable
  import Generator
  import opened Cell
  import opened SeededRun
  import opened Simulation
  import opened Options

  /** lp_state_type. */
  class CellState {
    var channelCounter: nat
    var arrivingCalls: nat
    var completeCalls: nat
    var blockedOnSetup: nat
    var executedEvents: nat
    var lvt: real
    var ta: real
    const refTa: real := TA
    const taDuration: real := TA_DURATION
    const table: Channels

    constructor (rng: Generator.Random, ln: real -> real, pow10: real -> real)
      requires Generator.NegativeBelowOne(ln) && Positive(pow10)
      ensures Valid() && View() == FreshState() && table.rng == rng
      ensures fresh(table) && fresh(table.channelState) && table.chain == []
    {
      channelCounter := CHANNELS_PER_CELL;
      arrivingCalls, completeCalls, blockedOnSetup, executedEvents := 0, 0, 0, 0;
      lvt, ta := 0.0, TA;
      table := new Channels(rng, ln, pow10);
    }

    ghost predicate Valid()
      reads table, table.chain, table.channelState
    {
      table.Valid()
    }

    ghost function View(): State
      reads this, table
    {
      State(channelCounter, arrivingCalls, completeCalls, blockedOnSetup, executedEvents, lvt, ta, table.Busy())
    }

    ghost function Footprint(): set<object>
      reads this, table
    {
      {this, table, table.channelState, table.rng} + Nodes(table.chain)
    }
  }

  /** How handling an event ends. */
  datatype Handled = Returned(code: int) | BadWidth | AbortCalled

  function StatusOf(r: Handled): Status {
    match r
    case Returned(code) => if code != 0 then Finished else Running
    case BadWidth => Aborted
    case AbortCalled => Aborted
  }

  lemma NullState(state: Option<State>, msg: Msg, d: Draws)
    requires state.None? && Dated(msg) && msg.kind != INIT
    ensures Process(state, msg, d).Abort?
  {
  }

  lemma RatePositive(now: real)
    requires now >= 0.0
    ensures RecomputeTa(TA, now) > 0.0
  {
    RecomputeTaBounds(TA, now);
  }

  lemma AcceptedOutcome(id: nat, s: State, now: real, d: Draws)
    requires now >= 0.0 && s.counter > 0 && FirstFree(s.busy, 0) != -1
    ensures Cell.StartCall(id, s, now, d) ==
            Done(s.(arriving := s.arriving + 1, ta := RecomputeTa(TA, now), counter := s.counter - 1,
                    busy := s.busy + {FirstFree(s.busy, 0)}),
                 [EndEvent(id, FirstFree(s.busy, 0), now + d.duration), StartEvent(id, now + d.arrival)], 0)
  {
    hide RecomputeTa, FirstFree;
  }

  /** What main_loop keeps: its queue and, after INIT, its state. */
  class Fiber {
    const id: nat
    const rng: Generator.Random
    const ln: real -> real
    const pow10: real -> real
    const queue: Calqueue<Msg>
    var state: CellState?

    ghost predicate Settings()
    {
      Generator.NegativeBelowOne(ln) && Positive(pow10)
    }

    ghost predicate QueueOk()
      reads queue, queue.calq
    {
      queue.Valid() && queue.Settled()
    }

    ghost predicate CellOk(c: CellState)
      reads c.table, c.table.chain, c.table.channelState
    {
      c.Valid() && c.table.rng == rng
    }

    /** Start up: an empty queue and no state. */
    constructor (id: nat, rng: Generator.Random, ln: real -> real, pow10: real -> real)
      requires Generator.NegativeBelowOne(ln) && Positive(pow10)
      ensures Settings() && QueueOk() && state == null && queue.cal == InitialCal()
      ensures this.id == id && this.rng == rng && fresh(queue) && fresh(queue.calq)
    {
      this.id, this.rng, this.ln, this.pow10 := id, rng, ln, pow10;
      queue := new Calqueue();
      state := null;
    }

    /** Where the numbers come from. */
    ghost function Src(): (src: Source)
      ensures Settings() ==> Sound(src)
    {
      Source(rng.entropy, ln)
    }

    /** The time to the next call, and the duration of a call, when number `k` is drawn for it. */
    ghost function Arrival(now: real, k: nat): real
      requires now >= 0.0
    {
      Exponential(Src(), RecomputeTa(TA, now), k)
    }

    ghost function Duration(k: nat): real {
      Exponential(Src(), TA_DURATION, k)
    }

    /** `n` numbers have been drawn since the count was `k`. */
    ghost predicate Took(k: nat, n: nat)
      reads rng
    {
      rng.Valid() && rng.drawn == k + n
    }

    method Expent(mean: real) returns (x: real)
      requires Settings() && mean >= 0.0 && rng.Valid()
      modifies rng
      ensures x == Exponential(Src(), mean, old(rng.drawn)) && Took(old(rng.drawn), 1)
    {
      hide Generator.NumberAt, Generator.SeedAt, Generator.ExpentOf;
      var e := rng.Expent(mean, ln);
      x := e.value;
    }

    /** `e` was put into `q`, unless that failed. */
    ghost predicate Scheduled(q: Cal<Msg>, e: Event<Msg>, r: Handled)
      requires Wf(q) && e.priority >= 0.0
      reads queue, queue.calq
    {
      match Put(q, e, AsWritten)
      case None => r == BadWidth
      case Some(q1) => r == Returned(0) && QueueOk() && queue.cal == q1
    }

    method Schedule(kind: int, time: real, channel: int) returns (r: Handled)
      requires QueueOk() && time >= 0.0
      modifies queue, queue.calq
      ensures Scheduled(old(queue.cal), Event(time, Msg(id, id, kind, time, channel)), r)
    {
      hide Put, Wf;
      var ok := queue.Put(time, Msg(id, id, kind, time, channel));
      r := if ok then Returned(0) else BadWidth;
    }

    /** What the call arriving draws. */
    ghost function Drawing(c: CellState, now: real): Draws
      requires now >= 0.0
      reads c, c.table, rng
    {
      CallDraws(Src(), c.channelCounter, |c.table.Busy()|, now, rng.drawn)
    }

    /** A call arrives. */
    method StartCall(c: CellState, now: real) returns (r: Handled)
      requires Settings() && QueueOk() && CellOk(c) && now >= 0.0 && rng.Valid()
      modifies rng, c.Footprint(), queue, queue.calq
      ensures Handles(Cell.StartCall(id, old(c.View()), now, old(Drawing(c, now))), old(queue.cal), r, c, old(c.ta))
      ensures r.Returned? ==> Took(old(rng.drawn), CallTakes(old(c.channelCounter), |old(c.table.Busy())|))
      ensures fresh(c.Footprint() - old(c.Footprint())) && rng.Valid()
    {
      hide RecomputeTa, Put, Wf, FirstFree, UpTo, Scheduled, QueueOk, CellOk, Handles, Cell.StartCall, LeastFree;
      hide Arrival, Duration, CallDraws, CallTakes, TakenByAllocation, Generator.Random.Valid, Settings;
      ghost var s, d, k := c.View(), Drawing(c, now), rng.drawn;
      CallDrawsAre(s, now, k);
      c.arrivingCalls := c.arrivingCalls + 1;
      if c.channelCounter == 0 {
        r := BlockCall(c, now, s, d);
      } else {
        r := CarryCall(c, now, s, d);
      }
    }

    /** No channel is free: only the next call is scheduled. */
    method BlockCall(c: CellState, now: real, ghost s: State, ghost d: Draws) returns (r: Handled)
      requires Settings() && QueueOk() && CellOk(c) && now >= 0.0 && rng.Valid() && Drawn(d)
      requires s.counter == 0 && c.View() == s.(arriving := s.arriving + 1) && d.arrival == Arrival(now, rng.drawn)
      modifies rng, c`blockedOnSetup, c`ta, queue, queue.calq
      ensures Handles(Cell.StartCall(id, s, now, d), old(queue.cal), r, c, s.ta) && Took(old(rng.drawn), 1)
    {
      hide RecomputeTa, Put, Wf, FirstFree, UpTo, Scheduled, QueueOk, CellOk, Handles, Cell.StartCall;
      hide Arrival, Generator.Random.Valid, Settings;
      CalWf();
      c.blockedOnSetup := c.blockedOnSetup + 1;
      var arrival;
      ghost var q := queue.cal;
      r, arrival := NextArrival(c, now);
      Blocked(s, now, d, q, r, c);
    }

    /** A channel is taken, and the end of the call and the next call are scheduled. */
    method CarryCall(c: CellState, now: real, ghost s: State, ghost d: Draws) returns (r: Handled)
      requires Settings() && QueueOk() && CellOk(c) && now >= 0.0 && rng.Valid() && Drawn(d)
      requires s.counter > 0 && c.View() == s.(arriving := s.arriving + 1) && d.duration == Duration(rng.drawn)
      requires d.arrival == Arrival(now, rng.drawn + 1 + TakenByAllocation(|s.busy|))
      modifies rng, c.Footprint(), queue, queue.calq
      ensures Handles(Cell.StartCall(id, s, now, d), old(queue.cal), r, c, s.ta)
      ensures r.Returned? ==> Took(old(rng.drawn), 2 + TakenByAllocation(|s.busy|))
      ensures fresh(c.Footprint() - old(c.Footprint())) && rng.Valid()
    {
      hide RecomputeTa, Put, Wf, FirstFree, UpTo, Scheduled, QueueOk, CellOk, Handles, Cell.StartCall, LeastFree;
      hide Arrival, Duration, TakenByAllocation, Generator.Random.Valid, Settings;
      CalWf();
      ghost var q := queue.cal;
      var duration, channel;
      r, duration, channel := AcceptCall(c, now);
      if r != Returned(0) {
        NotAccepted(s, now, d, q, r, c);
        return;
      }
      ghost var q1 := queue.cal;
      AcceptedQueue(q, EndEvent(id, channel, now + duration), r);
      var arrival;
      r, arrival := NextArrival(c, now);
      Accepted(s, now, d, q, q1, r, c);
    }

    lemma CallDrawsAre(s: State, now: real, k: nat)
      requires Settings() && now >= 0.0
      ensures var d := CallDraws(Src(), s.counter, |s.busy|, now, k);
              && Drawn(d)
              && d.arrival == Arrival(now, k + CallTakes(s.counter, |s.busy|) - 1)
              && (s.counter > 0 ==> d.duration == Duration(k))
              && CallTakes(0, |s.busy|) == 1
              && (s.counter > 0 ==> CallTakes(s.counter, |s.busy|) == 2 + TakenByAllocation(|s.busy|))
    {
      hide Exponential, RecomputeTa, TakenByAllocation;
      CallDrawsDrawn(Src(), s.counter, |s.busy|, now, k);
    }

    lemma CalWf()
      requires QueueOk()
      ensures Wf(queue.cal)
    {
    }

    lemma Blocked(s: State, now: real, d: Draws, q: Cal<Msg>, r: Handled, c: CellState)
      requires Wf(q) && now >= 0.0 && Drawn(d) && s.counter == 0 && CellOk(c)
      requires c.View() == s.(arriving := s.arriving + 1, blocked := s.blocked + 1, ta := RecomputeTa(TA, now))
      requires Scheduled(q, StartEvent(id, now + d.arrival), r)
      ensures Handles(Cell.StartCall(id, s, now, d), q, r, c, s.ta)
    {
      hide RecomputeTa, Put, Wf, FirstFree, QueueOk, CellOk;
      PutAllOne(q, StartEvent(id, now + d.arrival));
    }

    lemma NotAccepted(s: State, now: real, d: Draws, q: Cal<Msg>, r: Handled, c: CellState)
      requires Wf(q) && now >= 0.0 && Drawn(d) && s.counter > 0 && r != Returned(0)
      requires var channel := FirstFree(s.busy, 0);
               if channel == -1 then r == AbortCalled
               else
                 && Scheduled(q, EndEvent(id, channel, now + d.duration), r) && CellOk(c)
                 && c.View() == s.(arriving := s.arriving + 1, counter := s.counter - 1, busy := s.busy + {channel})
      ensures !r.Returned? && Handles(Cell.StartCall(id, s, now, d), q, r, c, s.ta)
    {
      hide RecomputeTa, Put, Wf, FirstFree, QueueOk, CellOk;
      PutAllTwo(q, EndEvent(id, FirstFree(s.busy, 0), now + d.duration), StartEvent(id, now + d.arrival));
    }

    lemma AcceptedQueue(q: Cal<Msg>, e: Event<Msg>, r: Handled)
      requires Wf(q) && e.priority >= 0.0 && Scheduled(q, e, r) && r == Returned(0)
      ensures Put(q, e, AsWritten) == Some(queue.cal) && QueueOk() && Wf(queue.cal)
    {
    }

    lemma Accepted(s: State, now: real, d: Draws, q: Cal<Msg>, q1: Cal<Msg>, r: Handled, c: CellState)
      requires Wf(q) && Wf(q1) && now >= 0.0 && Drawn(d) && s.counter > 0 && CellOk(c)
      requires FirstFree(s.busy, 0) != -1
      requires Put(q, EndEvent(id, FirstFree(s.busy, 0), now + d.duration), AsWritten) == Some(q1)
      requires Scheduled(q1, StartEvent(id, now + d.arrival), r)
      requires c.View() == s.(arriving := s.arriving + 1, ta := RecomputeTa(TA, now), counter := s.counter - 1,
                              busy := s.busy + {FirstFree(s.busy, 0)})
      ensures Handles(Cell.StartCall(id, s, now, d), q, r, c, s.ta)
    {
      var e, f := EndEvent(id, FirstFree(s.busy, 0), now + d.duration), StartEvent(id, now + d.arrival);
      AcceptedOutcome(id, s, now, d);
      PairNotBefore(e, f);
      hide RecomputeTa, Put, Wf, FirstFree, QueueOk, CellOk, Cell.StartCall, PutAll, NotBefore;
      PutAllTwo(q, e, f);
    }

    /** Take a channel and schedule the end of the call. */
    method AcceptCall(c: CellState, now: real) returns (r: Handled, duration: real, channel: int)
      requires Settings() && QueueOk() && CellOk(c) && now >= 0.0 && c.channelCounter > 0 && rng.Valid()
      modifies c.Footprint(), queue, queue.calq
      ensures duration >= 0.0 && duration == Duration(old(rng.drawn))
      ensures channel == FirstFree(old(c.View()).busy, 0)
      ensures rng.Valid() && (channel != -1 ==> Took(old(rng.drawn), 1 + TakenByAllocation(|old(c.table.Busy())|)))
      ensures if channel == -1 then r == AbortCalled
              else Scheduled(old(queue.cal), EndEvent(id, channel, now + duration), r)
      ensures channel != -1 ==>
                && CellOk(c)
                && c.View() ==
                   old(c.View()).(counter := old(c.channelCounter) - 1, busy := old(c.View()).busy + {channel})
      ensures fresh(c.Footprint() - old(c.Footprint()))
    {
      hide Put, Wf, FirstFree, UpTo, Scheduled, QueueOk, CellOk;
      hide Duration, Generator.Random.Valid, TakenByAllocation, Took;
      duration, channel := TakeCall(c);
      if channel == -1 {
        return AbortCalled, duration, channel;
      }
      r := Schedule(END_CALL, now + duration, channel);
    }

    method TakeCall(c: CellState) returns (duration: real, channel: int)
      requires Settings() && CellOk(c) && c.channelCounter > 0 && rng.Valid()
      modifies c.Footprint()
      ensures duration >= 0.0 && duration == Duration(old(rng.drawn))
      ensures channel == FirstFree(old(c.View()).busy, 0)
      ensures rng.Valid() && (channel != -1 ==> Took(old(rng.drawn), 1 + TakenByAllocation(|old(c.table.Busy())|)))
      ensures channel != -1 ==>
                && CellOk(c)
                && c.View() ==
                   old(c.View()).(counter := old(c.channelCounter) - 1, busy := old(c.View()).busy + {channel})
      ensures fresh(c.Footprint() - old(c.Footprint()))
    {
      hide FirstFree, UpTo, CellOk, Exponential, Generator.Random.Valid, TakenByAllocation;
      SharedRng(c);
      c.channelCounter := c.channelCounter - 1;
      ExponentialSign(Src(), TA_DURATION, rng.drawn);
      duration := Expent(c.taDuration);
      channel := TakeChannel(c);
    }

    lemma SharedRng(c: CellState)
      requires CellOk(c)
      ensures c.table.rng == rng
    {
    }

    method TakeChannel(c: CellState) returns (channel: int)
      requires CellOk(c) && rng.Valid()
      modifies c.table, c.table.channelState, c.table.rng, Nodes(c.table.chain)
      ensures channel == FirstFree(old(c.View()).busy, 0)
      ensures rng.Valid() && (channel != -1 ==> Took(old(rng.drawn), TakenByAllocation(|old(c.table.Busy())|)))
      ensures channel != -1 ==> CellOk(c) && c.View() == old(c.View()).(busy := old(c.View()).busy + {channel})
      ensures fresh(c.Footprint() - old(c.Footprint()))
    {
      hide FirstFree, UpTo, Generator.Random.Valid, TakenByAllocation, Powers;
      hide Channels.Fits, Channels.InterferenceOf, Channels.FadedFrom;
      ghost var busy := c.table.Busy();
      channel := c.table.Allocation();
      FirstFreeUnique(channel, busy);
    }

    /** Schedule the next call. */
    method NextArrival(c: CellState, now: real) returns (r: Handled, arrival: real)
      requires Settings() && QueueOk() && CellOk(c) && now >= 0.0 && rng.Valid()
      modifies c`ta, rng, queue, queue.calq
      ensures arrival >= 0.0 && arrival == Arrival(now, old(rng.drawn)) && Took(old(rng.drawn), 1)
      ensures Scheduled(old(queue.cal), StartEvent(id, now + arrival), r)
      ensures CellOk(c) && c.View() == old(c.View()).(ta := RecomputeTa(TA, now))
    {
      hide RecomputeTa, Put, Wf, UpTo, QueueOk, CellOk, Scheduled, Exponential, Generator.Random.Valid;
      RatePositive(now);
      ExponentialSign(Src(), RecomputeTa(TA, now), rng.drawn);
      c.ta := RecomputeTa(c.refTa, now);
      arrival := Expent(c.ta);
      r := Schedule(START_CALL, now + arrival, -1);
    }

    /** What the handler did is `outcome`, or as much of it as comes before the put that failed; `ta` is
        the rate it found. */
    ghost predicate Handles(outcome: Outcome, q: Cal<Msg>, r: Handled, c: CellState, ta: real)
      requires Wf(q)
      reads queue, queue.calq, c, c.table, c.table.chain, c.table.channelState
    {
      match outcome
      case Abort => r == AbortCalled
      case Done(s, puts, ret) =>
        NotBefore(puts, 0.0) &&
        var p := PutAll(q, puts, AsWritten);
        if p.None? then r == BadWidth && CellOk(c) && c.View() == PutFailed(outcome, ta, q)
        else r == Returned(ret) && QueueOk() && queue.cal == p.value && CellOk(c) && c.View() == s
    }

    /** A call ends. */
    method EndCall(c: CellState, channel: int) returns (r: Handled)
      requires QueueOk() && CellOk(c) && rng.Valid()
      modifies rng, c.Footprint()
      ensures Handles(Cell.EndCall(old(c.View()), channel), old(queue.cal), r, c, old(c.ta))
      ensures r.Returned? ==> Took(old(rng.drawn), |old(c.table.Busy()) - {channel}|)
      ensures fresh(c.Footprint() - old(c.Footprint())) && rng.Valid()
    {
      hide Put, Wf, UpTo, QueueOk, CellOk, Handles, Cell.EndCall, Generator.Random.Valid;
      ghost var s := c.View();
      CalWf();
      c.channelCounter := c.channelCounter + 1;
      c.completeCalls := c.completeCalls + 1;
      var ok := Release(c, channel);
      r := if ok then Returned(if c.completeCalls == COMPLETE_CALLS then 1 else 0) else AbortCalled;
      Ended(s, channel, r, c);
    }

    lemma Ended(s: State, channel: int, r: Handled, c: CellState)
      requires QueueOk() && Wf(queue.cal)
      requires if channel !in s.busy then r == AbortCalled
               else
                 && r == Returned(if s.complete + 1 == COMPLETE_CALLS then 1 else 0) && CellOk(c)
                 && c.View() == s.(counter := s.counter + 1, complete := s.complete + 1, busy := s.busy - {channel})
      ensures Handles(Cell.EndCall(s, channel), queue.cal, r, c, s.ta)
    {
      hide Put, Wf, QueueOk, CellOk;
      NothingPut(queue.cal);
    }

    method Release(c: CellState, channel: int) returns (ok: bool)
      requires CellOk(c) && rng.Valid()
      modifies c.table, c.table.channelState, c.table.rng, Nodes(c.table.chain)
      ensures rng.Valid() && (ok ==> Took(old(rng.drawn), |old(c.table.Busy()) - {channel}|))
      ensures ok <==> channel in old(c.View()).busy
      ensures ok ==> CellOk(c) && c.View() == old(c.View()).(busy := old(c.View()).busy - {channel})
      ensures c.Footprint() <= old(c.Footprint())
    {
      hide UpTo, Generator.Random.Valid, Channels.FadedFrom;
      ok := c.table.Deallocation(channel);
    }

    /** ProcessEvent for an event that finds the cell set up. */
    method ProcessCall(msg: Msg, c: CellState) returns (r: Handled)
      requires Settings() && QueueOk() && CellOk(c) && Dated(msg) && msg.kind != INIT && msg.receiver == id
      requires rng.Valid()
      modifies rng, c.Footprint(), queue, queue.calq
      ensures var state := Some(old(c.View()));
              var d := DrawsOf(Src(), state, msg, old(rng.drawn));
              && Handles(Process(state, msg, d), old(queue.cal), r, c, old(c.ta))
              && (r.Returned? ==> Took(old(rng.drawn), Consumed(state, msg)))
      ensures fresh(c.Footprint() - old(c.Footprint())) && rng.Valid()
    {
      hide Cell.StartCall, Cell.EndCall, Handles, Put, Wf, UpTo, QueueOk, CellOk, CallDraws, CallTakes;
      hide Generator.Random.Valid, Settings;
      CalWf();
      c.lvt := msg.timestamp;
      c.executedEvents := c.executedEvents + 1;
      if msg.kind == START_CALL {
        r := StartCall(c, msg.timestamp);
      } else if msg.kind == END_CALL {
        r := EndCall(c, msg.channel);
      } else {
        r := AbortCalled;
        AbortHandled(queue.cal, c);
      }
    }

    lemma AbortHandled(q: Cal<Msg>, c: CellState)
      requires Wf(q)
      ensures Handles(Abort, q, AbortCalled, c, c.ta)
    {
    }

    /** ProcessEvent for INIT: a new state, and the first call at a time drawn uniformly. */
    method ProcessInit(msg: Msg) returns (r: Handled, c: CellState)
      requires Settings() && QueueOk() && msg.kind == INIT && msg.receiver == id && rng.Valid()
      modifies rng, queue, queue.calq
      ensures fresh(c) && fresh(c.table) && fresh(c.table.channelState) && c.table.chain == [] && c.table.rng == rng
      ensures forall state ::
                Handles(Process(state, msg, DrawsOf(Src(), state, msg, old(rng.drawn))), old(queue.cal), r, c, TA)
      ensures Took(old(rng.drawn), 1)
    {
      hide Put, Wf, UpTo, QueueOk, CellOk, Scheduled, Generator.Random.Valid, Generator.NumberAt;
      CalWf();
      ghost var q := queue.cal;
      c := new CellState(rng, ln, pow10);
      FreshIsOk(c);
      var u := rng.Draw();
      var timestamp := 20.0 * u;
      r := Schedule(START_CALL, timestamp, -1);
      FirstScheduled(q, timestamp, r, c);
    }

    lemma FreshIsOk(c: CellState)
      requires c.Valid() && c.table.rng == rng
      ensures CellOk(c)
    {
    }

    lemma FirstScheduled(q: Cal<Msg>, time: real, r: Handled, c: CellState)
      requires Wf(q) && time >= 0.0 && CellOk(c) && c.View() == FreshState()
      requires Scheduled(q, StartEvent(id, time), r)
      ensures Handles(Done(FreshState(), [StartEvent(id, time)], 0), q, r, c, TA)
    {
      hide Put, Wf, QueueOk, CellOk;
      PutAllOne(q, StartEvent(id, time));
    }

    ghost function View(status: Status): Sim
      reads this, queue, state, if state == null then {} else {state.table}
    {
      Sim(id, if state == null then None else Some(state.View()), queue.cal, status)
    }

    ghost function StateFootprint(): set<object>
      reads this, state, if state == null then {} else {state.table}
    {
      if state == null then {} else state.Footprint()
    }

    ghost predicate StateOk()
      reads this, if state == null then {} else {state.table, state.table.channelState} + Nodes(state.table.chain)
    {
      state != null ==> CellOk(state)
    }

    /** The turn came to `t`, or left `left` of the cell; `taken` numbers were drawn since the count was `k`. */
    ghost predicate Turned(t: Option<Sim>, left: Option<State>, k: nat, taken: nat, ok: bool, status: Status)
      reads this, queue, queue.calq, state, rng
      reads if state == null then {} else {state.table, state.table.channelState} + Nodes(state.table.chain)
    {
      && ok == t.Some?
      && (!ok ==> StateOk() && View(status).state == left)
      && (ok ==> status == t.value.status)
      && (ok && (status == Running || status == Finished) ==>
            QueueOk() && StateOk() && View(status) == t.value && Took(k, taken))
    }

    /** Handle an event taken from the queue. */
    method Dispatch(msg: Msg, ghost e: Event<Msg>) returns (ok: bool, status: Status)
      requires Settings() && QueueOk() && StateOk() && e.payload == msg && Dated(msg) && rng.Valid()
      modifies this`state, rng, queue, queue.calq, StateFootprint()
      ensures var s, k := old(View(Running)), old(rng.drawn);
              var d := DrawsOf(Src(), s.state, msg, k);
              && Drawn(d)
              && Turned(Handle(s, e, old(queue.cal), d, AsWritten), Interrupted(s.state, msg, d, old(queue.cal)),
                        k, Consumed(s.state, msg), ok, status)
      ensures fresh(StateFootprint() - old(StateFootprint()) - {rng}) && rng.Valid()
    {
      hide Handles, Put, Wf, UpTo, QueueOk, CellOk, Turned, Process, Handle, PutAll, DrawsOf, Consumed, Interrupted;
      hide Generator.Random.Valid;
      CalWf();
      ghost var s, q, k := View(Running), queue.cal, rng.drawn;
      ghost var d := DrawsOf(Src(), s.state, msg, k);
      DrawsOfDrawn(Src(), s.state, msg, k);
      if msg.receiver != id {
        TurnedAway(s, e, q, d, k, WrongReceiver);
        return true, WrongReceiver;
      }
      var r;
      if msg.kind == INIT {
        if state != null {
          state.lvt := msg.timestamp;
          state.executedEvents := state.executedEvents + 1;
        }
        var c;
        r, c := ProcessInit(msg);
        if r.Returned? {
          state := c;
        }
        InitTurn(s, e, q, d, k, r, c);
      } else if state == null {
        r := AbortCalled;
        NullState(s.state, msg, d);
        TurnedAway(s, e, q, d, k, Aborted);
      } else {
        r := ProcessCall(msg, state);
        HandledTurn(s, e, q, d, k, r, state);
      }
      ok, status := r != BadWidth, StatusOf(r);
    }

    lemma HandledTurn(s: Sim, e: Event<Msg>, q: Cal<Msg>, d: Draws, k: nat, r: Handled, c: CellState)
      requires Wf(q) && Dated(e.payload) && Drawn(d) && e.payload.receiver == s.id == id
      requires s.state.Some? && e.payload.kind != INIT && state == c
      requires Handles(Process(s.state, e.payload, d), q, r, c, s.state.value.ta)
      requires r.Returned? ==> Took(k, Consumed(s.state, e.payload))
      ensures Turned(Handle(s, e, q, d, AsWritten), Interrupted(s.state, e.payload, d, q),
                     k, Consumed(s.state, e.payload), r != BadWidth, StatusOf(r))
    {
      hide Process, Wf, QueueOk, CellOk, PutAll, Took, Consumed, PutFailed;
      if Process(s.state, e.payload, d).Done? { PutsLater(s.state, e.payload, d); }
    }

    lemma InitTurn(s: Sim, e: Event<Msg>, q: Cal<Msg>, d: Draws, k: nat, r: Handled, c: CellState)
      requires Wf(q) && Dated(e.payload) && Drawn(d) && e.payload.receiver == s.id == id && e.payload.kind == INIT
      requires Handles(Process(s.state, e.payload, d), q, r, c, TA) && Took(k, 1)
      requires if r.Returned? then state == c
               else
                 && StateOk() && (state == null <==> s.state.None?)
                 && (state != null ==>
                       state.View() ==
                       s.state.value.(lvt := e.payload.timestamp, executed := s.state.value.executed + 1))
      ensures Turned(Handle(s, e, q, d, AsWritten), Interrupted(s.state, e.payload, d, q),
                     k, Consumed(s.state, e.payload), r != BadWidth, StatusOf(r))
    {
      hide Wf, QueueOk, CellOk, PutAll, Took, PutFailed;
      PutsLater(s.state, e.payload, d);
    }

    lemma TurnedAway(s: Sim, e: Event<Msg>, q1: Cal<Msg>, d: Draws, k: nat, status: Status)
      requires Wf(q1) && Dated(e.payload) && Drawn(d)
      requires if e.payload.receiver != s.id then status == WrongReceiver
               else Process(s.state, e.payload, d).Abort? && status == Aborted
      ensures Turned(Handle(s, e, q1, d, AsWritten), Interrupted(s.state, e.payload, d, q1), k,
                     Consumed(s.state, e.payload), true, status)
    {
      hide Process, Wf, QueueOk, Took, Consumed, Interrupted;
    }

    /** What `calqueue_get` found in `q`. */
    ghost predicate Found(q: Cal<Msg>, ok: bool, event: Option<Msg>)
      requires Wf(q)
      reads queue, queue.calq
    {
      if q.size == 0 then ok && event.None?
      else
        && event == Some(Dequeue(q, AsWritten).0.payload)
        && match Calendar.Get(q, AsWritten)
           case None => !ok
           case Some((e, q1)) => ok && QueueOk() && queue.cal == q1
    }

    method NextMsg() returns (ok: bool, event: Option<Msg>)
      requires QueueOk()
      modifies queue, queue.calq
      ensures Wf(old(queue.cal)) && Found(old(queue.cal), ok, event)
    {
      CalWf();
      hide Wf, Calendar.Get, Dequeue;
      ok, event := queue.Get();
    }

    /** What the turn draws is determined by the numbers still to come. */
    ghost predicate TurnedFrom(s: Sim, k: nat, ok: bool, status: Status)
      requires Settings() && Ready(s)
      reads this, queue, queue.calq, state, rng
      reads if state == null then {} else {state.table, state.table.channelState} + Nodes(state.table.chain)
    {
      var d := TurnDraws(Src(), s, k);
      Turned(SimTurn(s, d, AsWritten), CellLeft(s, d), k, TurnConsumed(s), ok, status)
    }

    /** One turn of the loop. */
    method Turn() returns (ok: bool, status: Status)
      requires Settings() && QueueOk() && StateOk() && Ready(View(Running)) && rng.Valid()
      modifies this`state, rng, queue, queue.calq, StateFootprint()
      ensures TurnedFrom(old(View(Running)), old(rng.drawn), ok, status) && rng.Valid()
      ensures fresh(StateFootprint() - old(StateFootprint()) - {rng})
    {
      hide QueueOk, Wf, UpTo, CellOk, Turned, Handle, SimTurn, Calendar.Get, Dequeue, Found, Bag, Ready, TurnedFrom;
      hide Generator.Random.Valid, DrawsOf, Consumed, Interrupted;
      ghost var s, k := View(Running), rng.drawn;
      var event;
      ok, event := NextMsg();
      if event.None? {
        NothingFound(s, k, ok, event);
        return true, NoEvents;
      }
      if !ok {
        GotNothing(s, k, ok, event);
        return false, Aborted;
      }
      ghost var e := GotEvent(s, ok, event);
      ghost var q1 := queue.cal;
      ok, status := Dispatch(event.value, e);
      TurnOfEvent(s, e, q1, k, ok, status);
    }

    lemma GotEvent(s: Sim, ok: bool, event: Option<Msg>) returns (e: Event<Msg>)
      requires Ready(s) && Found(s.queue, ok, event) && ok && event.Some?
      ensures s.queue.size > 0 && Calendar.Get(s.queue, AsWritten) == Some((e, queue.cal)) && QueueOk()
      ensures e.payload == event.value && Dated(e.payload)
    {
      hide QueueOk, Calendar.Get, Dequeue, Bag;
      e := Calendar.Get(s.queue, AsWritten).value.0;
      GetTakes(s.queue, AsWritten);
    }

    lemma NothingFound(s: Sim, k: nat, ok: bool, event: Option<Msg>)
      requires Settings() && Ready(s) && Found(s.queue, ok, event) && event.None?
      ensures TurnedFrom(s, k, true, NoEvents)
    {
      hide Calendar.Get, Dequeue, CellLeft;
    }

    lemma GotNothing(s: Sim, k: nat, ok: bool, event: Option<Msg>)
      requires Settings() && Ready(s) && Found(s.queue, ok, event) && !ok && event.Some?
      requires StateOk() && View(Running).state == s.state
      ensures TurnedFrom(s, k, false, Aborted)
    {
      hide Calendar.Get, Dequeue, DrawsOf, Consumed, CellOk;
    }

    lemma TurnOfEvent(s: Sim, e: Event<Msg>, q1: Cal<Msg>, k: nat, ok: bool, status: Status)
      requires Settings() && Ready(s) && s.queue.size > 0 && Calendar.Get(s.queue, AsWritten) == Some((e, q1))
      requires Wf(q1) && Dated(e.payload)
      requires var d := DrawsOf(Src(), s.state, e.payload, k);
               && Drawn(d)
               && Turned(Handle(s.(queue := q1), e, q1, d, AsWritten), Interrupted(s.state, e.payload, d, q1), k,
                         Consumed(s.state, e.payload), ok, status)
      ensures TurnedFrom(s, k, ok, status)
    {
      hide Calendar.Get, Dequeue, DrawsOf, Consumed, Turned, Interrupted, Handle, Wf, Bag, SimTurn;
      GetTakes(s.queue, AsWritten);
      TurnIsHandle(s, e, q1, DrawsOf(Src(), s.state, e.payload, k));
    }

    /** Where the run has got to: the state of the program, or what a failed turn has left of the cell. */
    ghost predicate Reached(t: Trace, ok: bool, status: Status)
      requires Settings() && IsTrace(t)
      reads this, queue, queue.calq, state, rng
      reads if state == null then {} else {state.table, state.table.channelState} + Nodes(state.table.chain)
    {
      && ok == !t.failed
      && (ok ==> QueueOk() && StateOk() && View(status) == Last(t) && Took(t.drawn, 0))
      && (!ok ==> StateOk() && View(status).state == LeftAfter(Src(), t))
    }

    /** main_loop, stopped after `n` turns at the latest. It makes the turns of the run that the numbers
        still to come determine; it aborts in none, always finds an event of its own, and ends with the
        last call to complete. It is cut short exactly when one of those turns fails, which is a
        condition on these numbers, and leaves of the cell what the failing turn had done. */
    method Run(n: nat, garbage: real) returns (ok: bool, status: Status)
      requires Settings() && QueueOk() && state == null && queue.cal == InitialCal() && rng.Valid()
      modifies this`state, rng, queue, queue.calq
      ensures Reached(TraceOf(Src(), id, garbage, old(rng.drawn), n), ok, status)
      ensures ok <==> !exists i :: 0 <= i < n && FailsAt(Src(), id, garbage, old(rng.drawn), i)
      ensures ok ==> status == Running || status == Finished
      ensures ok && status == Running ==> |TraceOf(Src(), id, garbage, old(rng.drawn), n).draws| == n
      ensures ok && status == Finished ==> state != null && state.completeCalls == COMPLETE_CALLS
    {
      hide *;
      ghost var k := rng.drawn;
      StartUp(garbage);
      StartReached(garbage, k);
      ok, status := Loop(n, garbage, k);
      FailedIff(Src(), id, garbage, k, n);
      EndReached(garbage, k, n, ok, status);
    }

    lemma StartReached(garbage: real, k: nat)
      requires Settings() && QueueOk() && state == null && queue.cal == Enqueue(InitialCal(), InitEvent(id, garbage))
      requires rng.Valid() && rng.drawn == k
      ensures Reached(TraceOf(Src(), id, garbage, k, 0), true, Running) && StateFootprint() == {}
      ensures Last(TraceOf(Src(), id, garbage, k, 0)).status == Running
    {
      hide QueueOk, Enqueue, InitialCal, IsSimRun, Generator.Random.Valid, LeftAfter;
      hide Continue, TraceOf, Sound, Settings;
      TraceStep(Src(), id, garbage, k, 0);
    }

    lemma EndReached(garbage: real, k: nat, n: nat, ok: bool, status: Status)
      requires Settings() && Reached(TraceOf(Src(), id, garbage, k, n), ok, status)
      ensures ok == !TraceOf(Src(), id, garbage, k, n).failed
      ensures ok ==> status == Running || status == Finished
      ensures ok && status == Running ==> |TraceOf(Src(), id, garbage, k, n).draws| == n
      ensures ok && status == Finished ==> state != null && state.completeCalls == COMPLETE_CALLS
    {
      hide QueueOk, IsSimRun, CellOk, TraceOf, LeftAfter;
      TraceLength(Src(), id, garbage, k, n);
      if ok && status == Finished { TraceEnds(TraceOf(Src(), id, garbage, k, n)); }
    }

    method Loop(n: nat, garbage: real, ghost k: nat) returns (ok: bool, status: Status)
      requires Settings() && Reached(TraceOf(Src(), id, garbage, k, 0), true, Running) && StateFootprint() == {}
      requires Last(TraceOf(Src(), id, garbage, k, 0)).status == Running
      modifies this`state, rng, queue, queue.calq
      ensures Reached(TraceOf(Src(), id, garbage, k, n), ok, status)
    {
      hide TraceOf, Continue, Reached, IsTrace, Settings, Last, LeftAfter;
      ok, status := true, Running;
      var i := 0;
      while i < n && ok && status == Running
        invariant 0 <= i <= n && Reached(TraceOf(Src(), id, garbage, k, i), ok, status)
        invariant fresh(StateFootprint() - {rng})
        decreases n - i
      {
        ok, status := Advance(TraceOf(Src(), id, garbage, k, i));
        TraceStep(Src(), id, garbage, k, i);
        i := i + 1;
      }
      if !ok || status != Running { ReachedStays(garbage, k, i, n, ok, status); }
    }

    lemma ReachedStays(garbage: real, k: nat, i: nat, n: nat, ok: bool, status: Status)
      requires Settings() && i <= n && Reached(TraceOf(Src(), id, garbage, k, i), ok, status)
      requires !ok || status != Running
      ensures Reached(TraceOf(Src(), id, garbage, k, n), ok, status)
    {
      hide QueueOk, IsSimRun, CellOk, TraceOf, LeftAfter;
      TraceStays(Src(), id, garbage, k, i, n);
    }

    /** A turn that carries the run on. */
    method Advance(ghost t: Trace) returns (ok: bool, status: Status)
      requires Settings() && IsTrace(t) && Reached(t, true, Running)
      modifies this`state, rng, queue, queue.calq, StateFootprint()
      ensures fresh(StateFootprint() - old(StateFootprint()) - {rng})
      ensures Reached(Continue(Src(), t), ok, status)
    {
      hide Wf, UpTo, CellOk, QueueOk, SimTurn, IsSimRun, Ready, TurnedFrom, Continue, Generator.Random.Valid;
      hide LeftAfter;
      TraceReady(t);
      ok, status := Turn();
      TurnReaches(t, ok, status);
    }

    lemma TurnReaches(t: Trace, ok: bool, status: Status)
      requires Settings() && IsTrace(t) && !Stopped(t) && Ready(Last(t))
      requires TurnedFrom(Last(t), t.drawn, ok, status)
      ensures Reached(Continue(Src(), t), ok, status)
    {
      hide Wf, CellOk, QueueOk, SimTurn, IsSimRun, Ready, TurnDraws, TurnConsumed, CellLeft;
      ContinueLength(Src(), t);
    }

    /** The first event is put. */
    method StartUp(garbage: real)
      requires QueueOk() && queue.cal == InitialCal()
      modifies queue, queue.calq
      ensures QueueOk() && queue.cal == Enqueue(InitialCal(), InitEvent(id, garbage))
    {
      ghost var q := queue.cal;
      FirstFits(id, garbage);
      hide Wf, Enqueue, InitialCal, Put, MustGrow;
      var ok := queue.Put(0.0, Msg(id, id, INIT, garbage, -1));
    }
  }

  lemma NothingPut(q: Cal<Msg>)
    requires Wf(q)
    ensures NotBefore([], 0.0) && PutAll(q, [], AsWritten) == Some(q)
  {
    hide Wf;
  }

  lemma FirstFits(id: nat, garbage: real)
    ensures !MustGrow(Enqueue(InitialCal(), InitEvent(id, garbage)))
  {
    var q := InitialCal<Msg>();
    assert |q.buckets| == 2;
    hide InitialCal;
  }
}
