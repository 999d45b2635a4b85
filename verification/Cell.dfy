/** The GSM cell of model.c and the loop of main.c that drives it, as a closed system: counters, busy
    channels and pending events. Any pending event may come next, so nothing here rests on the order
    in which the queue hands them out. */
module Cell {
  import opened Events
  import opened ChannelBits
  import opened ChannelTable
  import opened Options

  const INIT := 0
  const START_CALL := 20
  const END_CALL := 21

  const COMPLETE_CALLS := 15000
  const TA := 0.16
  const TA_DURATION := 60.0

  datatype Msg = Msg(sender: nat, receiver: nat, kind: int, timestamp: real, channel: int)

  datatype State = State(
    counter: nat,
    arriving: nat,
    complete: nat,
    blocked: nat,
    executed: nat,
    lvt: real,
    ta: real,
    busy: set<int>)

  /** What Random and Expent return while one event is processed. */
  datatype Draws = Draws(start: real, duration: real, arrival: real)

  ghost predicate Drawn(d: Draws) {
    d.start > 0.0 && d.duration >= 0.0 && d.arrival >= 0.0
  }

  // ---------------------------------------------------------------- arrival rate

  const HOUR := 3600
  const DAY := 24 * HOUR
  const WEEK := 7 * DAY

  function RateFactor(now: int): real
  {
    if now > 5 * DAY then 5.0
    else
      var hour := now % DAY;
      if 2 * hour < 17 * HOUR then 4.0
      else if hour < 13 * HOUR then 0.8
      else if hour < 15 * HOUR then 2.5
      else if hour < 19 * HOUR then 2.0
      else if hour < 21 * HOUR then 2.2
      else 4.5
  }

  /** Time is never negative, so the C remainders are these. */
  function RecomputeTa(refTa: real, now: real): (ta: real)
    requires now >= 0.0
  {
    refTa * RateFactor(now.Floor % WEEK)
  }

  /** The interval stays within fixed factors of the reference, so it is positive, and the pattern
      repeats weekly. */
  lemma RecomputeTaBounds(refTa: real, now: real)
    requires refTa > 0.0 && now >= 0.0
    ensures 0.8 * refTa <= RecomputeTa(refTa, now) <= 5.0 * refTa
    ensures RecomputeTa(refTa, now + WEEK as real) == RecomputeTa(refTa, now)
  {
    FloorPlus(now, WEEK);
    assert (now.Floor + WEEK) % WEEK == now.Floor % WEEK;
    RateFactorBounds(now.Floor % WEEK);
    hide RateFactor;
    Scaled(RateFactor(now.Floor % WEEK), refTa);
  }

  /** Second `second` of week `w`, and any fraction of it. */
  lemma RecomputeTaAt(refTa: real, w: nat, second: int, fraction: real)
    requires 0 <= second < 604800 && 0.0 <= fraction < 1.0
    ensures RecomputeTa(refTa, (604800 * w + second) as real + fraction) == refTa * RateFactor(second)
  {
    hide RateFactor;
    assert ((604800 * w + second) as real + fraction).Floor == 604800 * w + second;
    assert (604800 * w + second) % WEEK == second;
  }

  /** The factor by which the time between calls is longer than the reference: on day `d` of the week it is
      least in the morning from half past eight, then from three, from seven and from one o'clock on, then
      before half past eight and from nine at night, and most at the weekend, whose first second still
      counts as the early morning of a working day. */
  lemma RateByHour(d: nat, second: int)
    requires 0 <= second < 86400 && d < 7
    ensures var hours, factor := second as real / 3600.0, RateFactor(86400 * d + second);
            if d < 5 || (d == 5 && second == 0) then
              && (factor == 0.8 <==> 8.5 <= hours < 13.0) && (factor == 2.0 <==> 15.0 <= hours < 19.0)
              && (factor == 2.2 <==> 19.0 <= hours < 21.0) && (factor == 2.5 <==> 13.0 <= hours < 15.0)
              && (factor == 4.0 <==> hours < 8.5) && (factor == 4.5 <==> 21.0 <= hours)
            else factor == 5.0
  {
    SecondOfDay(d, second);
  }

  lemma SecondOfDay(d: nat, second: int)
    requires 0 <= second < DAY && d < 7
    ensures (86400 * d + second) % DAY == second
    ensures 86400 * d + second <= 5 * DAY <==> d < 5 || (d == 5 && second == 0)
  {
  }

  lemma RateFactorBounds(now: int)
    ensures 0.8 <= RateFactor(now) <= 5.0
  {
  }

  lemma Scaled(f: real, r: real)
    requires 0.8 <= f <= 5.0 && r > 0.0
    ensures 0.8 * r <= r * f <= 5.0 * r
  {
  }

  lemma FloorPlus(x: real, n: int)
    ensures (x + n as real).Floor == x.Floor + n
  {
  }

  // ---------------------------------------------------------------- processing one event

  /** What handling an event comes to: the new state, the events put and the value returned. */
  datatype Outcome = Done(state: State, puts: seq<Event<Msg>>, ret: int) | Abort

  function StartEvent(id: nat, time: real): Event<Msg> {
    Event(time, Msg(id, id, START_CALL, time, -1))
  }

  function EndEvent(id: nat, channel: int, time: real): Event<Msg> {
    Event(time, Msg(id, id, END_CALL, time, channel))
  }

  function FreshState(): State {
    State(CHANNELS_PER_CELL, 0, 0, 0, 0, 0.0, TA, {})
  }

  /** The least free channel from `i` on, or -1. */
  function FirstFree(busy: set<int>, i: nat): (ch: int)
    requires i <= CHANNELS_PER_CELL
    decreases CHANNELS_PER_CELL - i
  {
    if i == CHANNELS_PER_CELL then -1 else if i !in busy then i else FirstFree(busy, i + 1)
  }

  lemma {:induction false} FirstFreeIsLeast(busy: set<int>, i: nat)
    requires i <= CHANNELS_PER_CELL && forall j :: 0 <= j < i ==> j in busy
    ensures FirstFree(busy, i) == -1 <==> UpTo(CHANNELS_PER_CELL) <= busy
    ensures FirstFree(busy, i) != -1 ==> LeastFree(FirstFree(busy, i), busy)
    decreases CHANNELS_PER_CELL - i
  {
    hide UpTo;
    if i < CHANNELS_PER_CELL && i in busy { FirstFreeIsLeast(busy, i + 1); }
    if i < CHANNELS_PER_CELL && i !in busy { assert i in UpTo(CHANNELS_PER_CELL); }
  }

  lemma FirstFreeUnique(index: int, busy: set<int>)
    requires index == -1 ==> UpTo(CHANNELS_PER_CELL) <= busy
    requires index != -1 ==> LeastFree(index, busy)
    ensures index == FirstFree(busy, 0)
  {
    hide UpTo, FirstFree;
    FirstFreeIsLeast(busy, 0);
    if index != -1 { assert index in UpTo(CHANNELS_PER_CELL); }
  }

  function StartCall(id: nat, s: State, now: real, d: Draws): Outcome
    requires now >= 0.0
  {
    var s1 := s.(arriving := s.arriving + 1, ta := RecomputeTa(TA, now));
    if s.counter == 0 then Done(s1.(blocked := s.blocked + 1), [StartEvent(id, now + d.arrival)], 0)
    else
      var channel := FirstFree(s.busy, 0);
      if channel == -1 then Abort
      else
        Done(s1.(counter := s.counter - 1, busy := s.busy + {channel}),
             [EndEvent(id, channel, now + d.duration), StartEvent(id, now + d.arrival)], 0)
  }

  function EndCall(s: State, channel: int): Outcome {
    if channel !in s.busy then Abort
    else
      Done(s.(counter := s.counter + 1, complete := s.complete + 1, busy := s.busy - {channel}), [],
           if s.complete + 1 == COMPLETE_CALLS then 1 else 0)
  }

  /** The time stamp of the first event is never set, and never used. */
  predicate Dated(msg: Msg) {
    msg.kind == INIT || msg.timestamp >= 0.0
  }

  /** ProcessEvent; None is the null state before INIT, dereferencing it is an abort. */
  function Process(state: Option<State>, msg: Msg, d: Draws): Outcome
    requires Dated(msg)
  {
    if msg.kind == INIT then Done(FreshState(), [StartEvent(msg.receiver, d.start)], 0)
    else if state.None? then Abort
    else
      var s := state.value.(lvt := msg.timestamp, executed := state.value.executed + 1);
      if msg.kind == START_CALL then StartCall(msg.receiver, s, msg.timestamp, d)
      else if msg.kind == END_CALL then EndCall(s, msg.channel)
      else Abort
  }

  // ---------------------------------------------------------------- the loop

  datatype Status = Running | Finished | NoEvents | WrongReceiver | Aborted

  datatype System = System(id: nat, state: Option<State>, pending: multiset<Event<Msg>>, status: Status)

  /** The first event; its time stamp is never set. */
  function InitEvent(id: nat, garbage: real): Event<Msg> {
    Event(0.0, Msg(id, id, INIT, garbage, -1))
  }

  function Start(id: nat, garbage: real): System {
    System(id, None, multiset{InitEvent(id, garbage)}, Running)
  }

  /** The queue hands out some pending event, or none when it is empty. */
  ghost predicate Choice(sys: System, next: Option<Event<Msg>>) {
    if next.None? then sys.pending == multiset{}
    else next.value in sys.pending
  }

  /** One turn of the loop. */
  function Turn(sys: System, next: Option<Event<Msg>>, d: Draws): System
    requires next.Some? ==> Dated(next.value.payload)
  {
    if next.None? then sys.(status := NoEvents)
    else
      var msg := next.value.payload;
      var rest := sys.pending - multiset{next.value};
      if msg.receiver != sys.id then sys.(pending := rest, status := WrongReceiver)
      else
        match Process(sys.state, msg, d)
        case Abort => sys.(pending := rest, status := Aborted)
        case Done(state, puts, ret) =>
          System(sys.id, Some(state), rest + multiset(puts), if ret != 0 then Finished else Running)
  }

  // ---------------------------------------------------------------- what every turn keeps

  /** The pending END_CALL events when channel `ch` ends at `ends[ch]`. */
  ghost function Ends(id: nat, ends: map<int, real>): multiset<Event<Msg>> {
    multiset(set ch | ch in ends :: EndEvent(id, ch, ends[ch]))
  }

  ghost predicate Balanced(s: State) {
    && s.busy <= UpTo(CHANNELS_PER_CELL)
    && s.counter + |s.busy| == CHANNELS_PER_CELL
    && s.arriving == s.complete + s.blocked + |s.busy|
    && s.executed == s.arriving + s.complete
  }

  /** One START_CALL is pending, at `start`, and one END_CALL for each busy channel, at `ends`. */
  ghost predicate Agrees(id: nat, busy: set<int>, pending: multiset<Event<Msg>>, start: real, ends: map<int, real>) {
    && ends.Keys == busy && start >= 0.0 && (forall ch | ch in ends :: ends[ch] >= 0.0)
    && pending == multiset{StartEvent(id, start)} + Ends(id, ends)
  }

  ghost predicate Closed(sys: System) {
    && sys.state.Some? && Balanced(sys.state.value)
    && exists start, ends :: Agrees(sys.id, sys.state.value.busy, sys.pending, start, ends)
  }

  lemma EndsAdd(id: nat, ends: map<int, real>, ch: int, t: real)
    requires ch !in ends
    ensures Ends(id, ends[ch := t]) == Ends(id, ends) + multiset{EndEvent(id, ch, t)}
  {
    var before := set c | c in ends :: EndEvent(id, c, ends[c]);
    var more := ends[ch := t];
    var after := set c | c in more :: EndEvent(id, c, more[c]);
    forall e | e in after ensures e in before + {EndEvent(id, ch, t)} {
      var c :| c in more && e == EndEvent(id, c, more[c]);
      if c != ch { assert c in ends && ends[c] == more[c]; }
    }
    forall e | e in before ensures e in after {
      var c :| c in ends && e == EndEvent(id, c, ends[c]);
      assert c in more && more[c] == ends[c];
    }
    assert ch in more && more[ch] == t;
    assert after == before + {EndEvent(id, ch, t)};
  }

  lemma EndsRemove(id: nat, ends: map<int, real>, ch: int)
    requires ch in ends
    ensures EndEvent(id, ch, ends[ch]) in Ends(id, ends)
    ensures Ends(id, ends - {ch}) == Ends(id, ends) - multiset{EndEvent(id, ch, ends[ch])}
  {
    var less := ends - {ch};
    EndsAdd(id, less, ch, ends[ch]);
    assert less[ch := ends[ch]] == ends;
  }

  lemma EndsMember(id: nat, ends: map<int, real>, e: Event<Msg>)
    ensures e in Ends(id, ends) <==>
              e.payload.channel in ends && e == EndEvent(id, e.payload.channel, ends[e.payload.channel])
    ensures e in Ends(id, ends) ==> Ends(id, ends)[e] == 1
  {
  }

  lemma EmptyOrNot(s: set<int>)
    ensures s == {} || exists x :: x in s
  {
    if forall x: int :: x !in s { assert s == {}; }
  }

  lemma NoEnds(id: nat, ends: map<int, real>)
    requires ends.Keys == {}
    ensures Ends(id, ends) == multiset{}
  {
  }

  lemma {:induction false} EndsSize(id: nat, ends: map<int, real>, channels: set<int>)
    requires ends.Keys == channels
    ensures |Ends(id, ends)| == |channels|
    decreases |channels|
  {
    hide Ends;
    if channels == {} {
      NoEnds(id, ends);
    } else {
      EmptyOrNot(channels);
      var ch :| ch in channels;
      EndsRemove(id, ends, ch);
      EndsSize(id, ends - {ch}, channels - {ch});
    }
  }

  // ---------------------------------------------------------------- one turn keeps the cell closed

  lemma StartOnly(id: nat, start: real)
    requires start >= 0.0
    ensures Agrees(id, {}, multiset{StartEvent(id, start)}, start, map[])
  {
    assert Ends(id, map[]) == multiset{};
  }

  lemma InitCloses(id: nat, garbage: real, d: Draws)
    requires Drawn(d)
    ensures var sys := Turn(Start(id, garbage), Some(InitEvent(id, garbage)), d);
            sys.status == Running && sys.state == Some(FreshState()) && Closed(sys)
  {
    StartOnly(id, d.start);
    var sys := Turn(Start(id, garbage), Some(InitEvent(id, garbage)), d);
    assert sys.pending == multiset{StartEvent(id, d.start)};
  }

  /** What may come next in a closed cell. */
  lemma NextKinds(sys: System, next: Option<Event<Msg>>, start: real, ends: map<int, real>)
    requires sys.state.Some? && Agrees(sys.id, sys.state.value.busy, sys.pending, start, ends) && Choice(sys, next)
    ensures next.Some?
    ensures next.value == StartEvent(sys.id, start) ||
            (var ch := next.value.payload.channel; ch in ends && next.value == EndEvent(sys.id, ch, ends[ch]))
    ensures next.value.payload.timestamp == next.value.priority && next.value.priority >= 0.0
  {
    assert StartEvent(sys.id, start) in sys.pending;
    if next.Some? { EndsMember(sys.id, ends, next.value); }
  }

  lemma ClosedAfterStart(sys: System, d: Draws, start: real, ends: map<int, real>)
    requires sys.state.Some? && Balanced(sys.state.value) && Drawn(d)
    requires Agrees(sys.id, sys.state.value.busy, sys.pending, start, ends)
    ensures var sys' := Turn(sys, Some(StartEvent(sys.id, start)), d);
            sys'.status == Running && Closed(sys') && sys'.state.value.complete == sys.state.value.complete
  {
    hide StartCall, UpTo, RecomputeTa, Ends, FirstFree;
    var s := sys.state.value;
    var rest := sys.pending - multiset{StartEvent(sys.id, start)};
    assert rest == Ends(sys.id, ends);
    var s1 := s.(lvt := start, executed := s.executed + 1);
    var outcome := StartCall(sys.id, s1, start, d);
    StartCallAgrees(sys.id, s, s1, start, d, ends);
    assert Turn(sys, Some(StartEvent(sys.id, start)), d) ==
           System(sys.id, Some(outcome.state), rest + multiset(outcome.puts), Running);
  }

  lemma StartCallAgrees(id: nat, s: State, s1: State, now: real, d: Draws, ends: map<int, real>)
    requires Balanced(s) && s1 == s.(lvt := now, executed := s.executed + 1) && now >= 0.0 && Drawn(d)
    requires ends.Keys == s.busy && forall ch | ch in ends :: ends[ch] >= 0.0
    ensures var outcome := StartCall(id, s1, now, d);
            && outcome.Done? && outcome.ret == 0 && Balanced(outcome.state) && outcome.state.complete == s.complete
            && exists start, ends' ::
                 Agrees(id, outcome.state.busy, Ends(id, ends) + multiset(outcome.puts), start, ends')
  {
    hide RecomputeTa, Ends, FirstFree, UpTo, Agrees;
    var outcome := StartCall(id, s1, now, d);
    var start := now + d.arrival;
    if s.counter == 0 {
      StartPending(id, ends, start);
      assert outcome.puts == [StartEvent(id, start)];
    } else {
      SomeFree(s);
      var ch, end := FirstFree(s.busy, 0), now + d.duration;
      CallPending(id, ends, ch, start, end);
      assert outcome.puts == [EndEvent(id, ch, end), StartEvent(id, start)];
    }
  }

  lemma StartPending(id: nat, ends: map<int, real>, start: real)
    requires start >= 0.0 && forall c | c in ends :: ends[c] >= 0.0
    ensures Agrees(id, ends.Keys, Ends(id, ends) + multiset([StartEvent(id, start)]), start, ends)
  {
    hide Ends;
    assert multiset([StartEvent(id, start)]) == multiset{StartEvent(id, start)};
  }

  lemma SomeFree(s: State)
    requires Balanced(s) && s.counter > 0
    ensures FirstFree(s.busy, 0) != -1 && LeastFree(FirstFree(s.busy, 0), s.busy)
  {
    hide FirstFree, UpTo;
    FirstFreeIsLeast(s.busy, 0);
    if UpTo(CHANNELS_PER_CELL) <= s.busy { SameSet(UpTo(CHANNELS_PER_CELL), s.busy); }
  }

  lemma SameSet(a: set<int>, b: set<int>)
    requires a <= b && b <= a
    ensures a == b
  {
  }

  lemma CallPending(id: nat, ends: map<int, real>, ch: int, start: real, end: real)
    requires ch !in ends && start >= 0.0 && end >= 0.0 && forall c | c in ends :: ends[c] >= 0.0
    ensures Agrees(id, ends.Keys + {ch}, Ends(id, ends) + multiset([EndEvent(id, ch, end), StartEvent(id, start)]),
                   start, ends[ch := end])
  {
    EndsAdd(id, ends, ch, end);
    hide Ends;
    assert multiset([EndEvent(id, ch, end), StartEvent(id, start)]) ==
           multiset{EndEvent(id, ch, end)} + multiset{StartEvent(id, start)};
  }

  lemma ClosedAfterEnd(sys: System, d: Draws, start: real, ends: map<int, real>, ch: int)
    requires sys.state.Some? && Balanced(sys.state.value) && ch in ends
    requires Agrees(sys.id, sys.state.value.busy, sys.pending, start, ends)
    ensures var sys' := Turn(sys, Some(EndEvent(sys.id, ch, ends[ch])), d);
            && Closed(sys') && sys'.state.value.complete == sys.state.value.complete + 1
            && sys'.status == if sys'.state.value.complete == COMPLETE_CALLS then Finished else Running
  {
    hide UpTo, Ends, FirstFree, StartCall;
    var s := sys.state.value;
    var sys' := Turn(sys, Some(EndEvent(sys.id, ch, ends[ch])), d);
    EndsRemove(sys.id, ends, ch);
    assert Agrees(sys.id, s.busy - {ch}, sys'.pending, start, ends - {ch});
  }

  /** Whatever pending event comes next, a closed cell neither aborts nor runs out of events, and
      stays closed. */
  lemma TurnKeepsClosed(sys: System, next: Option<Event<Msg>>, d: Draws)
    requires sys.status == Running && Closed(sys) && Choice(sys, next) && Drawn(d)
    ensures next.Some? && next.value.payload.timestamp == next.value.priority && next.value.priority >= 0.0
    ensures var sys' := Turn(sys, next, d);
            && Closed(sys')
            && sys.state.value.complete <= sys'.state.value.complete <= sys.state.value.complete + 1
            && (sys'.status == Running || (sys'.status == Finished && sys'.state.value.complete == COMPLETE_CALLS))
            && (sys.state.value.complete < COMPLETE_CALLS ==>
                  (sys'.status == Finished <==> sys'.state.value.complete == COMPLETE_CALLS))
  {
    var start, ends :| Agrees(sys.id, sys.state.value.busy, sys.pending, start, ends);
    NextKinds(sys, next, start, ends);
    hide Turn, Agrees, Balanced, Ends;
    if next.value == StartEvent(sys.id, start) {
      ClosedAfterStart(sys, d, start, ends);
    } else {
      var ch := next.value.payload.channel;
      ClosedAfterEnd(sys, d, start, ends, ch);
    }
  }

  // ---------------------------------------------------------------- every reachable state

  /** `sys'` is what some turn makes of `sys`. */
  ghost predicate Follows(sys: System, sys': System) {
    sys.status == Running &&
    exists next: Option<Event<Msg>>, d: Draws ::
      Choice(sys, next) && Drawn(d) && (next.Some? ==> Dated(next.value.payload)) && sys' == Turn(sys, next, d)
  }

  /** A run of the program, from an empty queue holding the first event. */
  ghost predicate IsRun(run: seq<System>) {
    && run != []
    && (exists id, garbage :: run[0] == Start(id, garbage))
    && forall i :: 0 <= i < |run| - 1 ==> Follows(run[i], run[i + 1])
  }

  /** No run aborts, runs out of events or sees a foreign one; after INIT the cell stays closed, and it
      ends exactly with the last completed call. */
  lemma {:induction false} RunStaysClosed(run: seq<System>, i: nat)
    requires IsRun(run) && i < |run|
    ensures i == 0 ==> run[i].status == Running
    ensures i > 0 ==>
              && Closed(run[i]) && run[i].state.value.complete <= COMPLETE_CALLS
              && run[i].status == if run[i].state.value.complete == COMPLETE_CALLS then Finished else Running
  {
    if i == 1 {
      FirstTurn(run[0], run[1]);
    } else if i > 1 {
      RunStaysClosed(run, i - 1);
      assert Follows(run[i - 1], run[i - 1 + 1]);
      LaterTurn(run[i - 1], run[i]);
    }
  }

  lemma FirstTurn(sys: System, sys': System)
    requires exists id, garbage :: sys == Start(id, garbage)
    requires Follows(sys, sys')
    ensures Closed(sys') && sys'.status == Running && sys'.state.value.complete == 0
  {
    var id, garbage :| sys == Start(id, garbage);
    hide Turn, Closed;
    var next, d :|
      Choice(sys, next) && Drawn(d) && (next.Some? ==> Dated(next.value.payload)) && sys' == Turn(sys, next, d);
    assert InitEvent(id, garbage) in sys.pending;
    InitCloses(id, garbage, d);
  }

  lemma LaterTurn(sys: System, sys': System)
    requires Closed(sys) && sys.state.value.complete <= COMPLETE_CALLS && Follows(sys, sys')
    requires sys.status == if sys.state.value.complete == COMPLETE_CALLS then Finished else Running
    ensures Closed(sys') && sys'.state.value.complete <= COMPLETE_CALLS
    ensures sys'.status == if sys'.state.value.complete == COMPLETE_CALLS then Finished else Running
  {
    hide Turn, Agrees, Balanced, Choice, Drawn;
    var next, d :|
      Choice(sys, next) && Drawn(d) && (next.Some? ==> Dated(next.value.payload)) && sys' == Turn(sys, next, d);
    TurnKeepsClosed(sys, next, d);
  }

  // ---------------------------------------------------------------- what a closed cell means

  /** `e` is the one pending START_CALL, or the one pending END_CALL for `ch`. */
  ghost predicate OnlyStart(pending: multiset<Event<Msg>>, e: Event<Msg>) {
    && pending[e] == 1 && e.payload.kind == START_CALL
    && forall x | x in pending && x.payload.kind == START_CALL :: x == e
  }

  ghost predicate OnlyEnd(pending: multiset<Event<Msg>>, ch: int, e: Event<Msg>) {
    && pending[e] == 1 && e.payload.kind == END_CALL && e.payload.channel == ch
    && forall x | x in pending && x.payload.kind == END_CALL && x.payload.channel == ch :: x == e
  }

  lemma AgreesEnd(id: nat, busy: set<int>, pending: multiset<Event<Msg>>, start: real, ends: map<int, real>,
                  e: Event<Msg>)
    requires Agrees(id, busy, pending, start, ends)
    ensures e.payload.kind == END_CALL ==>
              && pending[e] == Ends(id, ends)[e]
              && (e in pending <==>
                    e.payload.channel in busy && e == EndEvent(id, e.payload.channel, ends[e.payload.channel]))
              && (e in pending ==> pending[e] == 1)
  {
    EndsMember(id, ends, e);
  }

  lemma AgreesStart(id: nat, busy: set<int>, pending: multiset<Event<Msg>>, start: real, ends: map<int, real>,
                    e: Event<Msg>)
    requires Agrees(id, busy, pending, start, ends)
    ensures e.payload.kind != END_CALL ==>
              (e in pending <==> e == StartEvent(id, start)) && (e in pending ==> pending[e] == 1)
  {
    EndsMember(id, ends, e);
  }

  /** Exactly one START_CALL is pending; the pending END_CALLs and the busy channels are in bijection;
      nothing else is pending, so the queue holds one event more than there are calls. */
  lemma ClosedMeans(sys: System)
    requires Closed(sys)
    ensures var busy := sys.state.value.busy;
            && (exists e :: OnlyStart(sys.pending, e))
            && (forall ch | ch in busy :: exists e :: OnlyEnd(sys.pending, ch, e))
            && (forall e | e in sys.pending ::
                  e.payload.kind == START_CALL || (e.payload.kind == END_CALL && e.payload.channel in busy))
            && |sys.pending| == 1 + |busy| <= 1 + CHANNELS_PER_CELL
  {
    var busy := sys.state.value.busy;
    var start, ends :| Agrees(sys.id, busy, sys.pending, start, ends);
    PendingSize(sys, start, ends);
    hide Agrees, Balanced, OnlyEnd, OnlyStart;
    StartOnce(sys.id, busy, sys.pending, start, ends);
    forall ch | ch in busy ensures exists e :: OnlyEnd(sys.pending, ch, e) {
      EndOnce(sys.id, busy, sys.pending, start, ends, ch);
    }
    forall e | e in sys.pending
      ensures e.payload.kind == START_CALL || (e.payload.kind == END_CALL && e.payload.channel in busy)
    {
      AgreesEnd(sys.id, busy, sys.pending, start, ends, e);
      AgreesStart(sys.id, busy, sys.pending, start, ends, e);
    }
  }

  lemma PendingSize(sys: System, start: real, ends: map<int, real>)
    requires sys.state.Some? && Balanced(sys.state.value)
    requires Agrees(sys.id, sys.state.value.busy, sys.pending, start, ends)
    ensures |sys.pending| == 1 + |sys.state.value.busy| <= 1 + CHANNELS_PER_CELL
  {
    hide UpTo, Ends;
    EndsSize(sys.id, ends, sys.state.value.busy);
  }

  lemma StartOnce(id: nat, busy: set<int>, pending: multiset<Event<Msg>>, start: real, ends: map<int, real>)
    requires Agrees(id, busy, pending, start, ends)
    ensures exists e :: OnlyStart(pending, e)
  {
    hide Agrees;
    var e := StartEvent(id, start);
    AgreesStart(id, busy, pending, start, ends, e);
    forall x | x in pending && x.payload.kind == START_CALL ensures x == e {
      AgreesStart(id, busy, pending, start, ends, x);
    }
    assert OnlyStart(pending, e);
  }

  lemma EndOnce(id: nat, busy: set<int>, pending: multiset<Event<Msg>>, start: real, ends: map<int, real>, ch: int)
    requires Agrees(id, busy, pending, start, ends) && ch in busy
    ensures exists e :: OnlyEnd(pending, ch, e)
  {
    var e := EndEvent(id, ch, ends[ch]);
    assert ch in ends;
    hide Agrees;
    AgreesEnd(id, busy, pending, start, ends, e);
    forall x | x in pending && x.payload.kind == END_CALL && x.payload.channel == ch ensures x == e {
      AgreesEnd(id, busy, pending, start, ends, x);
    }
    assert OnlyEnd(pending, ch, e);
  }
}
