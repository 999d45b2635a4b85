/** The run that a sequence of values of `random()` determines: every draw is a function of how many
    numbers have been drawn before. */
module SeededRun {
  import opened Events
  import opened Calendar
  import opened CalendarRun
  import opened Cell
  import opened ChannelTable
  import Generator
  import opened Options
  import opened Simulation

  /** What `random()` returns, and the logarithm. */
  datatype Source = Source(entropy: nat -> Generator.RandomValue, ln: real -> real)

  ghost predicate Sound(src: Source) {
    Generator.NegativeBelowOne(src.ln)
  }

  function Uniform(src: Source, k: nat): real {
    Generator.NumberAt(src.entropy, k)
  }

  function Exponential(src: Source, mean: real, k: nat): real {
    Generator.ExpentOf(mean, Uniform(src, k), src.ln)
  }

  lemma ExponentialSign(src: Source, mean: real, k: nat)
    requires Sound(src) && mean >= 0.0
    ensures Exponential(src, mean, k) >= 0.0
  {
    hide Generator.NumberAt;
    Generator.ScaledLog(mean, Uniform(src, k), src.ln);
  }

  // ---------------------------------------------------------------- one event

  /** Where nothing is drawn. */
  const NONE_DRAWN := Draws(1.0, 0.0, 0.0)

  /** What a call arriving at `now` draws from number `k` on: its duration, what the allocation takes,
      the time to the next call; a blocked call draws only the last. */
  function CallDraws(src: Source, counter: nat, busy: nat, now: real, k: nat): Draws
    requires now >= 0.0
  {
    if counter == 0 then NONE_DRAWN.(arrival := Exponential(src, RecomputeTa(TA, now), k))
    else
      Draws(1.0, Exponential(src, TA_DURATION, k),
            Exponential(src, RecomputeTa(TA, now), k + 1 + TakenByAllocation(busy)))
  }

  /** How many numbers that takes. */
  function CallTakes(counter: nat, busy: nat): (n: nat)
    ensures n > 0
  {
    if counter == 0 then 1 else 2 + TakenByAllocation(busy)
  }

  function DrawsOf(src: Source, state: Option<State>, msg: Msg, k: nat): Draws
    requires Dated(msg)
  {
    if msg.kind == INIT then NONE_DRAWN.(start := 20.0 * Uniform(src, k))
    else if msg.kind == START_CALL && state.Some? then
      CallDraws(src, state.value.counter, |state.value.busy|, msg.timestamp, k)
    else NONE_DRAWN
  }

  /** How many numbers the handling of an event draws when it returns. */
  function Consumed(state: Option<State>, msg: Msg): nat {
    if msg.kind == INIT then 1
    else if state.None? then 0
    else if msg.kind == START_CALL then CallTakes(state.value.counter, |state.value.busy|)
    else if msg.kind == END_CALL then |state.value.busy - {msg.channel}|
    else 0
  }

  lemma CallDrawsDrawn(src: Source, counter: nat, busy: nat, now: real, k: nat)
    requires Sound(src) && now >= 0.0
    ensures Drawn(CallDraws(src, counter, busy, now, k))
  {
    hide Exponential, Sound, RecomputeTa, TakenByAllocation;
    RecomputeTaBounds(TA, now);
    ExponentialSign(src, RecomputeTa(TA, now), k);
    ExponentialSign(src, TA_DURATION, k);
    ExponentialSign(src, RecomputeTa(TA, now), k + 1 + TakenByAllocation(busy));
  }

  lemma DrawsOfDrawn(src: Source, state: Option<State>, msg: Msg, k: nat)
    requires Sound(src) && Dated(msg)
    ensures Drawn(DrawsOf(src, state, msg, k))
  {
    hide CallDraws, Sound, Generator.NumberAt;
    if msg.kind == START_CALL && state.Some? {
      CallDrawsDrawn(src, state.value.counter, |state.value.busy|, msg.timestamp, k);
    }
  }

  /** The time to the next call is exponential around the rate that the call leaves in the cell, and taken
      from the last number the call draws; the duration is exponential around a minute, from the first. */
  lemma CallQuantiles(src: Source, s: State, msg: Msg, k: nat, exp: real -> real)
    requires Sound(src) && Generator.Undoes(exp, src.ln) && Dated(msg) && msg.kind == START_CALL
    requires Process(Some(s), msg, DrawsOf(src, Some(s), msg, k)).Done?
    ensures var d, n := DrawsOf(src, Some(s), msg, k), Consumed(Some(s), msg);
            var ta := Process(Some(s), msg, d).state.ta;
            && n > 0 && ta > 0.0 && exp(-d.arrival / ta) == 1.0 - Uniform(src, k + n - 1)
            && (s.counter > 0 ==> exp(-d.duration / 60.0) == 1.0 - Uniform(src, k))
  {
    hide Generator.NumberAt, Generator.ExpentOf, Generator.Undoes, RecomputeTa, FirstFree, TakenByAllocation;
    var n := Consumed(Some(s), msg);
    RecomputeTaBounds(TA, msg.timestamp);
    Generator.ExpentQuantile(RecomputeTa(TA, msg.timestamp), Uniform(src, k + n - 1), src.ln, exp);
    Generator.ExpentQuantile(60.0, Uniform(src, k), src.ln, exp);
  }

  /** The first call comes within twenty seconds. */
  lemma FirstCall(src: Source, state: Option<State>, msg: Msg, k: nat)
    requires msg.kind == INIT
    ensures DrawsOf(src, state, msg, k).start / 20.0 == Uniform(src, k) && 0.0 < Uniform(src, k) < 1.0
  {
    hide Generator.NumberAt;
  }

  // ---------------------------------------------------------------- one turn

  /** What the turn draws from number `k` on, and how many numbers it takes. */
  ghost function TurnDraws(src: Source, s: Sim, k: nat): (d: Draws)
    requires Sound(src) && Ready(s)
    ensures Drawn(d)
  {
    hide Dequeue, Bag, DrawsOf;
    if s.queue.size == 0 then NONE_DRAWN
    else
      GetTakes(s.queue, AsWritten);
      DrawsOfDrawn(src, s.state, Dequeue(s.queue, AsWritten).0.payload, k);
      DrawsOf(src, s.state, Dequeue(s.queue, AsWritten).0.payload, k)
  }

  ghost function TurnConsumed(s: Sim): nat
    requires Ready(s)
  {
    if s.queue.size == 0 then 0 else Consumed(s.state, Dequeue(s.queue, AsWritten).0.payload)
  }

  /** The cell when a put of `outcome` fails: an accepted call has its rate `ta` recomputed between the
      two puts. */
  ghost function PutFailed(outcome: Outcome, ta: real, q: Cal<Msg>): State
    requires outcome.Done? && Wf(q) && NotBefore(outcome.puts, 0.0)
  {
    if |outcome.puts| == 2 && Put(q, outcome.puts[0], AsWritten).None? then outcome.state.(ta := ta)
    else outcome.state
  }

  /** The cell when a put of the handling fails; INIT has only stamped the cell it was to replace, if
      there was one. */
  ghost function Interrupted(state: Option<State>, msg: Msg, d: Draws, q: Cal<Msg>): Option<State>
    requires Dated(msg) && Drawn(d) && Wf(q)
  {
    if state.None? || Process(state, msg, d).Abort? then state
    else if msg.kind == INIT then
      Some(state.value.(lvt := msg.timestamp, executed := state.value.executed + 1))
    else
      PutsLater(state, msg, d);
      Some(PutFailed(Process(state, msg, d), state.value.ta, q))
  }

  /** The cell when a resize of the turn fails. */
  ghost function CellLeft(s: Sim, d: Draws): Option<State>
    requires Ready(s) && Drawn(d)
  {
    hide Calendar.Get, Process, Bag;
    if s.queue.size == 0 || Calendar.Get(s.queue, AsWritten).None? then s.state
    else
      GetTakes(s.queue, AsWritten);
      var (e, q1) := Calendar.Get(s.queue, AsWritten).value;
      Interrupted(s.state, e.payload, d, q1)
  }

  // ---------------------------------------------------------------- the whole run

  /** The turns made so far, the numbers drawn by then, and whether the next turn failed. */
  datatype Trace = Trace(run: seq<Sim>, draws: seq<Draws>, drawn: nat, failed: bool)

  /** Where the run has got to. */
  function Last(t: Trace): Sim
    requires |t.run| == |t.draws| + 1
  {
    t.run[|t.draws|]
  }

  ghost predicate IsTrace(t: Trace) {
    |t.run| == |t.draws| + 1 && IsSimRun(t.run, t.draws, AsWritten) && (t.failed ==> Last(t).status == Running)
  }

  predicate Stopped(t: Trace)
    requires |t.run| == |t.draws| + 1
  {
    t.failed || Last(t).status != Running
  }

  lemma TraceReady(t: Trace)
    requires IsTrace(t) && Last(t).status == Running
    ensures Ready(Last(t))
  {
    RunReady(t.run, t.draws, AsWritten);
  }

  /** One turn more, unless the run has stopped. */
  ghost function Continue(src: Source, t: Trace): (t': Trace)
    requires Sound(src) && IsTrace(t)
    ensures IsTrace(t')
  {
    hide IsSimRun, SimTurn, Ready, Sound, TurnDraws, TurnConsumed;
    if Stopped(t) then t
    else
      TraceReady(t);
      var d := TurnDraws(src, Last(t), t.drawn);
      match SimTurn(Last(t), d, AsWritten)
      case None => t.(failed := true)
      case Some(s) =>
        RunExtends(t.run, t.draws, AsWritten, d, s);
        Trace(t.run + [s], t.draws + [d], t.drawn + TurnConsumed(Last(t)), false)
  }

  /** The cell a run leaves behind when its next turn fails. */
  ghost function LeftAfter(src: Source, t: Trace): Option<State>
    requires Sound(src) && IsTrace(t) && Last(t).status == Running
  {
    TraceReady(t);
    CellLeft(Last(t), TurnDraws(src, Last(t), t.drawn))
  }

  ghost function Begun(id: nat, garbage: real, k: nat): (t: Trace)
    ensures IsTrace(t)
  {
    RunBegins(id, garbage, AsWritten);
    Trace([SimStart(id, garbage)], [], k, false)
  }

  /** The first `n` turns of the fiber when the next number its thread draws is number `k`. */
  ghost function TraceOf(src: Source, id: nat, garbage: real, k: nat, n: nat): (t: Trace)
    requires Sound(src)
    ensures IsTrace(t)
  {
    if n == 0 then Begun(id, garbage, k) else Continue(src, TraceOf(src, id, garbage, k, n - 1))
  }

  /** Turn `i` is reached, and a resize of it finds no usable width. */
  ghost predicate FailsAt(src: Source, id: nat, garbage: real, k: nat, i: nat)
    requires Sound(src)
  {
    var t := TraceOf(src, id, garbage, k, i);
    !Stopped(t) && (TraceReady(t); SimTurn(Last(t), TurnDraws(src, Last(t), t.drawn), AsWritten).None?)
  }

  /** Turn `i`, if it is reached, has no ties and spoils no gap. */
  ghost predicate OrderlyAt(src: Source, id: nat, garbage: real, k: nat, i: nat)
    requires Sound(src)
  {
    var t := TraceOf(src, id, garbage, k, i);
    Stopped(t) || (TraceReady(t); OrderlyTurn(Last(t), TurnDraws(src, Last(t), t.drawn), AsWritten))
  }

  lemma TraceStep(src: Source, id: nat, garbage: real, k: nat, n: nat)
    requires Sound(src)
    ensures TraceOf(src, id, garbage, k, n + 1) == Continue(src, TraceOf(src, id, garbage, k, n))
    ensures TraceOf(src, id, garbage, k, 0) == Begun(id, garbage, k)
  {
    hide Continue, Begun, Sound;
  }

  lemma {:induction false} TraceStays(src: Source, id: nat, garbage: real, k: nat, m: nat, n: nat)
    requires Sound(src) && m <= n && Stopped(TraceOf(src, id, garbage, k, m))
    ensures TraceOf(src, id, garbage, k, n) == TraceOf(src, id, garbage, k, m)
    decreases n
  {
    hide TraceOf, IsTrace, Sound;
    if m < n {
      TraceStays(src, id, garbage, k, m, n - 1);
      TraceStep(src, id, garbage, k, n - 1);
      StoppedStays(src, TraceOf(src, id, garbage, k, m));
    }
  }

  lemma StoppedStays(src: Source, t: Trace)
    requires Sound(src) && IsTrace(t) && Stopped(t)
    ensures Continue(src, t) == t
  {
    hide IsSimRun, SimTurn, Ready, Sound, TurnDraws, TurnConsumed;
  }

  lemma FailsNow(src: Source, id: nat, garbage: real, k: nat, i: nat)
    requires Sound(src)
    ensures TraceOf(src, id, garbage, k, i + 1).failed <==>
            TraceOf(src, id, garbage, k, i).failed || FailsAt(src, id, garbage, k, i)
  {
    hide IsSimRun, SimTurn, Ready, Sound, TurnDraws, TurnConsumed, TraceOf;
    TraceStep(src, id, garbage, k, i);
  }

  /** The run is cut short exactly when one of its turns fails. */
  lemma {:induction false} FailedIff(src: Source, id: nat, garbage: real, k: nat, n: nat)
    requires Sound(src)
    ensures TraceOf(src, id, garbage, k, n).failed <==> exists i :: 0 <= i < n && FailsAt(src, id, garbage, k, i)
  {
    hide *;
    TraceStep(src, id, garbage, k, 0);
    BegunRuns(id, garbage, k);
    if n > 0 {
      FailedIff(src, id, garbage, k, n - 1);
      FailsNow(src, id, garbage, k, n - 1);
    }
  }

  /** A turn that goes through leaves the program running, or finished. */
  lemma ContinueLength(src: Source, t: Trace)
    requires Sound(src) && IsTrace(t) && !Stopped(t)
    ensures var t' := Continue(src, t);
            t'.failed || (|t'.draws| == |t.draws| + 1 && (Last(t').status == Running || Last(t').status == Finished))
  {
    hide IsSimRun, SimTurn, Ready, Sound, TurnDraws, TurnConsumed;
    var t' := Continue(src, t);
    if !t'.failed { SimQueueBounded(t'.run, t'.draws, AsWritten, |t'.draws|); }
  }

  /** A run not cut short makes all its turns, or ends with the last call to complete. */
  lemma {:induction false} TraceLength(src: Source, id: nat, garbage: real, k: nat, n: nat)
    requires Sound(src)
    ensures var t := TraceOf(src, id, garbage, k, n);
            t.failed || (Last(t).status == Running && |t.draws| == n) || (Last(t).status == Finished && |t.draws| <= n)
  {
    hide Continue, TraceOf, IsSimRun, Sound, Begun;
    TraceStep(src, id, garbage, k, 0);
    if n > 0 {
      TraceLength(src, id, garbage, k, n - 1);
      TraceStep(src, id, garbage, k, n - 1);
      var t := TraceOf(src, id, garbage, k, n - 1);
      if Stopped(t) { StoppedStays(src, t); } else { ContinueLength(src, t); }
    } else {
      BegunRuns(id, garbage, k);
    }
  }

  lemma BegunRuns(id: nat, garbage: real, k: nat)
    ensures var t := Begun(id, garbage, k); !t.failed && Last(t).status == Running && t.draws == []
  {
    hide IsSimRun;
  }

  lemma TraceEnds(t: Trace)
    requires IsTrace(t) && Last(t).status == Finished
    ensures Last(t).state.Some? && Last(t).state.value.complete == COMPLETE_CALLS
  {
    SimRunIsRun(t.run, t.draws, AsWritten);
    RunStaysClosed(AllContents(t.run), |t.draws|);
  }

  /** The turns so far had no ties and spoiled no gap, and handled the earliest pending event each. */
  ghost predicate OrderlySoFar(t: Trace)
    requires |t.run| == |t.draws| + 1
  {
    && !t.failed && (Last(t).status == Running || Last(t).status == Finished)
    && forall i :: 0 <= i < |t.draws| ==>
         OrderlyTurn(t.run[i], t.draws[i], AsWritten) && InOrder(t.run[i], t.run[i + 1], AsWritten)
  }

  lemma OrderlyContinues(src: Source, t: Trace)
    requires Sound(src) && IsTrace(t) && OrderlySoFar(t) && !Stopped(t) && Ready(Last(t))
    requires OrderlyTurn(Last(t), TurnDraws(src, Last(t), t.drawn), AsWritten)
    ensures OrderlySoFar(Continue(src, t)) && |Continue(src, t).draws| == |t.draws| + 1
  {
    hide IsSimRun, SimTurn, Ready, Sound, TurnDraws, TurnConsumed, OrderlyTurn, InOrder;
    var d := TurnDraws(src, Last(t), t.drawn);
    OrderlyGoesOn(t.run, t.draws, d, AsWritten);
    var s := SimTurn(Last(t), d, AsWritten).value;
    var run, draws := t.run + [s], t.draws + [d];
    forall k | 0 <= k <= |t.draws| ensures OrderlyTurn(run[k], draws[k], AsWritten) {
      if k < |t.draws| { assert run[k] == t.run[k] && draws[k] == t.draws[k]; }
    }
    RunInOrder(run, draws, AsWritten, |t.draws|);
    forall k | 0 <= k < |t.draws| ensures InOrder(run[k], run[k + 1], AsWritten) {
      assert run[k] == t.run[k] && run[k + 1] == t.run[k + 1];
    }
  }

  /** While its turns have no ties and spoil no gap, none of them fails, the loop does not stop before
      the last call, and every event handled is the earliest pending. */
  lemma {:induction false} OrderlyTrace(src: Source, id: nat, garbage: real, k: nat, n: nat)
    requires Sound(src) && forall i :: 0 <= i < n ==> OrderlyAt(src, id, garbage, k, i)
    ensures var t := TraceOf(src, id, garbage, k, n);
            OrderlySoFar(t) && (|t.draws| == n || (|t.draws| < n && Last(t).status == Finished))
  {
    hide Continue, TraceOf, OrderlyTurn, InOrder, IsSimRun, TurnDraws, SimTurn, Sound, Ready;
    TraceStep(src, id, garbage, k, 0);
    if n > 0 {
      OrderlyTrace(src, id, garbage, k, n - 1);
      TraceStep(src, id, garbage, k, n - 1);
      assert OrderlyAt(src, id, garbage, k, n - 1);
      var t := TraceOf(src, id, garbage, k, n - 1);
      if Stopped(t) { StoppedStays(src, t); } else { TraceReady(t); OrderlyContinues(src, t); }
    }
  }
}
