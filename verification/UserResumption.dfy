/** What becomes of the user-space protocol when a resumed fiber takes the saving branch of
    context_switch once more. */
module UserResumption {
  import J = Jump
  import opened Options
  import opened UserFibers

  /** `Retakes` is the test of context_switch on the machine of `Jump`: a fiber saved in state `s0` and resumed
      with its saved rax finds the low word of what set_jmp returns zero exactly then. */
  lemma RetakesIsTest(s0: J.State, s1: J.State, s2: J.State, rest: int)
    requires J.SetJmpDone(s0, s1)
    requires s2.rdi == s0.rdi && J.Load(s2.mem, s0.rdi) == J.Load(s1.mem, s0.rdi) && s2.rsi == J.Read(s2.mem, s2.rdi)
    ensures Retakes(Context(s0.rax, rest)) <==> J.Resumed(s2).rax % 0x1_0000_0000 == 0
  {
    J.ResumedTest(s0, s1, s2);
  }

  /** The flag of every current fiber is set. */
  ghost predicate Flagged(w: World) {
    forall t :: t in w.cpus && w.cpus[t].current.Some? ==>
      w.cpus[t].current.value in w.fibers && w.fibers[w.cpus[t].current.value].holder.Some?
  }

  /** Every thread is back in user code. */
  ghost predicate Settled(w: World) {
    forall t :: t in w.cpus ==> w.cpus[t].pc.User?
  }

  lemma InvFlagged(w: World)
    requires Inv(w)
    ensures Flagged(w)
  {
    forall t | t in w.cpus && w.cpus[t].current.Some?
      ensures w.cpus[t].current.value in w.fibers && w.fibers[w.cpus[t].current.value].holder.Some?
    {
      assert ThreadOk(w, t);
      var f := w.cpus[t].current.value;
      assert f in Held(w, t);
      assert w.fibers[f].holder == Some(t);
    }
  }

  // ---------------------------------------------------------------- a frame of ult_switch_to

  /** Thread `t` is about to clear the flag of its own current fiber. */
  ghost predicate Clearing(w: World, t: int, f: int) {
    t in w.cpus && w.cpus[t].current == Some(f) && w.cpus[t].pc.Unlock? && w.cpus[t].pc.from == f
  }

  lemma ClearingStep(w: World, t: int, f: int, u: int, e: Event)
    requires Clearing(w, t, f) && Allowed(w, u, e)
    ensures u != t ==> Clearing(Do(w, u, e), t, f)
    ensures u == t ==> !Flagged(Do(w, u, e))
  {
    if u == t {
      var w' := Do(w, t, e);
      assert t in w'.cpus && w'.cpus[t].current == Some(f) && w'.fibers[f].holder.None?;
    }
  }

  /** A run that ends settled gets to the point where the flag is clear. */
  lemma {:induction false} ClearingEnds(ws: seq<World>, steps: seq<(int, Event)>, j: nat, t: int, f: int)
    returns (m: nat)
    requires IsRun(ws, steps) && j <= |steps| && Clearing(ws[j], t, f) && Settled(ws[|steps|])
    ensures m <= |steps| && !Flagged(ws[m])
    decreases |steps| - j
  {
    hide Do, Allowed, Initial, Flagged;
    assert j < |steps|;
    ClearingStep(ws[j], t, f, steps[j].0, steps[j].1);
    if steps[j].0 == t {
      m := j + 1;
    } else {
      m := ClearingEnds(ws, steps, j + 1, t, f);
    }
  }

  // ---------------------------------------------------------------- a frame of context_create_boot

  /** What a thread may be doing while fiber `f` cannot be left. */
  ghost predicate Bystander(cpu: Cpu, f: int) {
    && (cpu.current == Some(f) ==>
          match cpu.pc
          case Crashed => true
          case Load(g) => g == f
          case Unlock(g, _) => g == f
          case Save(g, _) => g == f
          case _ => false)
    && match cpu.pc
       case TryLock(_) => cpu.current.Some?
       case SetCurrent(_, from) => from != f
       case Save(_, from) => from != f
       case LockNew(g) => g != f
       case SaveNew(g) => g != f
       case Adopt(g) => g != f
       case _ => true
  }

  /** Thread `t` loads fiber `f` over and over: its context is that of a boot frame, takes the saving
      branch, and the jump goes to the current fiber, which is `f` again. */
  ghost predicate Looping(w: World, t: int, f: int) {
    && t in w.cpus && w.cpus[t].current == Some(f)
    && f in w.fibers && f < w.nextId && w.fibers[f].frame.Booting? && Retaking(w.fibers[f])
    && forall u :: u in w.cpus ==> Bystander(w.cpus[u], f)
  }

  lemma LoopingStep(w: World, t: int, f: int, u: int, e: Event)
    requires Looping(w, t, f) && Allowed(w, u, e)
    ensures Looping(Do(w, u, e), t, f)
  {
    assert Bystander(w.cpus[u], f) && Bystander(w.cpus[t], f);
    var w' := Do(w, u, e);
    assert Bystander(w'.cpus[u], f);
    forall v | v in w'.cpus ensures Bystander(w'.cpus[v], f) {
      if v != u { assert Bystander(w.cpus[v], f); }
    }
  }

  lemma {:induction false} LoopingStays(ws: seq<World>, steps: seq<(int, Event)>, j: nat, t: int, f: int)
    requires IsRun(ws, steps) && j <= |steps| && Looping(ws[j], t, f)
    ensures Looping(ws[|steps|], t, f)
    decreases |steps| - j
  {
    hide Do, Allowed, Initial, Looping;
    if j < |steps| {
      LoopingStep(ws[j], t, f, steps[j].0, steps[j].1);
      LoopingStays(ws, steps, j + 1, t, f);
    }
  }

  lemma LoopingNeverSettles(w: World, t: int, f: int)
    requires Looping(w, t, f)
    ensures !Settled(w)
  {
    assert Bystander(w.cpus[t], f);
  }

  // ---------------------------------------------------------------- the first retaking load

  lemma RetakeStarts(w: World, t: int)
    requires Inv(w) && Allowed(w, t, Advance) && LoadRetakes(w, t, Advance)
    ensures var f, w' := w.cpus[t].pc.fid, Do(w, t, Advance);
            if w.fibers[f].frame.Switching? then Clearing(w', t, f) else Looping(w', t, f)
  {
    assert ThreadOk(w, t);
    var f, w' := w.cpus[t].pc.fid, Do(w, t, Advance);
    assert FiberOk(w, f) && f in Held(w, t);
    if w.fibers[f].frame.Booting? {
      forall u | u in w'.cpus ensures Bystander(w'.cpus[u], f) {
        assert ThreadOk(w, u);
        if u != t { OthersStandBy(w, t, u, f); }
      }
    }
  }

  lemma OthersStandBy(w: World, t: int, u: int, f: int)
    requires Inv(w) && t in w.cpus && u in w.cpus && u != t && w.cpus[t].current == Some(f)
    ensures Bystander(w.cpus[u], f)
  {
    assert ThreadOk(w, t) && ThreadOk(w, u);
    assert f in Held(w, t) && w.fibers[f].holder == Some(t);
    assert f !in Held(w, u);
  }

  lemma {:induction false} FirstRetake(ws: seq<World>, steps: seq<(int, Event)>, n: nat) returns (k: nat)
    requires n <= |steps| < |ws| && !Straight(ws, steps, n)
    ensures k < n && Straight(ws, steps, k) && LoadRetakes(ws[k], steps[k].0, steps[k].1)
  {
    hide LoadRetakes;
    if Straight(ws, steps, n - 1) {
      k := n - 1;
    } else {
      k := FirstRetake(ws, steps, n - 1);
    }
  }

  /** In a run after which every thread is back in user code, the flag of every current fiber was set
      throughout if and only if no context loaded took the saving branch once more. */
  lemma FlaggedIffStraight(ws: seq<World>, steps: seq<(int, Event)>)
    requires IsRun(ws, steps) && Settled(ws[|steps|])
    ensures (forall i :: 0 <= i <= |steps| ==> Flagged(ws[i])) <==> Straight(ws, steps, |steps|)
  {
    hide Flagged, Settled, Inv, Do, LoadRetakes;
    if Straight(ws, steps, |steps|) {
      forall i | 0 <= i <= |steps| ensures Flagged(ws[i]) {
        RunInv(ws, steps, i);
        InvFlagged(ws[i]);
      }
    } else {
      var m := RetakeShows(ws, steps);
    }
  }

  lemma RetakeShows(ws: seq<World>, steps: seq<(int, Event)>) returns (m: nat)
    requires IsRun(ws, steps) && Settled(ws[|steps|]) && !Straight(ws, steps, |steps|)
    ensures m <= |steps| && !Flagged(ws[m])
  {
    hide Flagged, Settled, Inv, Do, Clearing, Looping;
    m := 0;
    var k := FirstRetake(ws, steps, |steps|);
    RunInv(ws, steps, k);
    var t := steps[k].0;
    RetakeStarts(ws[k], t);
    var f := ws[k].cpus[t].pc.fid;
    if ws[k].fibers[f].frame.Switching? {
      m := ClearingEnds(ws, steps, k + 1, t, f);
    } else {
      LoopingStays(ws, steps, k + 1, t, f);
      LoopingNeverSettles(ws[|steps|], t, f);
    }
  }
}
