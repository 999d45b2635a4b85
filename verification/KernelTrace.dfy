/** Runs of the kernel protocol in which a caller names a fid that was never returned. */
module KernelTrace {
  import opened FiberStorage
  import opened KernelFibers
  import opened KernelGuesses
  import opened KernelInvariant
  import opened KernelTheorems
  import opened Options

  /** The steps lead from one world to the other. */
  ghost predicate Leads(w: World, steps: seq<(int, Event)>, w': World)
    decreases |steps|
  {
    if steps == [] then w' == w
    else Possible(w, steps[0].0, steps[0].1) && Leads(Do(w, steps[0].0, steps[0].1), steps[1..], w')
  }

  lemma {:induction false} LeadsOn(w: World, a: seq<(int, Event)>, v: World, b: seq<(int, Event)>, w': World)
    requires Leads(w, a, v) && Leads(v, b, w')
    ensures Leads(w, a + b, w')
    decreases |a|
  {
    hide Possible, Do;
    if a == [] {
      assert a + b == b;
    } else {
      LeadsOn(Do(w, a[0].0, a[0].1), a[1..], v, b, w');
      assert (a + b)[1..] == a[1..] + b;
    }
  }

  lemma {:induction false} RunOf(w: World, steps: seq<(int, Event)>, w': World) returns (ws: seq<World>)
    requires Leads(w, steps, w')
    ensures |ws| == |steps| + 1 && ws[0] == w && ws[|steps|] == w'
    ensures Initial(w) ==> IsRun(ws, steps, AnyNumber)
    ensures forall i :: 0 <= i < |steps| ==>
              Possible(ws[i], steps[i].0, steps[i].1) && ws[i + 1] == Do(ws[i], steps[i].0, steps[i].1)
    decreases |steps|
  {
    hide Possible, Do, Initial;
    if steps == [] {
      ws := [w];
    } else {
      var rest := RunOf(Do(w, steps[0].0, steps[0].1), steps[1..], w');
      ws := [w] + rest;
      forall i | 0 <= i < |steps|
        ensures Possible(ws[i], steps[i].0, steps[i].1) && ws[i + 1] == Do(ws[i], steps[i].0, steps[i].1)
      {
        if i > 0 { assert steps[i] == steps[1..][i - 1] && ws[i] == rest[i - 1] && ws[i + 1] == rest[i]; }
      }
    }
  }

  lemma Stay(w: World) returns (steps: seq<(int, Event)>)
    ensures Leads(w, steps, w)
  {
    steps := [];
  }

  /** One step more. */
  lemma Further(w: World, steps: seq<(int, Event)>, v: World, t: int, e: Event, w': World)
    returns (more: seq<(int, Event)>)
    requires Leads(w, steps, v) && Possible(v, t, e) && w' == Do(v, t, e)
    ensures Leads(w, more, w')
  {
    hide Possible, Do;
    assert [(t, e)][1..] == [];
    assert Leads(v, [(t, e)], w');
    LeadsOn(w, steps, v, [(t, e)], w');
    more := steps + [(t, e)];
  }

  // ---------------------------------------------------------------- whole calls

  /** `w` with thread `t` and fiber `f` as given. */
  ghost function With(w: World, t: int, cpu: Cpu, f: int, fiber: Fiber): World {
    w.(cpus := w.cpus[t := cpu], fibers := w.fibers[f := fiber])
  }

  /** A free fiber taken and activated by thread `t`. */
  ghost function Activated(fiber: Fiber, t: int, cpu: Cpu): Fiber {
    fiber.(holder := Some(t), state := t, activations := fiber.activations + 1,
           lastActivation := cpu.utime, stampedBy := t)
  }

  /** A fiber left by thread `t`. */
  ghost function Left(fiber: Fiber, t: int, cpu: Cpu): Fiber {
    fiber.(holder := None, state := 0, saved := cpu.live,
           running := fiber.running + (cpu.utime - fiber.lastActivation),
           slices := fiber.slices + [Slice(t, fiber.lastActivation, cpu.utime)])
  }

  /** One step more that touches at most fiber `f`. */
  lemma Onward(w0: World, steps: seq<(int, Event)>, w: World, t: int, cpu: Cpu, f: int, fiber: Fiber, cpu': Cpu,
               fiber': Fiber)
    returns (more: seq<(int, Event)>)
    requires t in w.cpus && !cpu.pc.User? && Leads(w0, steps, With(w, t, cpu, f, fiber))
    requires var v := With(w, t, cpu, f, fiber);
             || Begin(v, t, cpu, Advance) == Touch(v, cpu', f, fiber')
             || (Begin(v, t, cpu, Advance) == Quiet(v, cpu') && fiber' == fiber)
    ensures Leads(w0, more, With(w, t, cpu', f, fiber'))
  {
    hide Leads, Begin;
    var v := With(w, t, cpu, f, fiber);
    assert v.cpus[t] == cpu;
    assert v.cpus[t := cpu'] == w.cpus[t := cpu'];
    assert v.fibers[f := fiber'] == w.fibers[f := fiber'];
    more := Further(w0, steps, v, t, Advance, With(w, t, cpu', f, fiber'));
  }

  /** A thread about to take the lock of free fiber `f`: the steps up to the change of its current fiber. */
  lemma Activates(w: World, t: int, f: int, why: Purpose, prev: int) returns (steps: seq<(int, Event)>)
    requires t in w.cpus && w.cpus[t].pc == TryLock(f, why) && f in w.fibers
    requires w.fibers[f].holder.None? && w.fibers[f].state == 0
    requires if why.Converting? then prev == NO_FIBERS else t in w.table && w.table[t] == prev && prev in w.fibers
    ensures var cpu := w.cpus[t];
            Leads(w, steps, With(w, t, cpu.(pc := SetCurrent(f, why, prev)), f, Activated(w.fibers[f], t, cpu)))
  {
    hide Leads, Touch, Quiet;
    var cpu, a := w.cpus[t], w.fibers[f];
    var locked := a.(holder := Some(t));
    var next := cpu.(pc := SetState(f, why, prev));
    steps := Stay(w);
    assert With(w, t, cpu, f, a) == w;
    steps := Onward(w, steps, w, t, cpu, f, a, cpu.(pc := CheckState(f, why)), locked);
    steps := Looks(w, steps, w, t, cpu.(pc := CheckState(f, why)), f, locked, prev);
    steps := Marks(w, steps, w, t, next, f, locked);
  }

  lemma Looks(w0: World, before: seq<(int, Event)>, w: World, t: int, cpu: Cpu, f: int, a: Fiber, prev: int)
    returns (steps: seq<(int, Event)>)
    requires t in w.cpus && cpu.pc.CheckState? && cpu.pc.fid == f && a.state == 0
    requires Leads(w0, before, With(w, t, cpu, f, a))
    requires if cpu.pc.why.Converting? then prev == NO_FIBERS
             else t in w.table && w.table[t] == prev && prev in w.fibers
    ensures Leads(w0, steps, With(w, t, cpu.(pc := SetState(f, cpu.pc.why, prev)), f, a))
  {
    hide Leads, Touch, Quiet;
    var next := cpu.(pc := SetState(f, cpu.pc.why, prev));
    steps := before;
    if cpu.pc.why.Switching? {
      var find := cpu.(pc := FindOld(f));
      steps := Onward(w0, steps, w, t, cpu, f, a, find, a);
      steps := Onward(w0, steps, w, t, find, f, a, next, a);
    } else {
      steps := Onward(w0, steps, w, t, cpu, f, a, next, a);
    }
  }

  lemma Marks(w0: World, before: seq<(int, Event)>, w: World, t: int, cpu: Cpu, f: int, a: Fiber)
    returns (steps: seq<(int, Event)>)
    requires t in w.cpus && cpu.pc.SetState? && cpu.pc.fid == f && a.holder == Some(t)
    requires Leads(w0, before, With(w, t, cpu, f, a))
    ensures Leads(w0, steps, With(w, t, cpu.(pc := SetCurrent(f, cpu.pc.why, cpu.pc.prev)), f, Activated(a, t, cpu)))
  {
    hide Leads, Touch, Quiet;
    var why, prev := cpu.pc.why, cpu.pc.prev;
    var count, stamp := cpu.(pc := CountActivation(f, why, prev)), cpu.(pc := StampTime(f, why, prev));
    var b := a.(state := t);
    var c := b.(activations := a.activations + 1);
    steps := Onward(w0, before, w, t, cpu, f, a, count, b);
    steps := Onward(w0, steps, w, t, count, f, b, stamp, c);
    steps := Onward(w0, steps, w, t, stamp, f, c, cpu.(pc := SetCurrent(f, why, prev)), Activated(a, t, cpu));
  }

  /** A thread saves itself into fiber `g` and lets it go. */
  lemma Leaves(w0: World, before: seq<(int, Event)>, w: World, t: int, f: int, g: int)
    returns (steps: seq<(int, Event)>)
    requires t in w.cpus && w.cpus[t].pc == SaveRegs(f, g) && g in w.fibers && Leads(w0, before, w)
    ensures var cpu := w.cpus[t];
            Leads(w0, steps, With(w, t, cpu.(pc := LoadRegs(f)), g, Left(w.fibers[g], t, cpu)))
  {
    hide Leads, Touch, Quiet;
    var cpu, a := w.cpus[t], w.fibers[g];
    var b := a.(saved := a.saved.(regs := cpu.live.regs));
    var c := a.(saved := cpu.live);
    var d := c.(running := a.running + (cpu.utime - a.lastActivation),
                slices := a.slices + [Slice(t, a.lastActivation, cpu.utime)]);
    assert With(w, t, cpu, g, a) == w;
    steps := Onward(w0, before, w, t, cpu, g, a, cpu.(pc := SaveFpu(f, g)), b);
    steps := Onward(w0, steps, w, t, cpu.(pc := SaveFpu(f, g)), g, b, cpu.(pc := Account(f, g)), c);
    steps := Onward(w0, steps, w, t, cpu.(pc := Account(f, g)), g, c, cpu.(pc := ClearState(f, g)), d);
    steps := LetsGo(w0, steps, w, t, cpu.(pc := ClearState(f, g)), g, d);
  }

  lemma LetsGo(w0: World, before: seq<(int, Event)>, w: World, t: int, cpu: Cpu, g: int, a: Fiber)
    returns (steps: seq<(int, Event)>)
    requires t in w.cpus && cpu.pc.ClearState? && cpu.pc.prev == g && Leads(w0, before, With(w, t, cpu, g, a))
    ensures Leads(w0, steps, With(w, t, cpu.(pc := LoadRegs(cpu.pc.fid)), g, a.(holder := None, state := 0)))
  {
    hide Leads, Touch, Quiet;
    var f := cpu.pc.fid;
    steps := Onward(w0, before, w, t, cpu, g, a, cpu.(pc := Unlock(f, g)), a.(state := 0));
    steps := Onward(w0, steps, w, t, cpu.(pc := Unlock(f, g)), g, a.(state := 0),
                    cpu.(pc := LoadRegs(f)), a.(holder := None, state := 0));
  }

  /** A thread loads fiber `f`. */
  lemma Loads(w0: World, before: seq<(int, Event)>, w: World, t: int, f: int) returns (steps: seq<(int, Event)>)
    requires t in w.cpus && w.cpus[t].pc == LoadRegs(f) && f in w.fibers && Leads(w0, before, w)
    ensures Leads(w0, steps, w.(cpus := w.cpus[t := w.cpus[t].(live := w.fibers[f].saved, pc := User, ret := SUCCESS)]))
  {
    hide Leads, Touch, Quiet;
    var cpu, a := w.cpus[t], w.fibers[f];
    var half := cpu.(pc := LoadFpu(f), live := cpu.live.(regs := a.saved.regs));
    assert With(w, t, cpu, f, a) == w;
    steps := Onward(w0, before, w, t, cpu, f, a, half, a);
    var done := cpu.(live := a.saved, pc := User, ret := SUCCESS);
    steps := Onward(w0, steps, w, t, half, f, a, done, a);
    assert With(w, t, done, f, a) == w.(cpus := w.cpus[t := done]);
  }

  /** The world after thread `t` has switched to the free fiber `f`. */
  ghost function Switched(w: World, t: int, f: int): World
    requires t in w.cpus && t in w.table && f in w.fibers && w.table[t] in w.fibers
  {
    var cpu, g := w.cpus[t], w.table[t];
    World(w.fidCount, w.table[t := f], w.cpus[t := cpu.(live := w.fibers[f].saved, pc := User, ret := SUCCESS)],
          w.fibers[f := Activated(w.fibers[f], t, cpu)][g := Left(w.fibers[g], t, cpu)], w.published)
  }

  /** A switch that nothing interrupts. */
  lemma Switches(w: World, t: int, f: int) returns (steps: seq<(int, Event)>)
    requires t in w.cpus && w.cpus[t].pc.User? && t in w.table && w.table[t] in w.fibers && f != w.table[t]
    requires f in w.fibers && w.fibers[f].holder.None? && w.fibers[f].state == 0
    ensures Leads(w, steps, Switched(w, t, f))
  {
    hide Leads;
    var cpu, g := w.cpus[t], w.table[t];
    var w1 := w.(cpus := w.cpus[t := cpu.(pc := TryLock(f, Switching))]);
    steps := Stay(w);
    steps := Further(w, steps, w, t, SwitchTo(f), w1);
    var more := Activates(w1, t, f, Switching, g);
    var w2 := With(w, t, cpu.(pc := SetCurrent(f, Switching, g)), f, Activated(w.fibers[f], t, cpu));
    assert w1.cpus[t := w2.cpus[t]] == w2.cpus;
    LeadsOn(w, steps, w1, more, w2);
    steps := ChangesOver(w, steps + more, w2, t, f, g);
    assert w2.cpus[t := Switched(w, t, f).cpus[t]] == Switched(w, t, f).cpus;
  }

  lemma ChangesOver(w0: World, before: seq<(int, Event)>, w: World, t: int, f: int, g: int)
    returns (steps: seq<(int, Event)>)
    requires t in w.cpus && w.cpus[t].pc == SetCurrent(f, Switching, g) && f in w.fibers && g in w.fibers && f != g
    requires Leads(w0, before, w)
    ensures var cpu := w.cpus[t];
            Leads(w0, steps, World(w.fidCount, w.table[t := f],
                                   w.cpus[t := cpu.(live := w.fibers[f].saved, pc := User, ret := SUCCESS)],
                                   w.fibers[g := Left(w.fibers[g], t, cpu)], w.published))
  {
    hide Leads;
    var cpu := w.cpus[t];
    var w1 := w.(table := w.table[t := f], cpus := w.cpus[t := cpu.(pc := SaveRegs(f, g))]);
    steps := Further(w0, before, w, t, Advance, w1);
    steps := Leaves(w0, steps, w1, t, f, g);
    var w2 := With(w1, t, cpu.(pc := LoadRegs(f)), g, Left(w.fibers[g], t, cpu));
    steps := Loads(w0, steps, w2, t, f);
    var done := cpu.(live := w.fibers[f].saved, pc := User, ret := SUCCESS);
    assert w2.cpus[t := done] == w.cpus[t := done];
  }

  /** A call that makes a new fiber, up to its publication in the table. */
  lemma Makes(w: World, t: int, make: Make) returns (steps: seq<(int, Event)>)
    requires t in w.cpus && w.cpus[t].pc == NextFid(make)
    ensures var n, cpu := w.fidCount + 1, w.cpus[t];
            var next := cpu.(pc := if make.ForThread? then TryLock(n, Converting) else SetContext(make, n));
            Leads(w, steps, With(w, t, next, n, FreshFiber(cpu.live)).(fidCount := n))
  {
    hide Leads, FreshFiber;
    var n, cpu := w.fidCount + 1, w.cpus[t];
    var w1 := w.(fidCount := n, cpus := w.cpus[t := cpu.(pc := AddFiber(make, n))]);
    var next := cpu.(pc := if make.ForThread? then TryLock(n, Converting) else SetContext(make, n));
    steps := Stay(w);
    steps := Further(w, steps, w, t, Advance, w1);
    assert w1.cpus[t := next] == w.cpus[t := next];
    steps := Further(w, steps, w1, t, Advance, With(w, t, next, n, FreshFiber(cpu.live)).(fidCount := n));
  }

  /** The world after thread `t` has become a fiber. */
  ghost function Converted(w: World, t: int): World
    requires t in w.cpus
  {
    var n, cpu := w.fidCount + 1, w.cpus[t];
    World(n, w.table[t := n], w.cpus[t := cpu.(ret := n)],
          w.fibers[n := Activated(FreshFiber(cpu.live), t, cpu)], w.published + {n})
  }

  /** A thread on its way to be converted, its fiber in the table and not yet locked. */
  ghost function Entered(w: World, t: int): World
    requires t in w.cpus
  {
    var n, cpu := w.fidCount + 1, w.cpus[t];
    World(n, w.table[t := NO_FIBERS], w.cpus[t := cpu.(pc := TryLock(n, Converting))],
          w.fibers[n := FreshFiber(cpu.live)], w.published)
  }

  lemma Enters(w: World, t: int) returns (steps: seq<(int, Event)>)
    requires t in w.cpus && w.cpus[t].pc.User? && t !in w.table
    ensures Leads(w, steps, Entered(w, t))
  {
    hide Leads, FreshFiber;
    var cpu := w.cpus[t];
    var w1 := w.(table := w.table[t := NO_FIBERS], cpus := w.cpus[t := cpu.(pc := NextFid(ForThread))]);
    steps := Stay(w);
    steps := Further(w, steps, w, t, ConvertThread, w1);
    var more := Makes(w1, t, ForThread);
    assert w1.cpus[t := Entered(w, t).cpus[t]] == Entered(w, t).cpus;
    LeadsOn(w, steps, w1, more, Entered(w, t));
    steps := steps + more;
  }

  /** A conversion that nothing interrupts. */
  lemma Converts(w: World, t: int) returns (steps: seq<(int, Event)>)
    requires t in w.cpus && w.cpus[t].pc.User? && t !in w.table
    ensures Leads(w, steps, Converted(w, t))
  {
    hide Leads, Activated;
    var n, cpu, w1 := w.fidCount + 1, w.cpus[t], Entered(w, t);
    steps := Enters(w, t);
    var more := Activates(w1, t, n, Converting, NO_FIBERS);
    var fiber := Activated(w1.fibers[n], t, w1.cpus[t]);
    var w2 := With(w1, t, cpu.(pc := SetCurrent(n, Converting, NO_FIBERS)), n, fiber);
    LeadsOn(w, steps, w1, more, w2);
    steps := Adopts(w, steps + more, w2, t, n);
    assert w2.cpus[t := cpu.(ret := n)] == Converted(w, t).cpus;
    assert w2.table[t := n] == Converted(w, t).table;
    SameActivation(FreshFiber(cpu.live), t, w1.cpus[t], cpu);
    assert w2.fibers == Converted(w, t).fibers;
  }

  lemma SameActivation(a: Fiber, t: int, cpu: Cpu, cpu': Cpu)
    requires cpu.utime == cpu'.utime
    ensures Activated(a, t, cpu) == Activated(a, t, cpu')
  {
  }

  lemma Adopts(w0: World, before: seq<(int, Event)>, w: World, t: int, n: int) returns (steps: seq<(int, Event)>)
    requires t in w.cpus && w.cpus[t].pc == SetCurrent(n, Converting, NO_FIBERS) && Leads(w0, before, w)
    ensures Leads(w0, steps, World(w.fidCount, w.table[t := n], w.cpus[t := w.cpus[t].(pc := User, ret := n)],
                                   w.fibers, w.published + {n}))
  {
    hide Leads;
    var cpu := w.cpus[t];
    var w1 := w.(table := w.table[t := n], cpus := w.cpus[t := cpu.(pc := Return(n, ForThread))]);
    steps := Further(w0, before, w, t, Advance, w1);
    var w2 := w1.(cpus := w.cpus[t := cpu.(pc := User, ret := n)], published := w.published + {n});
    assert w1.cpus[t := w2.cpus[t]] == w2.cpus;
    steps := Further(w0, steps, w1, t, Advance, w2);
  }

  // ---------------------------------------------------------------- a fiber taken while it is created

  /** A thread that names a fiber being created by another ends up, its call a success, in the creator's
      own context: on its stack, with its registers. */
  lemma CreatorsContextTaken(w: World, c: int, u: int) returns (steps: seq<(int, Event)>)
    requires Inv(w) && c in w.cpus && w.cpus[c].pc.SetContext?
    requires u in w.cpus && u != c && w.cpus[u].pc.User? && Attached(w, u)
    ensures w.cpus[c].pc.fid in w.fibers && w.table[u] in w.fibers
    ensures var f := w.cpus[c].pc.fid;
            var w' := Switched(w, u, f);
            && Leads(w, steps, w') && w'.table[u] == f && w'.cpus[u].pc.User? && w'.cpus[u].ret == SUCCESS
            && w'.cpus[c] == w.cpus[c] && w'.cpus[u].live == w.cpus[c].live
  {
    hide Inv, Leads;
    CreatedInTable(w, c, u);
    steps := Switches(w, u, w.cpus[c].pc.fid);
  }

  /** Once the creator has written the fiber's context, the same call gets that. */
  lemma OwnContextTaken(w: World, c: int, u: int) returns (steps: seq<(int, Event)>)
    requires Inv(w) && c in w.cpus && w.cpus[c].pc.SetContext?
    requires u in w.cpus && u != c && w.cpus[u].pc.User? && Attached(w, u)
    ensures w.cpus[c].pc.make.ForEntry? && u in Do(w, c, Advance).cpus && u in Do(w, c, Advance).table
    ensures w.cpus[c].pc.fid in Do(w, c, Advance).fibers && Do(w, c, Advance).table[u] in Do(w, c, Advance).fibers
    ensures var f := w.cpus[c].pc.fid;
            var w' := Switched(Do(w, c, Advance), u, f);
            && Leads(Do(w, c, Advance), steps, w') && w'.table[u] == f && w'.cpus[u].ret == SUCCESS
            && EnteredFresh(w'.cpus[u].live, w.cpus[c].pc.make, w.cpus[c].live)
  {
    hide Inv, Leads;
    CreatedInTable(w, c, u);
    CreatingThread(w, c);
    steps := Switches(Do(w, c, Advance), u, w.cpus[c].pc.fid);
  }

  lemma CreatingThread(w: World, c: int)
    requires Inv(w) && c in w.cpus && w.cpus[c].pc.SetContext?
    ensures w.cpus[c].pc.make.ForEntry?
  {
    assert ThreadOk(w, c);
  }

  // ---------------------------------------------------------------- two runs

  const L1 := Context(Regs(100, 0, 1000, 1000, 0), 0)
  const L2 := Context(Regs(200, 0, 2000, 2000, 0), 0)

  ghost function Start(): World {
    World(NO_FIBERS, map[], map[1 := Cpu(L1, 0, User, 0), 2 := Cpu(L2, 0, User, 0)], map[], {})
  }

  /** Thread 1 is fiber 0, and thread 2 is being converted; thread 1 names its fiber 1 and leaves fiber 0. */
  ghost function Guessed(): World {
    Switched(Entered(Converted(Start(), 1), 2), 1, 1)
  }

  lemma Guesses() returns (steps: seq<(int, Event)>)
    ensures Leads(Start(), steps, Guessed())
  {
    hide Leads, Activated, Left;
    var w1, w2 := Converted(Start(), 1), Entered(Converted(Start(), 1), 2);
    steps := Converts(Start(), 1);
    var more := Enters(w1, 2);
    LeadsOn(Start(), steps, w1, more, w2);
    steps := steps + more;
    more := Switches(w2, 1, 1);
    LeadsOn(Start(), steps, w2, more, Guessed());
    steps := steps + more;
  }

  lemma GuessedWorld()
    ensures var w := Guessed();
            && w.table == map[1 := 1, 2 := NO_FIBERS] && w.cpus.Keys == {1, 2} && w.fibers.Keys == {0, 1}
            && w.cpus[1].pc == User && w.cpus[2].pc == TryLock(1, Converting)
            && w.fibers[1].holder == Some(1) && w.fibers[0].holder.None? && w.fibers[0].state == 0
  {
  }

  /** The world after thread `t` has found the lock of its new fiber `f` taken and has then tried to switch
      to fiber `g`. */
  ghost function Stranded(w: World, t: int, f: int, g: int): World
    requires t in w.cpus && f in w.fibers && g in w.fibers
  {
    w.(cpus := w.cpus[t := w.cpus[t].(pc := User, ret := -ESRCH)],
       fibers := w.fibers[f := w.fibers[f].(failed := w.fibers[f].failed + 1)][g := w.fibers[g].(holder := Some(t))])
  }

  lemma Strands(w0: World, before: seq<(int, Event)>, w: World, t: int, f: int, g: int)
    returns (steps: seq<(int, Event)>)
    requires t in w.cpus && w.cpus[t].pc == TryLock(f, Converting) && f in w.fibers && w.fibers[f].holder.Some?
    requires t in w.table && w.table[t] == NO_FIBERS && NO_FIBERS !in w.fibers
    requires g in w.fibers && g != f && w.fibers[g].holder.None? && w.fibers[g].state == 0 && Leads(w0, before, w)
    ensures Leads(w0, steps, Stranded(w, t, f, g))
  {
    hide Leads, Touch;
    var cpu, a, b := w.cpus[t], w.fibers[f], w.fibers[g];
    var back := cpu.(pc := User, ret := -EAGAIN);
    var v := With(w, t, back, f, a.(failed := a.failed + 1));
    assert With(w, t, cpu, f, a) == w;
    steps := Onward(w0, before, w, t, cpu, f, a, back, a.(failed := a.failed + 1));
    var v1 := v.(cpus := v.cpus[t := back.(pc := TryLock(g, Switching))]);
    steps := Further(w0, steps, v, t, SwitchTo(g), v1);
    var held := b.(holder := Some(t));
    assert With(v1, t, v1.cpus[t], g, b) == v1;
    steps := Onward(w0, steps, v1, t, v1.cpus[t], g, b, back.(pc := CheckState(g, Switching)), held);
    steps := Onward(w0, steps, v1, t, back.(pc := CheckState(g, Switching)), g, held, back.(pc := FindOld(g)), held);
    steps := Onward(w0, steps, v1, t, back.(pc := FindOld(g)), g, held, cpu.(pc := User, ret := -ESRCH), held);
    assert v1.cpus[t := cpu.(pc := User, ret := -ESRCH)] == Stranded(w, t, f, g).cpus;
  }

  /** Fiber `f` is locked, and by no thread that holds it. */
  ghost predicate LockLost(w: World, f: int) {
    f in w.fibers && w.fibers[f].holder.Some? && forall t | t in w.cpus :: f !in Held(w, t)
  }

  /** A run from the start in which a conversion is blocked: at its end thread 2 is in the table without
      a fiber, back in user code, and the lock of fiber 0 is lost. */
  lemma ConversionBlocked() returns (ws: seq<World>, steps: seq<(int, Event)>)
    ensures IsRun(ws, steps, AnyNumber) && !Unblocked(ws, steps, |steps|)
    ensures var w := ws[|steps|];
            && Fiberless(w, 2) && w.cpus[2].pc.User? && w.cpus[2].ret == -ESRCH
            && 1 in w.cpus && w.cpus[1].pc.User? && LockLost(w, 0)
  {
    hide *;
    GuessedWorld();
    StrandedWorld();
    steps := Guesses();
    steps := Strands(Start(), steps, Guessed(), 2, 1, 0);
    ws := RunOf(Start(), steps, Stranded(Guessed(), 2, 1, 0));
    StartsInitial();
    LengthOf(ws, steps);
    FiberlessIffBlocked(ws, steps, |steps|);
  }

  lemma StrandedWorld()
    ensures var w := Guessed();
            && 2 in w.cpus && w.cpus[2].pc == TryLock(1, Converting) && 1 in w.fibers && w.fibers[1].holder.Some?
            && 2 in w.table && w.table[2] == NO_FIBERS && NO_FIBERS !in w.fibers
            && 0 in w.fibers && w.fibers[0].holder.None? && w.fibers[0].state == 0
    ensures var w := Stranded(Guessed(), 2, 1, 0);
            && Fiberless(w, 2) && w.cpus[2].pc.User? && w.cpus[2].ret == -ESRCH
            && 1 in w.cpus && w.cpus[1].pc.User? && LockLost(w, 0)
  {
    hide Guessed;
    GuessedWorld();
  }

  lemma StartsInitial()
    ensures Initial(Start())
  {
  }

  lemma LengthOf(ws: seq<World>, steps: seq<(int, Event)>)
    requires IsRun(ws, steps, AnyNumber)
    ensures |steps| < |ws|
  {
  }

  const MAKE := ForEntry(300, 7, 4000, 1000)

  /** Threads 1 and 2 are fibers 0 and 1, and thread 1 is creating fiber 2. */
  ghost function Creating(): World {
    var w := Converted(Converted(Start(), 1), 2);
    With(w, 1, w.cpus[1].(pc := SetContext(MAKE, 2)), 2, FreshFiber(w.cpus[1].live)).(fidCount := 2)
  }

  lemma Creates() returns (steps: seq<(int, Event)>)
    ensures Leads(Start(), steps, Creating())
  {
    hide Leads, Activated, FreshFiber;
    var w1, w2 := Converted(Start(), 1), Converted(Converted(Start(), 1), 2);
    steps := Converts(Start(), 1);
    var more := Converts(w1, 2);
    LeadsOn(Start(), steps, w1, more, w2);
    var cpu := w2.cpus[1];
    var w3 := w2.(cpus := w2.cpus[1 := cpu.(pc := NextFid(MAKE))]);
    steps := Further(Start(), steps + more, w2, 1, CreateFiber(300, 7, 4000, 1000), w3);
    more := Makes(w3, 1, MAKE);
    assert w3.cpus[1 := cpu.(pc := SetContext(MAKE, 2))] == Creating().cpus;
    LeadsOn(Start(), steps, w3, more, Creating());
    steps := steps + more;
  }

  /** Thread 1 ends its creation of fiber 2. */
  lemma Finishes(w0: World, before: seq<(int, Event)>, w: World) returns (steps: seq<(int, Event)>)
    requires 1 in w.cpus && w.cpus[1].pc == SetContext(MAKE, 2) && 2 in w.fibers && Leads(w0, before, w)
    ensures Leads(w0, steps, Ended(w))
  {
    hide Leads, CreationContext, Quiet, Touch;
    var cpu, a := w.cpus[1], w.fibers[2];
    var b := a.(saved := CreationContext(a.saved, MAKE));
    var back := cpu.(pc := Return(2, MAKE));
    assert With(w, 1, cpu, 2, a) == w;
    steps := Onward(w0, before, w, 1, cpu, 2, a, back, b);
    var v := With(w, 1, back, 2, b);
    assert v.cpus[1 := Ended(w).cpus[1]] == Ended(w).cpus;
    steps := Publishes(w0, steps, v, Ended(w));
  }

  lemma Publishes(w0: World, before: seq<(int, Event)>, v: World, w': World) returns (steps: seq<(int, Event)>)
    requires 1 in v.cpus && v.cpus[1].pc == Return(2, MAKE) && Leads(w0, before, v)
    requires w' == v.(cpus := v.cpus[1 := v.cpus[1].(pc := User, ret := 2)], published := v.published + {2})
    ensures Leads(w0, steps, w')
  {
    hide Leads;
    steps := Further(w0, before, v, 1, Advance, w');
  }

  ghost function Ended(w: World): World
    requires 1 in w.cpus && 2 in w.fibers
  {
    var a := w.fibers[2];
    World(w.fidCount, w.table, w.cpus[1 := w.cpus[1].(pc := User, ret := 2)],
          w.fibers[2 := a.(saved := CreationContext(a.saved, MAKE))], w.published + {2})
  }

  lemma CreatingWorld()
    ensures var w := Creating();
            && w.table == map[1 := 0, 2 := 1] && w.cpus.Keys == {1, 2} && w.fibers.Keys == {0, 1, 2}
            && w.cpus[1] == Cpu(L1, 0, SetContext(MAKE, 2), 0) && w.cpus[2].pc == User
            && w.fibers[2] == FreshFiber(L1)
  {
  }

  /** What there is to see at the end. */
  ghost predicate OneStack(w: World) {
    && w.cpus.Keys == {1, 2} && w.cpus[1].pc.User? && w.cpus[2].pc.User? && w.cpus[2].ret == SUCCESS
    && w.cpus[1].live == w.cpus[2].live && w.table == map[1 := 0, 2 := 2]
    && w.fibers.Keys == {0, 1, 2} && w.fibers[2].holder == Some(2)
  }

  lemma EndedWorld()
    ensures var w := Creating();
            && 2 in w.cpus && w.cpus[2].pc.User? && 2 in w.table && w.table[2] in w.fibers && 2 != w.table[2]
            && 2 in w.fibers && w.fibers[2].holder.None? && w.fibers[2].state == 0
    ensures var w := Switched(Creating(), 2, 2);
            && 1 in w.cpus && w.cpus[1].pc == SetContext(MAKE, 2) && 2 in w.fibers
            && OneStack(Ended(w)) && forall t :: !Fiberless(Ended(w), t)
  {
    hide Creating;
    CreatingWorld();
  }

  /** A run from the start in which no conversion is blocked, and at whose end two threads are back in
      user code with the registers and the stack of thread 1. */
  lemma TwoThreadsOneStack() returns (ws: seq<World>, steps: seq<(int, Event)>)
    ensures IsRun(ws, steps, AnyNumber) && Unblocked(ws, steps, |steps|) && OneStack(ws[|steps|])
  {
    hide *;
    EndedWorld();
    steps := Creates();
    var more := Switches(Creating(), 2, 2);
    LeadsOn(Start(), steps, Creating(), more, Switched(Creating(), 2, 2));
    steps := Finishes(Start(), steps + more, Switched(Creating(), 2, 2));
    ws := RunOf(Start(), steps, Ended(Switched(Creating(), 2, 2)));
    StartsInitial();
    LengthOf(ws, steps);
    FiberlessIffBlocked(ws, steps, |steps|);
  }
}
