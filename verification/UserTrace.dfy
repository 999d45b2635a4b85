/** A run of the user-space protocol after which two threads run one fiber. */
module UserTrace {
  import opened Options
  import opened UserFibers
  import opened UserResumption

  /** The steps, all allowed, lead from one world to the other. */
  ghost predicate Leads(w: World, steps: seq<(int, Event)>, w': World)
    decreases |steps|
  {
    if steps == [] then w' == w
    else Allowed(w, steps[0].0, steps[0].1) && Leads(Do(w, steps[0].0, steps[0].1), steps[1..], w')
  }

  lemma {:induction false} LeadsOn(w: World, a: seq<(int, Event)>, v: World, b: seq<(int, Event)>, w': World)
    requires Leads(w, a, v) && Leads(v, b, w')
    ensures Leads(w, a + b, w')
    decreases |a|
  {
    hide Allowed, Do;
    if a == [] {
      assert a + b == b;
    } else {
      LeadsOn(Do(w, a[0].0, a[0].1), a[1..], v, b, w');
      assert (a + b)[1..] == a[1..] + b;
    }
  }

  lemma {:induction false} WorldsOf(w: World, steps: seq<(int, Event)>, w': World) returns (ws: seq<World>)
    requires Leads(w, steps, w')
    ensures |ws| == |steps| + 1 && ws[0] == w && ws[|steps|] == w'
    ensures forall i :: 0 <= i < |steps| ==>
              Allowed(ws[i], steps[i].0, steps[i].1) && ws[i + 1] == Do(ws[i], steps[i].0, steps[i].1)
    decreases |steps|
  {
    hide Allowed, Do;
    if steps == [] {
      ws := [w];
    } else {
      var rest := WorldsOf(Do(w, steps[0].0, steps[0].1), steps[1..], w');
      ws := [w] + rest;
      forall i | 0 <= i < |steps|
        ensures Allowed(ws[i], steps[i].0, steps[i].1) && ws[i + 1] == Do(ws[i], steps[i].0, steps[i].1)
      {
        if i > 0 { assert steps[i] == steps[1..][i - 1] && ws[i] == rest[i - 1] && ws[i + 1] == rest[i]; }
      }
    }
  }

  /** One step more. */
  lemma Further(w: World, steps: seq<(int, Event)>, v: World, t: int, e: Event, w': World)
    returns (more: seq<(int, Event)>)
    requires Leads(w, steps, v) && Allowed(v, t, e) && w' == Do(v, t, e)
    ensures Leads(w, more, w')
  {
    hide Allowed, Do;
    assert [(t, e)][1..] == [];
    assert Leads(v, [(t, e)], w');
    LeadsOn(w, steps, v, [(t, e)], w');
    more := steps + [(t, e)];
  }

  // ---------------------------------------------------------------- whole calls

  /** A call of ult_convert that nothing interrupts. */
  lemma Converts(w: World, t: int, w': World) returns (steps: seq<(int, Event)>)
    requires Allowed(w, t, ConvertThread) && w.nextId !in w.fibers
    requires var n, cpu := w.nextId, w.cpus[t];
             w' == World(n + 1, w.cpus[t := cpu.(current := Some(n))],
                         w.fibers[n := Fiber(Some(t), cpu.live, Converting)], w.published + {n})
    ensures Leads(w, steps, w')
  {
    hide Leads;
    var n, cpu := w.nextId, w.cpus[t];
    var w1 := w.(nextId := n + 1, cpus := w.cpus[t := cpu.(pc := LockNew(n))]);
    var w2 := w1.(cpus := w.cpus[t := cpu.(pc := SaveNew(n))],
                  fibers := w.fibers[n := Fiber(Some(t), cpu.live, Converting)]);
    var w3 := w2.(cpus := w.cpus[t := cpu.(pc := Adopt(n))]);
    steps := Stay(w);
    steps := Further(w, steps, w, t, ConvertThread, w1);
    steps := Further(w, steps, w1, t, Advance, w2);
    steps := Further(w, steps, w2, t, Advance, w3);
    steps := Further(w, steps, w3, t, Advance, w');
  }

  lemma Stay(w: World) returns (steps: seq<(int, Event)>)
    ensures Leads(w, steps, w)
  {
    steps := [];
  }

  /** A thread running fiber `g` switches to fiber `f`, which is free; it is about to load `f`. */
  lemma SwitchesOut(w: World, t: int, g: int, f: int) returns (steps: seq<(int, Event)>)
    requires Allowed(w, t, SwitchTo(Some(f))) && w.cpus[t].current == Some(g)
    requires f != g && f in w.fibers && g in w.fibers && w.fibers[f].holder.None?
    ensures Leads(w, steps, Out(w, t, g, f))
  {
    hide Leads;
    var cpu, fb := w.cpus[t], w.fibers[f];
    var locked := w.fibers[f := fb.(holder := Some(t))];
    var w1 := w.(cpus := w.cpus[t := cpu.(pc := TryLock(f))]);
    var w2 := w.(cpus := w.cpus[t := cpu.(pc := SetCurrent(f, g))], fibers := locked);
    var w3 := w.(cpus := w.cpus[t := cpu.(current := Some(f), pc := Save(f, g))], fibers := locked);
    var saved := Fiber(w.fibers[g].holder, cpu.live, Switching(f));
    var w4 := w.(cpus := w.cpus[t := cpu.(current := Some(f), pc := Unlock(f, g))], fibers := locked[g := saved]);
    steps := Stay(w);
    steps := Further(w, steps, w, t, SwitchTo(Some(f)), w1);
    steps := Further(w, steps, w1, t, Advance, w2);
    steps := Further(w, steps, w2, t, Advance, w3);
    steps := Further(w, steps, w3, t, Advance, w4);
    assert locked[g := saved][g := saved.(holder := None)] == Out(w, t, g, f).fibers;
    steps := Further(w, steps, w4, t, Advance, Out(w, t, g, f));
  }

  /** Fiber `g` saved and free, thread `t` about to load fiber `f`. */
  ghost function Out(w: World, t: int, g: int, f: int): World
    requires t in w.cpus && f in w.fibers
  {
    w.(cpus := w.cpus[t := w.cpus[t].(current := Some(f), pc := Load(f))],
       fibers := w.fibers[f := w.fibers[f].(holder := Some(t))][g := Fiber(None, w.cpus[t].live, Switching(f))])
  }

  /** The switch comes to its end when the context loaded does not retake. */
  lemma Loads(w: World, t: int, f: int) returns (steps: seq<(int, Event)>)
    requires t in w.cpus && w.cpus[t].pc == Load(f) && f in w.fibers && !Retaking(w.fibers[f])
    ensures Leads(w, steps, w.(cpus := w.cpus[t := w.cpus[t].(live := w.fibers[f].saved, pc := User)]))
  {
    hide Leads;
    steps := Stay(w);
    steps := Further(w, steps, w, t, Advance,
                     w.(cpus := w.cpus[t := w.cpus[t].(live := w.fibers[f].saved, pc := User)]));
  }

  /** When it does, the flag of `f` is cleared and the thread ends up with the context of fiber `h`. */
  lemma LoadsAgain(w: World, t: int, f: int, h: int) returns (steps: seq<(int, Event)>)
    requires t in w.cpus && w.cpus[t].pc == Load(f) && f in w.fibers && Retaking(w.fibers[f])
    requires w.fibers[f].frame == Switching(h) && h != f && h in w.fibers && !Retaking(w.fibers[h])
    ensures Leads(w, steps, w.(cpus := w.cpus[t := w.cpus[t].(live := w.fibers[h].saved, pc := User)],
                               fibers := w.fibers[f := w.fibers[f].(holder := None)]))
  {
    hide Leads;
    var cpu, fb := w.cpus[t], w.fibers[f];
    var w1 := w.(cpus := w.cpus[t := cpu.(live := fb.saved, pc := Unlock(h, f))]);
    var w2 := w.(cpus := w.cpus[t := cpu.(live := fb.saved, pc := Load(h))],
                 fibers := w.fibers[f := fb.(holder := None)]);
    steps := Stay(w);
    steps := Further(w, steps, w, t, Advance, w1);
    steps := Further(w, steps, w1, t, Advance, w2);
    var w3 := w2.(cpus := w.cpus[t := cpu.(live := w.fibers[h].saved, pc := User)]);
    steps := Further(w, steps, w2, t, Advance, w3);
  }

  // ---------------------------------------------------------------- the run

  const L := UserFibers.Context(1, 0)
  const Z := UserFibers.Context(0, 5)
  const E := UserFibers.Context(1, 7)

  ghost function Start(): World {
    World(0, map[1 := Cpu(L, None, None, User), 2 := Cpu(L, None, None, User)], map[], {})
  }

  /** Threads 1 and 2 run fibers 0 and 1; thread 1 has created fiber 2. */
  ghost function Created(): World {
    World(3, map[1 := Cpu(Z, Some(0), Some(2), User), 2 := Cpu(L, Some(1), None, User)],
          map[0 := Fiber(Some(1), L, Converting), 1 := Fiber(Some(2), L, Converting), 2 := Fiber(None, E, Booting)],
          {0, 1, 2})
  }

  lemma Creates() returns (steps: seq<(int, Event)>)
    ensures Leads(Start(), steps, Created())
  {
    hide Leads;
    var w1 := World(1, map[1 := Cpu(L, Some(0), None, User), 2 := Cpu(L, None, None, User)],
                    map[0 := Fiber(Some(1), L, Converting)], {0});
    var w2 := World(2, map[1 := Cpu(L, Some(0), None, User), 2 := Cpu(L, Some(1), None, User)],
                    map[0 := Fiber(Some(1), L, Converting), 1 := Fiber(Some(2), L, Converting)], {0, 1});
    var w3 := Created().(cpus := map[1 := Cpu(L, Some(0), Some(2), User), 2 := Cpu(L, Some(1), None, User)]);
    assert Start().cpus[1 := Cpu(L, Some(0), None, User)] == w1.cpus;
    assert Start().fibers[0 := Fiber(Some(1), L, Converting)] == w1.fibers;
    steps := Converts(Start(), 1, w1);
    assert w1.cpus[2 := Cpu(L, Some(1), None, User)] == w2.cpus;
    assert w1.fibers[1 := Fiber(Some(2), L, Converting)] == w2.fibers;
    var more := Converts(w1, 2, w2);
    LeadsOn(Start(), steps, w1, more, w2);
    assert w2.cpus[1 := Cpu(L, Some(0), Some(2), User)] == w3.cpus;
    assert w2.fibers[2 := Fiber(None, E, Booting)] == Created().fibers;
    steps := Further(Start(), steps + more, w2, 1, CreateFiber(E), w3);
    assert w3.cpus[1 := Cpu(Z, Some(0), Some(2), User)] == Created().cpus;
    steps := Further(Start(), steps, w3, 1, Compute(Z), Created());
  }

  /** Thread 1 has gone over to fiber 2, leaving fiber 0 with a zero in rax. */
  ghost function Left(): World {
    World(3, map[1 := Cpu(E, Some(2), Some(2), User), 2 := Cpu(L, Some(1), None, User)],
          map[0 := Fiber(None, Z, Switching(2)), 1 := Fiber(Some(2), L, Converting), 2 := Fiber(Some(1), E, Booting)],
          {0, 1, 2})
  }

  /** Thread 1 has gone back to fiber 0, and finds itself in fiber 2, with the flags of both clear. */
  ghost function Back(): World {
    World(3, map[1 := Cpu(E, Some(0), Some(2), User), 2 := Cpu(L, Some(1), None, User)],
          map[0 := Fiber(None, Z, Switching(2)), 1 := Fiber(Some(2), L, Converting), 2 := Fiber(None, E, Switching(0))],
          {0, 1, 2})
  }

  /** Thread 2 has done the same. */
  ghost function Shared(): World {
    World(3, map[1 := Cpu(E, Some(0), Some(2), User), 2 := Cpu(E, Some(0), None, User)],
          map[0 := Fiber(None, Z, Switching(2)), 1 := Fiber(None, L, Switching(0)), 2 := Fiber(None, E, Switching(0))],
          {0, 1, 2})
  }

  lemma Leaves() returns (steps: seq<(int, Event)>)
    ensures Leads(Created(), steps, Left())
  {
    hide Leads;
    var v := Out(Created(), 1, 0, 2);
    assert v.cpus == map[1 := Cpu(Z, Some(2), Some(2), Load(2)), 2 := Cpu(L, Some(1), None, User)];
    assert v.fibers == Left().fibers;
    steps := SwitchesOut(Created(), 1, 0, 2);
    assert v.(cpus := v.cpus[1 := v.cpus[1].(live := v.fibers[2].saved, pc := User)]) == Left();
    var more := Loads(v, 1, 2);
    LeadsOn(Created(), steps, v, more, Left());
    steps := steps + more;
  }

  lemma Returns() returns (steps: seq<(int, Event)>)
    ensures Leads(Left(), steps, Back())
  {
    hide Leads;
    var v := Out(Left(), 1, 2, 0);
    assert v.cpus == map[1 := Cpu(E, Some(0), Some(2), Load(0)), 2 := Cpu(L, Some(1), None, User)];
    assert v.fibers == Back().fibers[0 := Fiber(Some(1), Z, Switching(2))];
    steps := SwitchesOut(Left(), 1, 2, 0);
    var more := LoadsAgain(v, 1, 0, 2);
    assert v.cpus[1 := v.cpus[1].(live := v.fibers[2].saved, pc := User)] == Back().cpus;
    assert v.fibers[0 := v.fibers[0].(holder := None)] == Back().fibers;
    LeadsOn(Left(), steps, v, more, Back());
    steps := steps + more;
  }

  lemma Follows() returns (steps: seq<(int, Event)>)
    ensures Leads(Back(), steps, Shared())
  {
    hide Leads;
    var v := Out(Back(), 2, 1, 0);
    assert v.cpus == map[1 := Cpu(E, Some(0), Some(2), User), 2 := Cpu(L, Some(0), None, Load(0))];
    assert v.fibers == Shared().fibers[0 := Fiber(Some(2), Z, Switching(2))];
    steps := SwitchesOut(Back(), 2, 1, 0);
    var more := LoadsAgain(v, 2, 0, 2);
    assert v.cpus[2 := v.cpus[2].(live := v.fibers[2].saved, pc := User)] == Shared().cpus;
    assert v.fibers[0 := v.fibers[0].(holder := None)] == Shared().fibers;
    LeadsOn(Back(), steps, v, more, Shared());
    steps := steps + more;
  }

  /** A run at whose end two threads have the same current fiber, whose flag is clear, and both run
      the context of a third fiber: rax was zero when thread 1 left fiber 0. */
  lemma TwoThreadsOneFiber() returns (ws: seq<World>, steps: seq<(int, Event)>)
    ensures IsRun(ws, steps) && Settled(ws[|steps|]) && ws[|steps|] == Shared()
    ensures var w := ws[|steps|];
            && w.cpus[1].current == w.cpus[2].current == Some(0) && w.fibers[0].holder.None?
            && w.cpus[1].live == w.cpus[2].live == w.fibers[2].saved
    ensures !Flagged(ws[|steps|]) && !Straight(ws, steps, |steps|)
  {
    hide Leads, Allowed, Do;
    steps := Creates();
    var more := Leaves();
    LeadsOn(Start(), steps, Created(), more, Left());
    steps := steps + more;
    more := Returns();
    LeadsOn(Start(), steps, Left(), more, Back());
    steps := steps + more;
    more := Follows();
    LeadsOn(Start(), steps, Back(), more, Shared());
    steps := steps + more;
    ws := WorldsOf(Start(), steps, Shared());
    assert Initial(ws[0]);
    assert 1 in ws[|steps|].cpus;
    FlaggedIffStraight(ws, steps);
  }
}
