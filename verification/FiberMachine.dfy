/** The machine both fiber implementations refine: every fiber has at most one owner, and a
    fiber's context changes only while its owner runs it. */
module FiberMachine {

  /** `running` maps a thread to the fiber it runs, `context` every fiber to its context. */
  datatype Machine<C> = Machine(running: map<int, int>, context: map<int, C>)

  datatype Action<C> =
    | Stutter
    | Create(fiber: int, context: C)
    | Attach(thread: int, fiber: int, context: C)
    | Run(thread: int, context: C)
    | Switch(thread: int, fiber: int)

  ghost predicate OneOwner<C>(m: Machine<C>) {
    && (forall t :: t in m.running ==> m.running[t] in m.context)
    && (forall t, u :: t in m.running && u in m.running && m.running[t] == m.running[u] ==> t == u)
  }

  ghost predicate Enabled<C>(m: Machine<C>, a: Action<C>) {
    match a
    case Stutter => true
    case Create(f, c) => f !in m.context
    case Attach(t, f, c) => t !in m.running && f !in m.context
    case Run(t, c) => t in m.running && m.running[t] in m.context
    case Switch(t, f) => t in m.running && f in m.context && forall u :: u in m.running ==> m.running[u] != f
  }

  ghost function Perform<C>(m: Machine<C>, a: Action<C>): Machine<C>
    requires Enabled(m, a)
  {
    match a
    case Stutter => m
    case Create(f, c) => m.(context := m.context[f := c])
    case Attach(t, f, c) => Machine(m.running[t := f], m.context[f := c])
    case Run(t, c) => m.(context := m.context[m.running[t] := c])
    case Switch(t, f) => m.(running := m.running[t := f])
  }

  ghost predicate Next<C>(m: Machine<C>, m': Machine<C>, a: Action<C>) {
    Enabled(m, a) && m' == Perform(m, a)
  }

  /** A run: machine `i + 1` follows machine `i` by action `i`. */
  ghost predicate IsRun<C>(ms: seq<Machine<C>>, actions: seq<Action<C>>) {
    |ms| == |actions| + 1 && forall i :: 0 <= i < |actions| ==> Next(ms[i], ms[i + 1], actions[i])
  }

  lemma OneOwnerKept<C>(m: Machine<C>, m': Machine<C>, a: Action<C>)
    requires OneOwner(m) && Next(m, m', a)
    ensures OneOwner(m')
  {
    if a.Attach? {
      assert forall t :: t in m.running ==> m.running[t] != a.fiber;
    }
  }

  lemma {:induction false} OneOwnerAlways<C>(ms: seq<Machine<C>>, actions: seq<Action<C>>, i: nat)
    requires IsRun(ms, actions) && OneOwner(ms[0]) && i <= |actions|
    ensures OneOwner(ms[i])
  {
    if i > 0 {
      OneOwnerAlways(ms, actions, i - 1);
      OneOwnerKept(ms[i - 1], ms[i], actions[i - 1]);
    }
  }

  /** `a` lets some thread run fiber `f`. */
  ghost predicate Runs<C>(m: Machine<C>, a: Action<C>, f: int) {
    a.Run? && a.thread in m.running && m.running[a.thread] == f
  }

  /** Whatever the other fibers do, a fiber finds its context as it left it. */
  lemma {:induction false} ContextKept<C>(ms: seq<Machine<C>>, actions: seq<Action<C>>, f: int, i: nat, j: nat)
    requires IsRun(ms, actions) && i <= j <= |actions| && f in ms[i].context
    requires forall k :: i <= k < j ==> !Runs(ms[k], actions[k], f)
    ensures f in ms[j].context && ms[j].context[f] == ms[i].context[f]
    decreases j - i
  {
    if i < j {
      ContextKept(ms, actions, f, i, j - 1);
      assert Next(ms[j - 1], ms[j], actions[j - 1]);
      assert !Runs(ms[j - 1], actions[j - 1], f);
    }
  }
}
