/** The readiness gate of the music source (exoplayer/FirebaseMusicSource.kt), as values:
    the lifecycle state, the listeners waiting for it, and the record of every listener
    invocation. The class `MusicSource.FirebaseMusicSource` is proved against these steps. */
module ReadinessGate {

  /** The source's `State` enum. */
  datatype State = Created | Initializing | Initialized | Error

  /** Initialized and Error resolve the gate; Created and Initializing do not. */
  predicate IsTerminal(s: State) {
    s == Initialized || s == Error
  }

  /** A `(Boolean) -> Unit` listener, identified by a number; its body is the caller's. */
  type ListenerId = nat

  /** One call `listener(outcome)`. */
  datatype Invocation = Invocation(listener: ListenerId, outcome: bool)

  /** The invocations made by calling every listener, in order, with `outcome`. */
  function Notify(listeners: seq<ListenerId>, outcome: bool): (r: seq<Invocation>)
    ensures |r| == |listeners|
    ensures forall i :: 0 <= i < |r| ==> r[i] == Invocation(listeners[i], outcome)
  {
    if listeners == [] then [] else [Invocation(listeners[0], outcome)] + Notify(listeners[1..], outcome)
  }

  /** The gate's observable state: `state`, `onReadyListeners`, and every listener call made so far. */
  datatype Gate = Gate(state: State, listeners: seq<ListenerId>, invoked: seq<Invocation>)

  /** A new source: Created, no listener, nothing invoked. */
  function Fresh(): (g: Gate)
    ensures g.state == Created && g.listeners == [] && g.invoked == []
  {
    Gate(Created, [], [])
  }

  /** The `state` setter. A terminal value is stored and then every listener is called once,
      in registration order, with whether the new state is Initialized; the list is kept.
      A non-terminal value is stored and nobody is called. */
  function SetState(g: Gate, v: State): (r: Gate)
    ensures r.state == v && r.listeners == g.listeners
    ensures |r.invoked| == |g.invoked| + (if IsTerminal(v) then |g.listeners| else 0)
    ensures r.invoked[..|g.invoked|] == g.invoked
    ensures forall i :: 0 <= i < |g.listeners| && IsTerminal(v) ==>
      r.invoked[|g.invoked| + i] == Invocation(g.listeners[i], v == Initialized)
  {
    if IsTerminal(v) then
      Gate(v, g.listeners, g.invoked + Notify(g.listeners, v == Initialized))
    else
      g.(state := v)
  }

  /** `whenReady(action)`: before resolution the action is queued at the end and false is
      returned; after resolution it is called at once with the outcome and true is returned. */
  function WhenReady(g: Gate, id: ListenerId): (r: (Gate, bool))
    ensures r.1 <==> IsTerminal(g.state)
    ensures r.0.state == g.state
    ensures !r.1 ==> r.0.listeners == g.listeners + [id] && r.0.invoked == g.invoked
    ensures r.1 ==> r.0.listeners == g.listeners
    ensures r.1 ==> r.0.invoked == g.invoked + [Invocation(id, g.state == Initialized)]
  {
    if g.state == Created || g.state == Initializing then
      (g.(listeners := g.listeners + [id]), false)
    else
      (g.(invoked := g.invoked + [Invocation(id, g.state == Initialized)]), true)
  }

  /** `fetchMediaData`'s effect on the gate: Initializing, then Initialized, whatever was fetched. */
  function Fetch(g: Gate): (r: Gate)
    ensures r.state == Initialized && r.listeners == g.listeners
    ensures r.invoked == g.invoked + Notify(g.listeners, true)
  {
    SetState(SetState(g, Initializing), Initialized)
  }

  /** One operation on the gate, as its callers perform them. */
  datatype Op = Assign(v: State) | Register(id: ListenerId)

  function Apply(g: Gate, op: Op): Gate {
    match op
    case Assign(v) => SetState(g, v)
    case Register(id) => WhenReady(g, id).0
  }

  /** The gate after the operations, one at a time, in order. */
  function Run(g: Gate, ops: seq<Op>): Gate
    decreases |ops|
  {
    if ops == [] then g else Run(Apply(g, ops[0]), ops[1..])
  }

  /** The listener ids registered by the operations, in order. */
  function RegisteredIds(ops: seq<Op>): seq<ListenerId>
  {
    if ops == [] then []
    else if ops[0].Register? then [ops[0].id] + RegisteredIds(ops[1..])
    else RegisteredIds(ops[1..])
  }

  /** No operation resolves the gate. */
  predicate NoResolution(ops: seq<Op>) {
    forall i :: 0 <= i < |ops| ==> !(ops[i].Assign? && IsTerminal(ops[i].v))
  }

  /** Only registrations. */
  predicate OnlyRegistrations(ops: seq<Op>) {
    forall i :: 0 <= i < |ops| ==> ops[i].Register?
  }

  lemma {:induction false} RunAppend(g: Gate, a: seq<Op>, b: seq<Op>)
    ensures Run(g, a + b) == Run(Run(g, a), b)
    decreases |a|
  {
    if a == [] {
      assert a + b == b;
    } else {
      assert (a + b)[0] == a[0];
      assert (a + b)[1..] == a[1..] + b;
      RunAppend(Apply(g, a[0]), a[1..], b);
      calc {
        Run(g, a + b);
        Run(Apply(g, a[0]), a[1..] + b);
        Run(Run(Apply(g, a[0]), a[1..]), b);
        Run(Run(g, a), b);
      }
    }
  }

  /** Notifying two lists one after the other is notifying their concatenation. */
  lemma NotifyAppend(a: seq<ListenerId>, b: seq<ListenerId>, outcome: bool)
    ensures Notify(a, outcome) + Notify(b, outcome) == Notify(a + b, outcome)
  {
    var l, r := Notify(a, outcome) + Notify(b, outcome), Notify(a + b, outcome);
    assert |l| == |r|;
    forall i | 0 <= i < |l| ensures l[i] == r[i] {
      if i < |a| {
        assert l[i] == Notify(a, outcome)[i];
      } else {
        assert l[i] == Notify(b, outcome)[i - |a|];
      }
    }
  }

  /** Sequence concatenation regroups; stated apart so that the induction step below stays cheap. */
  lemma ConcatAssociates<T>(a: seq<T>, b: seq<T>, c: seq<T>)
    ensures (a + b) + c == a + (b + c)
  {
  }

  /** Listeners are never removed and invocations are never undone: whatever happens,
      the old listener list and the old invocation record are prefixes of the new ones. */
  lemma {:induction false} NothingIsForgotten(g: Gate, ops: seq<Op>)
    ensures |g.listeners| <= |Run(g, ops).listeners|
    ensures Run(g, ops).listeners[..|g.listeners|] == g.listeners
    ensures |g.invoked| <= |Run(g, ops).invoked|
    ensures Run(g, ops).invoked[..|g.invoked|] == g.invoked
    decreases |ops|
  {
    if ops != [] {
      var h := Apply(g, ops[0]);
      NothingIsForgotten(h, ops[1..]);
      assert h.listeners[..|g.listeners|] == g.listeners;
      assert h.invoked[..|g.invoked|] == g.invoked;
    }
  }

  /** Before resolution, registrations (and non-terminal assignments) only queue: nothing is
      called, the state stays unresolved, and the ids join the list in order. */
  lemma {:induction false} PendingOpsOnlyQueue(g: Gate, ops: seq<Op>)
    requires !IsTerminal(g.state)
    requires NoResolution(ops)
    ensures !IsTerminal(Run(g, ops).state)
    ensures Run(g, ops).listeners == g.listeners + RegisteredIds(ops)
    ensures Run(g, ops).invoked == g.invoked
    decreases |ops|
  {
    if ops != [] {
      assert !(ops[0].Assign? && IsTerminal(ops[0].v));
      var h := Apply(g, ops[0]);
      PendingOpsOnlyQueue(h, ops[1..]);
      if ops[0].Register? {
        assert g.listeners + RegisteredIds(ops) == h.listeners + RegisteredIds(ops[1..]);
      }
    }
  }

  /** After resolution, a registration is never queued: each `whenReady` calls its action at
      once, in order, with the resolved outcome, and the list is unchanged. */
  lemma {:induction false} ResolvedRegistrationsRunAtOnce(g: Gate, ops: seq<Op>)
    requires IsTerminal(g.state)
    requires OnlyRegistrations(ops)
    ensures Run(g, ops).state == g.state
    ensures Run(g, ops).listeners == g.listeners
    ensures Run(g, ops).invoked == g.invoked + Notify(RegisteredIds(ops), g.state == Initialized)
    decreases |ops|
  {
    var b := g.state == Initialized;
    if ops == [] {
      assert Notify([], b) == [];
    } else {
      var id := ops[0].id;
      var h := WhenReady(g, id).0;
      assert Apply(g, ops[0]) == h;
      assert h.invoked == g.invoked + [Invocation(id, b)];
      assert OnlyRegistrations(ops[1..]) by {
        forall i | 0 <= i < |ops[1..]| ensures ops[1..][i].Register? {
          assert ops[1..][i] == ops[i + 1];
        }
      }
      assert h.state == g.state && h.listeners == g.listeners;
      ResolvedRegistrationsRunAtOnce(h, ops[1..]);
      var rest := RegisteredIds(ops[1..]);
      assert RegisteredIds(ops) == [id] + rest;
      NotifyAppend([id], rest, b);
      assert Notify([id], b) == [Invocation(id, b)];
      ConcatAssociates(g.invoked, [Invocation(id, b)], Notify(rest, b));
    }
  }

  /** The gate's contract over a whole life: from a new source, with any registrations before
      and after a single resolution, every registered listener is called exactly once, in
      registration order, with whether the resolution was Initialized; the early ones stay queued. */
  lemma EveryListenerCalledOnceWithOutcome(before: seq<Op>, v: State, after: seq<Op>)
    requires NoResolution(before)
    requires IsTerminal(v)
    requires OnlyRegistrations(after)
    ensures Run(Fresh(), before + [Assign(v)] + after).state == v
    ensures Run(Fresh(), before + [Assign(v)] + after).listeners == RegisteredIds(before)
    ensures Run(Fresh(), before + [Assign(v)] + after).invoked
      == Notify(RegisteredIds(before) + RegisteredIds(after), v == Initialized)
  {
    var g0 := Fresh();
    RunAppend(g0, before + [Assign(v)], after);
    RunAppend(g0, before, [Assign(v)]);
    PendingOpsOnlyQueue(g0, before);
    var g1 := Run(g0, before);
    var g2 := SetState(g1, v);
    assert Run(g1, [Assign(v)]) == Run(g2, []) == g2;
    var L, R, b := RegisteredIds(before), RegisteredIds(after), v == Initialized;
    assert g1.listeners == L && g1.invoked == [];
    assert g2 == Gate(v, L, Notify(L, b));
    ResolvedRegistrationsRunAtOnce(g2, after);
    NotifyAppend(L, R, b);
  }

  /** A second terminal assignment calls every listener again, already-notified ones included. */
  lemma ResolvingTwiceNotifiesTwice(g: Gate, v1: State, v2: State)
    requires IsTerminal(v1) && IsTerminal(v2)
    ensures SetState(SetState(g, v1), v2).listeners == g.listeners
    ensures SetState(SetState(g, v1), v2).invoked
      == g.invoked + Notify(g.listeners, v1 == Initialized) + Notify(g.listeners, v2 == Initialized)
  {
  }

  /** Assigning Created or Initializing never calls a listener, whatever the prior state. */
  lemma NonTerminalAssignmentIsSilent(g: Gate, v: State)
    requires !IsTerminal(v)
    ensures SetState(g, v) == Gate(v, g.listeners, g.invoked)
  {
  }

  /** Three listeners registered on a new source all receive true, in order, on Initialized. */
  lemma ThreeWaitersScenario(a: ListenerId, b: ListenerId, c: ListenerId)
    ensures Run(Fresh(), [Register(a), Register(b), Register(c), Assign(Initialized)]).invoked
      == [Invocation(a, true), Invocation(b, true), Invocation(c, true)]
  {
    var ops := [Register(a), Register(b), Register(c), Assign(Initialized)];
    var g1 := Gate(Created, [a], []);
    var g2 := Gate(Created, [a, b], []);
    var g3 := Gate(Created, [a, b, c], []);
    assert Apply(Fresh(), ops[0]) == g1;
    assert Apply(g1, ops[1..][0]) == g2;
    assert Apply(g2, ops[2..][0]) == g3;
    assert ops[1..][1..] == ops[2..] && ops[2..][1..] == ops[3..] && ops[3..] == [Assign(Initialized)];
    assert Run(Fresh(), ops) == Run(g1, ops[1..]);
    assert Run(g1, ops[1..]) == Run(g2, ops[2..]);
    assert Run(g2, ops[2..]) == Run(g3, ops[3..]);
    assert Notify([a, b, c], true) == [Invocation(a, true), Invocation(b, true), Invocation(c, true)];
    assert Run(g3, [Assign(Initialized)]) == Run(SetState(g3, Initialized), []);
  }

  /** A source that failed before anyone waited answers a later `whenReady` at once with false. */
  lemma ErrorThenWaiterScenario(id: ListenerId)
    ensures WhenReady(SetState(Fresh(), Error), id) == (Gate(Error, [], [Invocation(id, false)]), true)
  {
    var g := SetState(Fresh(), Error);
    assert g == Gate(Error, [], []);
    var r := WhenReady(g, id);
    assert r.0.invoked == [Invocation(id, false)];
  }

  /** Fetching resolves the gate with success whatever the listeners and never reaches Error. */
  lemma FetchNeverFails(g: Gate)
    ensures Fetch(g).state != Error
    ensures forall inv :: inv in Fetch(g).invoked[|g.invoked|..] ==> inv.outcome
  {
    assert Fetch(g).invoked[|g.invoked|..] == Notify(g.listeners, true);
  }
}
