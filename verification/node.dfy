/** Nodes: a fixed number of input slots, each with a stored handler and a
    stored connection handle, and a fixed number of output signals; and the
    builder that wires a task's handlers and sinks into them.

    The per-slot value types of the C++ library are erased: every slot carries
    handlers of one type `Handler<T>`, and a slot index that tsig
    rejects at compile time is excluded by a `requires`. */
module Nodes {
  import opened ChannelState
  import opened Signals

  /** A stored handler: a default-constructed slot holds an empty function. */
  datatype Handler<T> = Unset | Fn(f: T)

  /** `sigcons[i]` and `handlers[i]` belong to input `i`; `outputs[o]` is
      output `o`. */
  datatype Node<T> = Node(sigcons: seq<Sigcon>, handlers: seq<Handler<T>>, outputs: seq<Signal>)

  /** A sink: calling it emits on output `output` of the node it came from. */
  datatype Sink = Sink(output: nat)

  /** The part of a task the builder talks to: the handlers it hands out, in
      input order, and the sinks it was given, in output order. */
  datatype Task<T> = Task(handlers: seq<Handler<T>>, sinks: seq<Sink>)

  /** The world nodes live in: channels whose listeners are handlers. */
  type NodeWorld<T> = World<Handler<T>>

  /** A connector: given a handler, subscribes it somewhere and returns the
      handle. */
  type Connector<!T> = (NodeWorld<T>, Handler<T>) --> (NodeWorld<T>, Sigcon)

  /** `n` has `inputs` inputs and `outputs` outputs. */
  ghost predicate Shape<T>(n: Node<T>, inputs: nat, outputs: nat)
  {
    |n.sigcons| == inputs && |n.handlers| == inputs && |n.outputs| == outputs
  }

  /** Every output of `n` owns a live channel, and no two share one. */
  ghost predicate OutputsLive<T>(w: NodeWorld<T>, n: Node<T>)
  {
    && (forall o :: 0 <= o < |n.outputs| ==> Owns(w, n.outputs[o]))
    && (forall o, p :: 0 <= o < p < |n.outputs| ==> n.outputs[o].chan != n.outputs[p].chan)
  }

  /** Makes `k` signals with fresh, empty, distinct channels. */
  function NewSignals<L>(w: World<L>, k: nat): (r: (World<L>, seq<Signal>))
    ensures |r.1| == k
    ensures Grows(w, r.0) && |w.cells| <= |r.0.cells| && r.0.cells[..|w.cells|] == w.cells
    ensures forall o :: 0 <= o < k ==>
      Owns(r.0, r.1[o]) && |w.cells| <= r.1[o].chan && |r.0.cells[r.1[o].chan].dat.handlers| == 0
    ensures forall o, p :: 0 <= o < p < k ==> r.1[o].Owning? && r.1[p].Owning? && r.1[o].chan < r.1[p].chan
    decreases k
  {
    if k == 0 then (w, [])
    else
      var (w1, ss) := NewSignals(w, k - 1);
      var (w2, s) := NewSignal(w1);
      assert forall o :: 0 <= o < k - 1 ==> w2.cells[ss[o].chan] == w1.cells[ss[o].chan];
      (w2, ss + [s])
  }

  /** A default-constructed node: no subscriptions, empty handlers, and
      one fresh channel per output. */
  function NewNode<T>(w: NodeWorld<T>, inputs: nat, outputs: nat): (r: (NodeWorld<T>, Node<T>))
    ensures Shape(r.1, inputs, outputs) && OutputsLive(r.0, r.1)
    ensures forall i :: 0 <= i < inputs ==> r.1.sigcons[i] == Unbound && r.1.handlers[i] == Unset
    ensures forall o :: 0 <= o < outputs ==>
      |w.cells| <= r.1.outputs[o].chan && |r.0.cells[r.1.outputs[o].chan].dat.handlers| == 0
    ensures Grows(w, r.0) && r.0.cells[..|w.cells|] == w.cells
  {
    var (w1, signals) := NewSignals(w, outputs);
    (w1, Node(seq(inputs, _ => Unbound), seq(inputs, _ => Unset), signals))
  }

  /** `RegisterHandler<i>`: handler slot `i` now holds `h`; no other handler
      slot, no handle and no output changes. */
  function RegisterHandler<T>(n: Node<T>, i: nat, h: Handler<T>): (r: Node<T>)
    requires i < |n.handlers|
    ensures |r.handlers| == |n.handlers| && r.handlers[i] == h
    ensures forall j :: 0 <= j < |n.handlers| && j != i ==> r.handlers[j] == n.handlers[j]
    ensures r.sigcons == n.sigcons && r.outputs == n.outputs
  {
    n.(handlers := n.handlers[i := h])
  }

  /** `GetSink<o>`: the sink for output `o`. */
  function GetSink<T>(n: Node<T>, o: nat): (r: Sink)
    requires o < |n.outputs|
    ensures r.output == o
  {
    Sink(o)
  }

  /** Calls a sink of `n` with `v`: an emit of `v` on that sink's output,
      reaching exactly the listeners of that output's channel. */
  function SinkEmit<T, V>(w: NodeWorld<T>, n: Node<T>, k: Sink, v: V,
                          react: (Call<Handler<T>, V>, NodeWorld<T>) -> NodeWorld<T>): (r: Emitted<Handler<T>, V>)
    requires k.output < |n.outputs| && Owns(w, n.outputs[k.output])
    ensures Dispatches(w.cells[n.outputs[k.output].chan].dat, v, r.calls)
    ensures r.world == Effects(w, r.calls, react)
  {
    Emit(w, n.outputs[k.output], v, react)
  }

  /** `Accept<i>(connector)`: the connector is called once with input `i`'s
      current handler; the handle it returns goes into slot `i`, and the
      subscription the slot held before is revoked (after the connector
      ran). Handlers and outputs do not change. */
  function Accept<T>(w: NodeWorld<T>, n: Node<T>, i: nat, connector: Connector<T>): (r: (NodeWorld<T>, Node<T>))
    requires i < |n.sigcons| && i < |n.handlers|
    requires connector.requires(w, n.handlers[i])
    ensures var (w1, h) := connector(w, n.handlers[i]);
      && r.1.sigcons == n.sigcons[i := h]
      && r.1.handlers == n.handlers && r.1.outputs == n.outputs
      && r.0 == Revoke(w1, n.sigcons[i])
      && (n.sigcons[i].Bound? && Live(w1, n.sigcons[i].chan) ==>
            n.sigcons[i].id !in r.0.cells[n.sigcons[i].chan].dat.handlers)
  {
    var (w1, h) := connector(w, n.handlers[i]);
    var (w2, slot, _) := AssignHandle(w1, n.sigcons[i], h);
    (w2, n.(sigcons := n.sigcons[i := slot]))
  }

  /** `Accept<i>(upstream)`: `Accept<i>` with a connector that subscribes
      the handler to `upstream`. */
  function AcceptSignal<T>(w: NodeWorld<T>, n: Node<T>, i: nat, up: Signal): (r: (NodeWorld<T>, Node<T>))
    requires i < |n.sigcons| && i < |n.handlers| && Owns(w, up)
    ensures Owns(r.0, up) && Grows(w, r.0)
    ensures |r.1.sigcons| == |n.sigcons| && r.1.handlers == n.handlers && r.1.outputs == n.outputs
    ensures forall j :: 0 <= j < |n.sigcons| && j != i ==> r.1.sigcons[j] == n.sigcons[j]
    ensures r.1.sigcons[i].Bound? && r.1.sigcons[i].chan == up.chan
    ensures r.1.sigcons[i].id == w.cells[up.chan].dat.nextId
    ensures |r.0.cells| == |w.cells|
    ensures forall c :: 0 <= c < |w.cells| && c != up.chan && !(n.sigcons[i].Bound? && c == n.sigcons[i].chan) ==>
      r.0.cells[c] == w.cells[c]
    ensures !(n.sigcons[i].Bound? && n.sigcons[i].chan == up.chan) ==>
      Added(w.cells[up.chan].dat, r.0.cells[up.chan].dat, r.1.sigcons[i].id, n.handlers[i])
    ensures n.sigcons[i].Bound? && n.sigcons[i].chan == up.chan ==>
      r.0.cells[up.chan].dat.handlers ==
        w.cells[up.chan].dat.handlers[r.1.sigcons[i].id := n.handlers[i]] - {n.sigcons[i].id}
    ensures n.sigcons[i].Bound? && n.sigcons[i].chan != up.chan && Live(w, n.sigcons[i].chan) ==>
      Removed(w.cells[n.sigcons[i].chan].dat, r.0.cells[n.sigcons[i].chan].dat, n.sigcons[i].id)
    ensures forall s :: Owns(w, s) ==> Owns(r.0, s)
  {
    Accept(w, n, i, (w': NodeWorld<T>, h: Handler<T>) requires Owns(w', up) => Connect(w', up, h))
  }

  /** `Connect<o>(handler)`: subscribes `h` to output `o` only and returns
      the handle; the node keeps nothing. */
  function ConnectOutput<T>(w: NodeWorld<T>, n: Node<T>, o: nat, h: Handler<T>): (r: (NodeWorld<T>, Sigcon))
    requires o < |n.outputs| && Owns(w, n.outputs[o])
    ensures Owns(r.0, n.outputs[o]) && Grows(w, r.0) && SameElsewhere(w, r.0, n.outputs[o].chan)
    ensures r.1.Bound? && r.1.chan == n.outputs[o].chan
    ensures r.1.id == w.cells[n.outputs[o].chan].dat.nextId && r.0.cells[n.outputs[o].chan].dat.nextId == r.1.id + 1
    ensures Added(w.cells[n.outputs[o].chan].dat, r.0.cells[n.outputs[o].chan].dat, r.1.id, h)
  {
    Connect(w, n.outputs[o], h)
  }

  /** `Connect<o, i>(other)`: `other.Accept<i>` with a connector that
      subscribes to output `o` of `n`. Only `other`'s slot `i` changes. */
  function ConnectNodes<T>(w: NodeWorld<T>, n: Node<T>, o: nat, other: Node<T>, i: nat): (r: (NodeWorld<T>, Node<T>))
    requires o < |n.outputs| && Owns(w, n.outputs[o])
    requires i < |other.sigcons| && i < |other.handlers|
    ensures Owns(r.0, n.outputs[o]) && Grows(w, r.0)
    ensures |r.1.sigcons| == |other.sigcons| && r.1.handlers == other.handlers && r.1.outputs == other.outputs
    ensures forall j :: 0 <= j < |other.sigcons| && j != i ==> r.1.sigcons[j] == other.sigcons[j]
    ensures r.1.sigcons[i].Bound? && r.1.sigcons[i].chan == n.outputs[o].chan
    ensures r.1.sigcons[i].id == w.cells[n.outputs[o].chan].dat.nextId
    ensures |r.0.cells| == |w.cells|
    ensures forall c :: 0 <= c < |w.cells| && c != n.outputs[o].chan && !(other.sigcons[i].Bound? && c == other.sigcons[i].chan) ==>
      r.0.cells[c] == w.cells[c]
    ensures !(other.sigcons[i].Bound? && other.sigcons[i].chan == n.outputs[o].chan) ==>
      Added(w.cells[n.outputs[o].chan].dat, r.0.cells[n.outputs[o].chan].dat, r.1.sigcons[i].id, other.handlers[i])
    ensures other.sigcons[i].Bound? && other.sigcons[i].chan == n.outputs[o].chan ==>
      r.0.cells[n.outputs[o].chan].dat.handlers ==
        w.cells[n.outputs[o].chan].dat.handlers[r.1.sigcons[i].id := other.handlers[i]] - {other.sigcons[i].id}
    ensures other.sigcons[i].Bound? && other.sigcons[i].chan != n.outputs[o].chan && Live(w, other.sigcons[i].chan) ==>
      Removed(w.cells[other.sigcons[i].chan].dat, r.0.cells[other.sigcons[i].chan].dat, other.sigcons[i].id)
    ensures forall s :: Owns(w, s) ==> Owns(r.0, s)
  {
    Accept(w, other, i, (w': NodeWorld<T>, h: Handler<T>) requires o < |n.outputs| && Owns(w', n.outputs[o]) =>
      ConnectOutput(w', n, o, h))
  }

  /** Registers `hs[k..]` into handler slots `k..`, in order. */
  function RegisterAll<T>(n: Node<T>, hs: seq<Handler<T>>, k: nat): (r: Node<T>)
    requires |hs| == |n.handlers| && k <= |hs|
    ensures |r.handlers| == |n.handlers| && r.sigcons == n.sigcons && r.outputs == n.outputs
    ensures forall j :: 0 <= j < k ==> r.handlers[j] == n.handlers[j]
    ensures forall j :: k <= j < |hs| ==> r.handlers[j] == hs[j]
    decreases |hs| - k
  {
    if k == |hs| then n else RegisterAll(RegisterHandler(n, k, hs[k]), hs, k + 1)
  }

  /** The sinks of outputs `k..`, in order. */
  function AllSinks<T>(n: Node<T>, k: nat): (r: seq<Sink>)
    requires k <= |n.outputs|
    ensures |r| == |n.outputs| - k
    ensures forall j :: 0 <= j < |r| ==> r[j].output == k + j
    decreases |n.outputs| - k
  {
    if k == |n.outputs| then [] else [GetSink(n, k)] + AllSinks(n, k + 1)
  }

  /** `NodeBuilder::Build`: a default node whose input `k` holds the task's
      `k`-th handler, and a task whose `k`-th sink emits on output `k`. No
      handle is set. */
  function Build<T>(w: NodeWorld<T>, task: Task<T>, outputs: nat): (r: (NodeWorld<T>, Node<T>, Task<T>))
    ensures Shape(r.1, |task.handlers|, outputs) && OutputsLive(r.0, r.1)
    ensures forall k :: 0 <= k < |task.handlers| ==> r.1.handlers[k] == task.handlers[k] && r.1.sigcons[k] == Unbound
    ensures forall o :: 0 <= o < outputs ==>
      |w.cells| <= r.1.outputs[o].chan && |r.0.cells[r.1.outputs[o].chan].dat.handlers| == 0
    ensures r.2.handlers == task.handlers && |r.2.sinks| == outputs
    ensures forall k :: 0 <= k < outputs ==> r.2.sinks[k].output == k
    ensures Grows(w, r.0) && r.0.cells[..|w.cells|] == w.cells
  {
    var (w1, n0) := NewNode(w, |task.handlers|, outputs);
    var n1 := RegisterAll(n0, task.handlers, 0);
    var sinks := AllSinks(n1, 0);
    (w1, n1, task.(sinks := sinks))
  }

  // ---------------------------------------------------------------------
  // Properties

  /** After `Accept<i>(upstream)`, emitting `v` on the upstream calls the
      handler input `i` had at accept time with `v`, under the handle now
      in slot `i`. */
  lemma {:induction false} AcceptSignalDelivers<T, V>(w: NodeWorld<T>, n: Node<T>, i: nat, up: Signal, v: V,
                                   react: (Call<Handler<T>, V>, NodeWorld<T>) -> NodeWorld<T>)
    requires i < |n.sigcons| && i < |n.handlers| && Owns(w, up)
    requires Issued(w, n.sigcons[i])
    ensures var (w1, n1) := AcceptSignal(w, n, i, up);
      && Owns(w1, up)
      && Call(n1.sigcons[i].id, n.handlers[i], v) in Emit(w1, up, v, react).calls
  {
    var (wc, h) := Connect(w, up, n.handlers[i]);
    ConnectThenEmit(w, up, n.handlers[i], v, react);
    assert Call(h.id, n.handlers[i], v) in Emit(wc, up, v, react).calls;
    var prev := n.sigcons[i];
    var (w1, n1) := AcceptSignal(w, n, i, up);
    assert w1 == Revoke(wc, prev);
    if prev.Bound? && prev.chan == up.chan {
      RevokeThenEmit(wc, up, prev, v, react);
    } else {
      assert w1.cells[up.chan] == wc.cells[up.chan];
    }
  }

  /** Registering a new handler on an input after it was accepted does not
      change the subscription: the upstream stored its own copy, so it
      still calls the handler from accept time. */
  lemma {:induction false} RegisterAfterAcceptKeepsSubscription<T, V>(w: NodeWorld<T>, n: Node<T>, i: nat, up: Signal, h2: Handler<T>, v: V,
                                                   react: (Call<Handler<T>, V>, NodeWorld<T>) -> NodeWorld<T>)
    requires i < |n.sigcons| && i < |n.handlers| && Owns(w, up)
    requires Issued(w, n.sigcons[i])
    ensures var (w1, n1) := AcceptSignal(w, n, i, up);
      var n2 := RegisterHandler(n1, i, h2);
      && n2.handlers[i] == h2 && n2.sigcons == n1.sigcons
      && Call(n2.sigcons[i].id, n.handlers[i], v) in Emit(w1, up, v, react).calls
  {
    AcceptSignalDelivers(w, n, i, up, v, react);
  }

  /** After `Connect<o>(h)`, a sink emit on output `o` makes the calls it
      made before and then calls `h` with the emitted value. */
  lemma {:induction false} ConnectOutputDelivers<T, V>(w: NodeWorld<T>, n: Node<T>, o: nat, h: Handler<T>, v: V,
                                    react: (Call<Handler<T>, V>, NodeWorld<T>) -> NodeWorld<T>)
    requires o < |n.outputs| && Owns(w, n.outputs[o])
    ensures var (w1, hd) := ConnectOutput(w, n, o, h);
      SinkEmit(w1, n, GetSink(n, o), v, react).calls ==
      SinkEmit(w, n, GetSink(n, o), v, react).calls + [Call(hd.id, h, v)]
  {
    ConnectThenEmit(w, n.outputs[o], h, v, react);
  }

  /** After `n.Connect<o, i>(other)`, a sink emit on `n`'s output `o`
      delivers the value to `other`'s handler `i`. */
  lemma {:induction false} ConnectNodesDelivers<T, V>(w: NodeWorld<T>, n: Node<T>, o: nat, other: Node<T>, i: nat, v: V,
                                   react: (Call<Handler<T>, V>, NodeWorld<T>) -> NodeWorld<T>)
    requires o < |n.outputs| && Owns(w, n.outputs[o])
    requires i < |other.sigcons| && i < |other.handlers|
    requires Issued(w, other.sigcons[i])
    ensures var (w1, other1) := ConnectNodes(w, n, o, other, i);
      && Owns(w1, n.outputs[o])
      && Call(other1.sigcons[i].id, other.handlers[i], v) in SinkEmit(w1, n, GetSink(n, o), v, react).calls
  {
    var (w1, other1) := ConnectNodes(w, n, o, other, i);
    assert (w1, other1) == AcceptSignal(w, other, i, n.outputs[o]);
    AcceptSignalDelivers(w, other, i, n.outputs[o], v, react);
  }

  /** No operation changes a node's arity: inputs, handlers and outputs
      keep their counts through registering, accepting and connecting. */
  lemma {:induction false} ArityNeverChanges<T>(w: NodeWorld<T>, n: Node<T>, i: nat, o: nat, h: Handler<T>, up: Signal, other: Node<T>)
    requires Shape(n, |n.handlers|, |n.outputs|) && i < |n.handlers| && Owns(w, up)
    requires o < |other.outputs| && Owns(w, other.outputs[o])
    ensures Shape(RegisterHandler(n, i, h), |n.handlers|, |n.outputs|)
    ensures Shape(AcceptSignal(w, n, i, up).1, |n.handlers|, |n.outputs|)
    ensures Shape(ConnectNodes(w, other, o, n, i).1, |n.handlers|, |n.outputs|)
  {
  }
}
