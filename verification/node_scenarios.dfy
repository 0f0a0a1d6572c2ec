/** The wiring of the node example, over abstract handlers and values: an
    obstacle-detector node with three inputs and two outputs, an
    obstacle-avoidance node with one input and none, three upstream
    signals accepted into the detector's inputs, the detector's output 0
    connected to the avoidance node's input 0, and an extra listener on
    the detector's output 1. */
module NodeScenarios {
  import opened ChannelState
  import opened Signals
  import opened Nodes

  /** Everything the example's `main` holds once it has built its parts. */
  datatype Example<T> = Example(w: NodeWorld<T>, detector: Node<T>, detectorTask: Task<T>,
                                avoidance: Node<T>, pc1: Signal, pc2: Signal, vp: Signal)

  /** `s` owns a live channel whose table is exactly `m`. */
  ghost predicate Holds<L>(w: World<L>, s: Signal, m: map<nat, L>)
  {
    Owns(w, s) && w.cells[s.chan].dat.handlers == m
  }

  /** The example's parts right after construction: nodes with the task
      handlers in place and no subscription, and five distinct channels,
      each live and empty. */
  ghost predicate Fresh<T>(e: Example<T>, handlers: seq<Handler<T>>, g: Handler<T>)
  {
    && |handlers| == 3
    && Shape(e.detector, 3, 2) && Shape(e.avoidance, 1, 0)
    && e.detector.handlers == handlers && e.avoidance.handlers == [g]
    && (forall k :: 0 <= k < 3 ==> e.detector.sigcons[k] == Unbound)
    && e.avoidance.sigcons[0] == Unbound
    && |e.detectorTask.sinks| == 2
    && (forall k :: 0 <= k < 2 ==> e.detectorTask.sinks[k].output == k)
    && Holds(e.w, e.detector.outputs[0], map[]) && Holds(e.w, e.detector.outputs[1], map[])
    && Holds(e.w, e.pc1, map[]) && Holds(e.w, e.pc2, map[]) && Holds(e.w, e.vp, map[])
    && e.detector.outputs[0].chan < e.detector.outputs[1].chan < e.pc1.chan < e.pc2.chan < e.vp.chan
  }

  /** A step that keeps the old channels as they were keeps their tables. */
  lemma {:induction false} PrefixKept<L>(w: World<L>, w': World<L>, s: Signal, m: map<nat, L>)
    requires |w.cells| <= |w'.cells| && w'.cells[..|w.cells|] == w.cells && Holds(w, s, m)
    ensures Holds(w', s, m)
  {
    assert w'.cells[s.chan] == w'.cells[..|w.cells|][s.chan];
  }

  /** Both nodes of the example, built from their tasks: the detector from
      `handlers` with two outputs, the avoidance node from `g` with none. */
  function BuildNodes<T>(w: NodeWorld<T>, handlers: seq<Handler<T>>, g: Handler<T>):
    (r: (NodeWorld<T>, Node<T>, Task<T>, Node<T>))
    requires |handlers| == 3
    ensures Shape(r.1, 3, 2) && Shape(r.3, 1, 0) && r.1.handlers == handlers && r.3.handlers == [g]
    ensures (forall k :: 0 <= k < 3 ==> r.1.sigcons[k] == Unbound) && r.3.sigcons[0] == Unbound
    ensures |r.2.sinks| == 2 && forall k :: 0 <= k < 2 ==> r.2.sinks[k].output == k
    ensures Holds(r.0, r.1.outputs[0], map[]) && Holds(r.0, r.1.outputs[1], map[])
    ensures r.1.outputs[0].chan < r.1.outputs[1].chan < |r.0.cells|
  {
    var (w1, detector, detectorTask) := Build(w, Task(handlers, []), 2);
    var (w2, avoidance, _) := Build(w1, Task([g], []), 0);
    assert Owns(w1, detector.outputs[0]) && Owns(w1, detector.outputs[1]);
    PrefixKept(w1, w2, detector.outputs[0], map[]);
    PrefixKept(w1, w2, detector.outputs[1], map[]);
    (w2, detector, detectorTask, avoidance)
  }

  /** The three upstream signals, on new channels in creation order. */
  function NewThree<L>(w: World<L>): (r: (World<L>, Signal, Signal, Signal))
    ensures |w.cells| <= |r.0.cells| && r.0.cells[..|w.cells|] == w.cells
    ensures Holds(r.0, r.1, map[]) && Holds(r.0, r.2, map[]) && Holds(r.0, r.3, map[])
    ensures |w.cells| <= r.1.chan < r.2.chan < r.3.chan
  {
    var (w1, pc1) := NewSignal(w);
    var (w2, pc2) := NewSignal(w1);
    var (w3, vp) := NewSignal(w2);
    PrefixKept(w1, w2, pc1, map[]);
    PrefixKept(w2, w3, pc1, map[]);
    PrefixKept(w2, w3, pc2, map[]);
    assert w3.cells[..|w.cells|] == w.cells;
    (w3, pc1, pc2, vp)
  }

  /** Builds both nodes from their tasks, then the three upstream signals. */
  function Setup<T>(w: NodeWorld<T>, handlers: seq<Handler<T>>, g: Handler<T>): (e: Example<T>)
    requires |handlers| == 3
    ensures Fresh(e, handlers, g)
  {
    var (w2, detector, detectorTask, avoidance) := BuildNodes(w, handlers, g);
    var (w5, pc1, pc2, vp) := NewThree(w2);
    PrefixKept(w2, w5, detector.outputs[0], map[]);
    PrefixKept(w2, w5, detector.outputs[1], map[]);
    Example(w5, detector, detectorTask, avoidance, pc1, pc2, vp)
  }

  /** Accepts the three signals into the detector's inputs 0, 1 and 2, then
      subscribes the avoidance node's input 0 to the detector's output 0
      and `diag` to its output 1; returns the example and the handle
      `main` keeps for `diag`. */
  function Wire<T>(e: Example<T>, handlers: seq<Handler<T>>, g: Handler<T>, diag: Handler<T>): (r: (Example<T>, Sigcon))
    requires Fresh(e, handlers, g)
    ensures Wired(r.0, handlers, g, diag, r.1)
    ensures r.0.detectorTask == e.detectorTask && r.0.detector.outputs == e.detector.outputs
    ensures r.0.detector.handlers == e.detector.handlers && r.0.avoidance.handlers == e.avoidance.handlers
    ensures r.0.pc1 == e.pc1 && r.0.pc2 == e.pc2 && r.0.vp == e.vp
  {
    var (w6, od6) := AcceptSignal(e.w, e.detector, 0, e.pc1);
    Untouched(e.w, w6, e.pc1.chan, e.pc2, map[]);
    Untouched(e.w, w6, e.pc1.chan, e.vp, map[]);
    var (w7, od7) := AcceptSignal(w6, od6, 1, e.pc2);
    Untouched(w6, w7, e.pc2.chan, e.vp, map[]);
    var (w8, od8) := AcceptSignal(w7, od7, 2, e.vp);
    WireInputs(e, handlers, g, w6, od6, w7, od7, w8, od8);
    var (w9, oa9) := ConnectNodes(w8, od8, 0, e.avoidance, 0);
    Untouched(w8, w9, od8.outputs[0].chan, od8.outputs[1], map[]);
    var (w10, sc) := ConnectOutput(w9, od8, 1, diag);
    WireOutputs(e, handlers, g, diag, w8, od8, w9, oa9, w10, sc);
    (e.(w := w10, detector := od8, avoidance := oa9), sc)
  }

  /** After the wiring: each upstream signal's table holds exactly the
      detector's handler for that input under the handle the input keeps;
      output 0's holds exactly the avoidance node's handler under that
      node's handle, output 1's exactly `diag` under `sc`. */
  ghost predicate Wired<T>(e: Example<T>, handlers: seq<Handler<T>>, g: Handler<T>, diag: Handler<T>, sc: Sigcon)
  {
    && |handlers| == 3 && Shape(e.detector, 3, 2) && Shape(e.avoidance, 1, 0)
    && (forall k :: 0 <= k < 3 ==> e.detector.sigcons[k].Bound?)
    && e.avoidance.sigcons[0].Bound? && sc.Bound?
    && Holds(e.w, e.pc1, map[e.detector.sigcons[0].id := handlers[0]])
    && Holds(e.w, e.pc2, map[e.detector.sigcons[1].id := handlers[1]])
    && Holds(e.w, e.vp, map[e.detector.sigcons[2].id := handlers[2]])
    && Holds(e.w, e.detector.outputs[0], map[e.avoidance.sigcons[0].id := g])
    && Holds(e.w, e.detector.outputs[1], map[sc.id := diag])
  }

  /** A channel that a step leaves alone keeps its table. */
  lemma {:induction false} Untouched<L>(w: World<L>, w': World<L>, c: nat, s: Signal, m: map<nat, L>)
    requires SameElsewhere(w, w', c) && Holds(w, s, m) && s.chan != c
    ensures Holds(w', s, m)
  {
    assert w'.cells[s.chan] == w.cells[s.chan];
  }

  /** A connection on an empty live channel leaves exactly that listener. */
  lemma {:induction false} ConnectedOnce<L>(w: World<L>, w': World<L>, s: Signal, id: nat, h: L)
    requires Holds(w, s, map[]) && Owns(w', s) && Added(w.cells[s.chan].dat, w'.cells[s.chan].dat, id, h)
    ensures Holds(w', s, map[id := h])
  {
    assert w'.cells[s.chan].dat.handlers.Keys == {id};
  }

  /** The three accepts: each input's signal gets that input's handler, and
      the other channels keep their tables. */
  lemma {:induction false} WireInputs<T>(e: Example<T>, handlers: seq<Handler<T>>, g: Handler<T>,
                                         w6: NodeWorld<T>, od6: Node<T>, w7: NodeWorld<T>, od7: Node<T>,
                                         w8: NodeWorld<T>, od8: Node<T>)
    requires Fresh(e, handlers, g)
    requires (w6, od6) == AcceptSignal(e.w, e.detector, 0, e.pc1)
    requires Holds(w6, e.pc2, map[]) && (w7, od7) == AcceptSignal(w6, od6, 1, e.pc2)
    requires Holds(w7, e.vp, map[]) && (w8, od8) == AcceptSignal(w7, od7, 2, e.vp)
    ensures od8.outputs == e.detector.outputs && od8.handlers == handlers && Shape(od8, 3, 2)
    ensures forall k :: 0 <= k < 3 ==> od8.sigcons[k].Bound?
    ensures Holds(w8, e.pc1, map[od8.sigcons[0].id := handlers[0]])
    ensures Holds(w8, e.pc2, map[od8.sigcons[1].id := handlers[1]])
    ensures Holds(w8, e.vp, map[od8.sigcons[2].id := handlers[2]])
    ensures Holds(w8, e.detector.outputs[0], map[]) && Holds(w8, e.detector.outputs[1], map[])
  {
    var o0 := e.detector.outputs[0];
    var o1 := e.detector.outputs[1];
    ConnectedOnce(e.w, w6, e.pc1, od6.sigcons[0].id, handlers[0]);
    Untouched(e.w, w6, e.pc1.chan, o0, map[]);
    Untouched(e.w, w6, e.pc1.chan, o1, map[]);
    ConnectedOnce(w6, w7, e.pc2, od7.sigcons[1].id, handlers[1]);
    Untouched(w6, w7, e.pc2.chan, e.pc1, map[od6.sigcons[0].id := handlers[0]]);
    Untouched(w6, w7, e.pc2.chan, o0, map[]);
    Untouched(w6, w7, e.pc2.chan, o1, map[]);
    ConnectedOnce(w7, w8, e.vp, od8.sigcons[2].id, handlers[2]);
    Untouched(w7, w8, e.vp.chan, e.pc1, map[od6.sigcons[0].id := handlers[0]]);
    Untouched(w7, w8, e.vp.chan, e.pc2, map[od7.sigcons[1].id := handlers[1]]);
    Untouched(w7, w8, e.vp.chan, o0, map[]);
    Untouched(w7, w8, e.vp.chan, o1, map[]);
  }

  /** The two output connections: output 0 gets the avoidance node's
      handler, output 1 gets `diag`, and the input channels keep their
      tables. */
  lemma {:induction false} WireOutputs<T>(e: Example<T>, handlers: seq<Handler<T>>, g: Handler<T>, diag: Handler<T>,
                                          w8: NodeWorld<T>, od8: Node<T>, w9: NodeWorld<T>, oa9: Node<T>,
                                          w10: NodeWorld<T>, sc: Sigcon)
    requires Fresh(e, handlers, g)
    requires od8.outputs == e.detector.outputs && od8.handlers == handlers && Shape(od8, 3, 2)
    requires forall k :: 0 <= k < 3 ==> od8.sigcons[k].Bound?
    requires Holds(w8, e.pc1, map[od8.sigcons[0].id := handlers[0]])
    requires Holds(w8, e.pc2, map[od8.sigcons[1].id := handlers[1]])
    requires Holds(w8, e.vp, map[od8.sigcons[2].id := handlers[2]])
    requires Holds(w8, e.detector.outputs[0], map[]) && Holds(w8, e.detector.outputs[1], map[])
    requires (w9, oa9) == ConnectNodes(w8, od8, 0, e.avoidance, 0)
    requires Holds(w9, od8.outputs[1], map[]) && (w10, sc) == ConnectOutput(w9, od8, 1, diag)
    ensures Wired(e.(w := w10, detector := od8, avoidance := oa9), handlers, g, diag, sc)
  {
    var o0 := e.detector.outputs[0];
    var o1 := e.detector.outputs[1];
    ConnectedOnce(w8, w9, o0, oa9.sigcons[0].id, g);
    Untouched(w8, w9, o0.chan, e.pc1, map[od8.sigcons[0].id := handlers[0]]);
    Untouched(w8, w9, o0.chan, e.pc2, map[od8.sigcons[1].id := handlers[1]]);
    Untouched(w8, w9, o0.chan, e.vp, map[od8.sigcons[2].id := handlers[2]]);
    ConnectedOnce(w9, w10, o1, sc.id, diag);
    Untouched(w9, w10, o1.chan, e.pc1, map[od8.sigcons[0].id := handlers[0]]);
    Untouched(w9, w10, o1.chan, e.pc2, map[od8.sigcons[1].id := handlers[1]]);
    Untouched(w9, w10, o1.chan, e.vp, map[od8.sigcons[2].id := handlers[2]]);
    Untouched(w9, w10, o1.chan, o0, map[oa9.sigcons[0].id := g]);
  }

  /** An emit on a channel with one listener calls exactly that listener. */
  lemma {:induction false} EmitSingle<L, V>(w: World<L>, s: Signal, id: nat, h: L, v: V,
                                            react: (Call<L, V>, World<L>) -> World<L>)
    requires Holds(w, s, map[id := h])
    ensures Emit(w, s, v, react).calls == [Call(id, h, v)]
  {
    var d := w.cells[s.chan].dat;
    var one := [Call(id, h, v)];
    assert one[0].id == id;
    assert Dispatches(d, v, one);
    DispatchUnique(d, v, Emit(w, s, v, react).calls, one);
  }

  /** The example end to end: an emit on each upstream signal calls exactly
      the detector's handler for that input, under the handle the input
      holds; the detector's first sink reaches exactly the avoidance node's
      handler and its second exactly `diag`. */
  lemma {:induction false} ExampleDelivers<T, V>(w: NodeWorld<T>, handlers: seq<Handler<T>>, g: Handler<T>,
                                                 diag: Handler<T>, v: V,
                                                 react: (Call<Handler<T>, V>, NodeWorld<T>) -> NodeWorld<T>)
    requires |handlers| == 3
    ensures var (e, sc) := Wire(Setup(w, handlers, g), handlers, g, diag);
      && Owns(e.w, e.pc1) && Owns(e.w, e.pc2) && Owns(e.w, e.vp)
      && Emit(e.w, e.pc1, v, react).calls == [Call(e.detector.sigcons[0].id, handlers[0], v)]
      && Emit(e.w, e.pc2, v, react).calls == [Call(e.detector.sigcons[1].id, handlers[1], v)]
      && Emit(e.w, e.vp, v, react).calls == [Call(e.detector.sigcons[2].id, handlers[2], v)]
      && |e.detectorTask.sinks| == 2 && |e.detector.outputs| == 2
      && e.detectorTask.sinks[0].output == 0 && e.detectorTask.sinks[1].output == 1
      && Owns(e.w, e.detector.outputs[0]) && Owns(e.w, e.detector.outputs[1])
      && SinkEmit(e.w, e.detector, e.detectorTask.sinks[0], v, react).calls ==
           [Call(e.avoidance.sigcons[0].id, g, v)]
      && SinkEmit(e.w, e.detector, e.detectorTask.sinks[1], v, react).calls == [Call(sc.id, diag, v)]
  {
    var (e, sc) := Wire(Setup(w, handlers, g), handlers, g, diag);
    EmitSingle(e.w, e.pc1, e.detector.sigcons[0].id, handlers[0], v, react);
    EmitSingle(e.w, e.pc2, e.detector.sigcons[1].id, handlers[1], v, react);
    EmitSingle(e.w, e.vp, e.detector.sigcons[2].id, handlers[2], v, react);
    EmitSingle(e.w, e.detector.outputs[0], e.avoidance.sigcons[0].id, g, v, react);
    EmitSingle(e.w, e.detector.outputs[1], sc.id, diag, v, react);
  }
}
