# tsig signals and nodes, modelled in Dafny

This project models the core of **tsig**, a header-only C++ library of typed
signals and slots, together with its small node layer **tsig::tn**.

- A `Signal` owns a shared channel state, `detail::Sigdat`. That state holds a
  counter and an id-ordered table of listeners.
- `Connect` adds a listener under a fresh id and returns a `Sigcon`, a
  connection handle. The handle refers to the state only weakly.
- `Emit` copies the table and then calls every listener in the copy, in id
  order, with the emitted value.
- A handle revokes its listener when it is reset, destroyed or assigned over.
  It does so only while the channel still exists.
- A `tn::Node` has a fixed list of input slots. Each slot stores a handler
  and a handle. The node also has a fixed list of output signals.
  - `NodeBuilder::Build` copies a task's handlers into the slots and gives
    the task one sink per output.
  - `Accept` and the two `Connect` forms wire nodes to signals and to each
    other.

The model has these files and modules:

- `sigdat.dfy` (module `ChannelState`): the channel state, what its three
  operations mean, and the `Dispatches` predicate. `Dispatches` describes
  one pass over a table: every listener exactly once, in ascending id order,
  each with the emitted value.
- `signal.dfy` (module `Signals`): the heap of channel states as a
  `World`, a sequence of cells. A cell's index is the state's identity, and
  an `alive` flag replaces the shared/weak pointer pair.
  - `Signal` is `Owning(chan)` or `Moved`. `Sigcon` is `Bound(chan, id)` or
    `Unbound`.
  - `Emit` takes the listeners' side effect as a parameter,
    `react: (Call, World) -> World`. The calls it makes are fixed by the
    table at entry. The world afterwards is those side effects applied in
    call order.
- `node.dfy` (module `Nodes`): nodes, sinks, tasks, the builder and the
  wiring operations.
- `scenarios.dfy` (module `SignalScenarios`): each behaviour the signal test
  suite checks, stated for all listeners and values. Also the re-entrant
  case, in which listeners revoke each other during an emit.
- `node_scenarios.dfy` (module `NodeScenarios`): the wiring in the node
  example's `main`. It shows that after the wiring, each upstream signal
  reaches exactly the detector input it was accepted on. It also shows that
  each detector output reaches exactly the listener connected to it.

A handle's destructor is modelled as `Signals.Revoke`. `Reset` and move
assignment are defined through it, so the "destroyed handle" tests
(`EmitDropped`, `ConnectDropped`) are covered by the same lemmas as `Reset`.

## Model

| member | source | states |
|---|---|---|
| ChannelState.Empty | tsig/signal.hpp:114-124 | A new channel state has no listeners, its counter starts at 0, and it satisfies the class invariant: every stored id is below the counter. |
| ChannelState.AddHandler | tsig/signal.hpp:216-221 | The returned id is the counter's old value, so it is not in the table. The table gains exactly that entry, mapped to the given listener, and no other entry changes. The counter moves on by exactly one and the invariant is kept. |
| ChannelState.RemoveHandler | tsig/signal.hpp:236-240 | Exactly the entry `id` is removed. Removing an id that is not present changes nothing. The counter and all other entries stay as they were, and the invariant is kept. |
| ChannelState.IdsBelow | tsig/signal.hpp:229 | Lists the table's ids in strictly ascending order: every id it lists is in the table, and every id in the table is listed. This is `std::map`'s iteration order. |
| ChannelState.CallHandlers | tsig/signal.hpp:223-234 | The calls form one complete pass: each listener of the table is called exactly once, in ascending id order, with the emitted value. |
| ChannelState.Replay | tsig/signal.hpp:216-240 | Any history of adds and removes keeps the class invariant. |
| ChannelState.IssuedIdsIncrease | tsig/signal.hpp:220 | Over any history, the ids handed out strictly increase and all lie between the counter at the start and the counter at the end, so no id is issued twice. |
| ChannelState.RemoveIdempotent | tsig/signal.hpp:236-240 | Removing the same id twice has the same effect as removing it once. |
| ChannelState.DispatchUnique | tsig/signal.hpp:223-234 | A table and a value determine exactly one pass. This makes "the calls an emit makes" well defined. |
| ChannelState.DispatchAppend | tsig/signal.hpp:216-221 | Adding a listener under a fresh id adds exactly one call, at the end of the pass: the new listener with the emitted value. |
| ChannelState.DispatchRemove | tsig/signal.hpp:236-240 | After an id is removed, the pass makes exactly the calls it made before, except the call for that id. |
| Signals.NewSignal | tsig/signal.hpp:181-185 | Construction creates a fresh, live, empty channel state that the signal owns. Every existing channel state stays as it was. |
| Signals.DropSignal | tsig/signal.hpp:98-99 | The implicit destructor of a signal releases its owning pointer. Destroying an owning signal kills its channel and touches no other channel. Destroying a moved-from signal does nothing. |
| Signals.MoveSignal | tsig/signal.hpp:187-191 | Move construction transfers ownership to the new signal and leaves the source owning nothing. |
| Signals.AssignSignal | tsig/signal.hpp:193-199 | Move assignment destroys the target's own channel and changes no other channel, so the source's channel keeps its table. The target then owns the source's channel, and the source is left empty. A moved-from target changes nothing. |
| Signals.AssignSignalKeepsDelivering | tsig/signal.hpp:193-199 | After move assignment, the target makes exactly the calls the source made before, whatever the target owned. |
| Signals.Connect | tsig/signal.hpp:201-206 | Connecting returns a bound handle on this signal's channel. Its id is the channel's counter, which moves on by one, so the id was never issued before, and the channel's table gains exactly that listener. All other channels are unchanged. |
| Signals.Emit | tsig/signal.hpp:208-212 | The calls are one complete pass over the table as it stood at entry. The world afterwards is the listeners' effects applied in call order. |
| Signals.Revoke | tsig/signal.hpp:145-151 | A bound handle whose channel is alive removes exactly its own listener from that channel. Otherwise nothing changes, and no signal loses its channel. |
| Signals.Reset | tsig/signal.hpp:169-179 | Reset revokes when it can and always leaves the handle owning nothing. |
| Signals.MoveHandle | tsig/signal.hpp:139-143 | Move construction hands the subscription to the new handle and leaves the source unbound. |
| Signals.AssignHandle | tsig/signal.hpp:153-167 | Move assignment first revokes the target's own subscription, then moves the source's subscription into the target and leaves the source unbound. |
| Signals.EmitIgnoresListenerEffects | tsig/signal.hpp:226-227 | Because the table is copied before the pass, the calls an emit makes do not depend on what listeners do during it. |
| Signals.EmitWithoutListeners | tsig/signal.hpp:223-234 | An emit on an empty table calls nothing and leaves the world as it was. |
| Signals.ConnectThenEmit | tsig/signal.hpp:201-212 | After a connect, an emit makes exactly the calls it made before, followed by one call to the new listener. |
| Signals.RevokeThenEmit | tsig/signal.hpp:145-151 | After a revoke, an emit makes exactly the earlier calls except the revoked listener's. |
| Signals.RevokeIdempotent | tsig/signal.hpp:169-179 | Revoking through the same handle twice has the same effect as once. An unbound handle revokes nothing. |
| Signals.ResetTwice | tsig/signal.hpp:169-179 | A second reset finds nothing to do. |
| Signals.StaleHandleNeverAliases | tsig/signal.hpp:216-221 | An old handle can never remove a listener connected later, on any channel, because ids are never reused. |
| Signals.AssignHandleKeepsDelivering | tsig/signal.hpp:153-167 | After assigning over a handle, that handle's old listener is gone and the moved listener is still called. Destroying the moved-from handle then changes nothing. |
| Signals.MovedSignalKeepsDelivering | tsig/signal.hpp:187-191 | A listener connected before a signal is moved is called when the new owner emits. The moved-from signal owns nothing. |
| Signals.MoveHandleKeepsSubscription | tsig/signal.hpp:139-143 | A handle moved into a new one keeps the subscription: the listener is still called, and revoking through the new handle removes it. Destroying the moved-from handle changes nothing. |
| Signals.EffectsGrow | tsig/signal.hpp:229-233 | Listeners that act only through the library's operations leave a world in which no channel disappeared, no counter went down and no destroyed channel came back. |
| Signals.EmitGrows | tsig/signal.hpp:223-234 | An emit whose listeners act only through the library grows the world, so every handle issued before it is still issued after it. |
| Signals.StaleHandleNeverAliasesAcrossEmit | tsig/signal.hpp:216-221 | A handle issued before an emit can never remove a listener connected after it, even when listeners connected or revoked during the emit. |
| Signals.DeadChannelInert | tsig/signal.hpp:145-151 | Once its channel is destroyed, no signal can reach a handle's listener, and revoking through the handle changes nothing. |
| SignalScenarios.ConnectAll | tests/signal_test.cpp:176-178 | Connecting listeners in order hands out consecutive ids, starting at the counter, in connection order. |
| SignalScenarios.ConnectAllThenEmit | tests/signal_test.cpp:171-192 | After connecting several listeners, an emit makes the earlier calls and then one call per new listener, in connection order. |
| SignalScenarios.EmitNoConnection | tests/signal_test.cpp:112-120 | An emit on a signal with no connections calls nothing. |
| SignalScenarios.EmitTwice | tests/signal_test.cpp:98-110 | With one listener, each of two emits calls it exactly once, with that emit's value. |
| SignalScenarios.EmitReset | tests/signal_test.cpp:156-169 | The emit before the reset reaches the listener. The emit after it calls nothing, and the handle is left unbound. |
| SignalScenarios.EmitMoved | tests/signal_test.cpp:122-138 | A subscription moved into a default handle survives the destruction of the moved-from handle and keeps delivering. |
| SignalScenarios.MoveConnected | tests/signal_test.cpp:194-211 | Moving a connected signal into another kills the target's old channel. The listener is then called through the target, and the source owns nothing. |
| SignalScenarios.ConnectDropped | tests/signal_test.cpp:85-96 | A handle that outlives its signal cannot be reached by any signal, and destroying it afterwards changes nothing. |
| SignalScenarios.EmitMultiple | tests/signal_test.cpp:171-192 | On a fresh signal, each of two emits calls every connected listener exactly once, in connection order, with that emit's value. |
| SignalScenarios.EffectsOfRevokeNext | tsig/signal.hpp:223-234 | The listeners' revocations remove exactly the ids of the handles they reset, and nothing else. |
| SignalScenarios.ReentrantRevocation | tsig/signal.hpp:223-234 | When each listener resets the next one's handle, the first emit still calls all n listeners once, because the pass runs over the copy. Afterwards no listener is left, and a second emit calls nothing. |
| Nodes.NewNode | tsig/tn/node.hpp:105-111 | A default node has the declared arity. Its slots hold no handle and no handler, and its outputs own distinct fresh live channels. |
| Nodes.RegisterHandler | tsig/tn/node.hpp:152-158 | Exactly handler slot `i` is replaced. The other handlers, all handles and all outputs are unchanged. |
| Nodes.GetSink | tsig/tn/node.hpp:160-169 | The sink is bound to output `o` of the node, and to no other output. |
| Nodes.SinkEmit | tsig/tn/node.hpp:166-168 | Calling a sink is one complete pass over the listeners of that output's channel. The world afterwards is those listeners' effects applied in call order. |
| Nodes.Accept | tsig/tn/node.hpp:171-177 | The connector is called once with slot `i`'s handler. The returned handle goes into slot `i` and the slot's previous subscription is revoked. Handlers and outputs are unchanged. |
| Nodes.AcceptSignal | tsig/tn/node.hpp:179-187 | Accepting from a signal subscribes slot `i`'s handler to that signal under the channel's counter as id, held in slot `i`. The signal stays owned and the other slots are unchanged. If the slot held a subscription, that listener is removed from its own channel; no other channel changes, and every owned channel stays alive. |
| Nodes.ConnectOutput | tsig/tn/node.hpp:189-195 | The given handler becomes exactly one new listener of output `o`, and the returned handle owns it. The id is the channel's counter and the counter moves on by exactly one, so the id was never issued before. Other channels are untouched. |
| Nodes.ConnectNodes | tsig/tn/node.hpp:197-205 | The other node's slot `i` becomes a subscription of its handler to output `o` of this node, held in that slot. If the slot held a subscription, that listener is removed from its own channel; no other channel changes, and every owned channel stays alive. |
| Nodes.RegisterAll | tsig/tn/node.hpp:223-236 | Slots from `k` on receive the task's handlers, and slots below `k` keep theirs. Handles and outputs are unchanged. |
| Nodes.AllSinks | tsig/tn/node.hpp:238-251 | Produces one sink per output from `k` on, in output order. |
| Nodes.Build | tsig/tn/node.hpp:207-219 | The built node has the task's inputs as handlers and no subscriptions. Its outputs own distinct fresh live channels, and the task receives sink `k` for output `k`, for every output. |
| Nodes.AcceptSignalDelivers | tsig/tn/node.hpp:179-187 | After `Accept<i>(signal)`, an emit on the signal calls slot `i`'s accept-time handler under the handle in slot `i`. |
| Nodes.RegisterAfterAcceptKeepsSubscription | tsig/tn/node.hpp:152-158 | Registering a new handler after an accept does not change what the upstream calls, because the upstream stored its own copy. |
| Nodes.ConnectOutputDelivers | tsig/tn/node.hpp:189-195 | After `Connect<o>(h)`, a sink emit on output `o` makes its earlier calls and then calls `h`. |
| Nodes.ConnectNodesDelivers | tsig/tn/node.hpp:197-205 | After `Connect<o, i>(other)`, a sink emit on output `o` reaches the other node's handler `i`. |
| Nodes.ArityNeverChanges | tsig/tn/node.hpp:105-111 | Registering, accepting and connecting never change a node's number of inputs, handlers or outputs. |
| NodeScenarios.Setup | examples/node_example.cpp:169-182 | Building the two nodes and three signals yields nodes with the declared arity and no subscriptions. The channels are fresh, empty and distinct. |
| NodeScenarios.Wire | examples/node_example.cpp:184-197 | After the three accepts and the two connects, each upstream channel and each detector output holds exactly one listener, the intended one. |
| NodeScenarios.ExampleDelivers | examples/node_example.cpp:199-202 | Each upstream emit calls exactly the detector handler for that input. The detector's first sink calls exactly the avoidance node's input, and its second calls exactly the diagnostics listener. |

## Left out

- Reference counting: the `shared_ptr`/`weak_ptr` pair is replaced by a per-channel `alive` flag. A channel's life ends when its owning signal releases it, by destruction or by being move-assigned over (`DropSignal`, used by `AssignSignal`). `weak_ptr::lock` becomes a check of that flag.
- Null states: calling `Connect` or `Emit` on a moved-from signal dereferences a null pointer in C++ (undefined behaviour). In the model, `Owns` is a precondition of both.
- Exceptions thrown by listeners, and calls to an empty `std::function`: neither is modelled. An emit always runs its whole pass.
- `INVALID_HANDLER_ID` and `size_t` wrap-around of the id counter: the unbound handle is its own constructor, and ids are unbounded natural numbers. A counter that wraps after 2^64 connections is outside the model.
- ChannelState.AddHandler requires the class invariant (every stored id is below the counter). This is the case where `emplace` never meets an existing key. Every reachable state satisfies it, by `ChannelState.Replay`.
- Self move-assignment of a signal or a handle is excluded by a precondition (`AssignSignal`) or not considered.
- Nodes capture `this` in their sinks and connectors. The model's sinks name an output index instead, so relocating a node in memory is not modelled.
- Per-slot value types: the node's inputs and outputs carry one type-erased handler type. Slot indices that C++ rejects at compile time become preconditions.
- The `TSIG_CHECK_RESULT` attribute macro, and the example's application logic (printing, geometry, merging point clouds): not modelled.
- Signals.Emit: listeners that emit again during a pass get their nested calls folded into the world, through `react`. They are not logged in the outer pass's list of calls.
- Signals.Emit: every listener receives the emitted value itself. In the C++ library `CallHandlers` forwards the arguments to every listener inside its loop. For a by-value parameter of a movable type, the first listener's argument is move-constructed from the value and later listeners receive a moved-from value. The model covers parameters passed by reference or trivially copyable, which is what the signal tests (`const std::string&, int, int`) and the node layer (`const T&`) use.
- ChannelState.CallHandlers: the same restriction on the parameter types applies to its calls' argument.
- Signals.EmitGrows: stated for listeners that act only through the library's operations. A listener given an arbitrary world transformer could shrink the world, and then nothing is promised.
- SignalScenarios.ReentrantRevocation: "the next listener" wraps around modulo n. This is the scenario's choice, not the library's.
