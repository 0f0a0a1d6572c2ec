/** Signals and connection handles over a world of channel states.

    A channel state lives in a cell of the world; its index is the identity
    that the owning `Signal` and every `Sigcon` it issued refer to. The
    owning pointer of a signal becomes `Owning(chan)`, the non-owning
    back-reference of a handle becomes `Bound(chan, id)` together with the
    cell's `alive` flag: a handle may outlive its channel, and then every
    operation through it does nothing. */
module Signals {
  import opened ChannelState

  datatype Cell<L> = Cell(alive: bool, dat: Sigdat<L>)

  /** All channel states ever made, indexed by identity. */
  datatype World<L> = World(cells: seq<Cell<L>>)

  /** A signal either owns one channel state or, after being moved from,
      holds none. */
  datatype Signal = Moved | Owning(chan: nat)

  /** A connection handle: owns nothing, or owns listener `id` of channel `chan`. */
  datatype Sigcon = Unbound | Bound(chan: nat, id: nat)

  /** What an emit produced: the calls it made, in order, and the world
      the listeners left behind. */
  datatype Emitted<L, V> = Emitted(calls: seq<Call<L, V>>, world: World<L>)

  /** Channel `c` exists and has not been destroyed. */
  predicate Live<L>(w: World<L>, c: nat)
  {
    c < |w.cells| && w.cells[c].alive
  }

  /** `s` holds a channel state that is alive and well formed. */
  ghost predicate Owns<L>(w: World<L>, s: Signal)
  {
    s.Owning? && Live(w, s.chan) && Valid(w.cells[s.chan].dat)
  }

  /** `h` was handed out by a channel of `w`: its id is below that
      channel's counter. */
  ghost predicate Issued<L>(w: World<L>, h: Sigcon)
  {
    h.Bound? ==> h.chan < |w.cells| && h.id < w.cells[h.chan].dat.nextId
  }

  /** `w'` can follow `w`: no channel disappeared, no counter went down and
      no destroyed channel came back. */
  ghost predicate Grows<L>(w: World<L>, w': World<L>)
  {
    && |w.cells| <= |w'.cells|
    && (forall c :: 0 <= c < |w.cells| ==> w.cells[c].dat.nextId <= w'.cells[c].dat.nextId)
    && (forall c :: 0 <= c < |w.cells| && !w.cells[c].alive ==> !w'.cells[c].alive)
  }

  /** `w'` agrees with `w` on every channel except `c`. */
  ghost predicate SameElsewhere<L>(w: World<L>, w': World<L>, c: nat)
  {
    |w'.cells| == |w.cells| && forall c' :: 0 <= c' < |w.cells| && c' != c ==> w'.cells[c'] == w.cells[c']
  }

  // ---------------------------------------------------------------------
  // Signal

  /** Constructs a signal together with a fresh, empty channel state. */
  function NewSignal<L>(w: World<L>): (r: (World<L>, Signal))
    ensures Owns(r.0, r.1)
    ensures r.1.chan >= |w.cells|
    ensures |r.0.cells[r.1.chan].dat.handlers| == 0
    ensures r.0.cells[..|w.cells|] == w.cells
    ensures Grows(w, r.0)
  {
    (World(w.cells + [Cell(true, Empty())]), Owning(|w.cells|))
  }

  /** Destroys a signal: its channel state dies with it, since the signal
      is its only owner. A moved-from signal destroys nothing. */
  function DropSignal<L>(w: World<L>, s: Signal): (r: World<L>)
    ensures Grows(w, r)
    ensures s.Moved? ==> r == w
    ensures s.Owning? ==> SameElsewhere(w, r, s.chan) && !Live(r, s.chan)
    ensures s.Owning? && s.chan < |w.cells| ==> r.cells[s.chan].dat == w.cells[s.chan].dat
  {
    if s.Owning? && s.chan < |w.cells| then
      World(w.cells[s.chan := w.cells[s.chan].(alive := false)])
    else w
  }

  /** Move construction: the new signal takes the state, the source is left
      holding none. */
  function MoveSignal(s: Signal): (r: (Signal, Signal))
    ensures r.0 == s && r.1 == Moved
  {
    (s, Moved)
  }

  /** Move assignment `dst = move(src)`: the state `dst` held is released
      (and dies), `dst` takes `src`'s state and `src` holds none. */
  function AssignSignal<L>(w: World<L>, dst: Signal, src: Signal): (r: (World<L>, Signal, Signal))
    requires dst.Owning? && src.Owning? ==> dst.chan != src.chan
    ensures Grows(w, r.0)
    ensures Owns(w, src) ==> Owns(r.0, r.1)
    ensures dst.Owning? ==> !Live(r.0, dst.chan)
    ensures dst.Owning? ==> SameElsewhere(w, r.0, dst.chan)
    ensures dst.Moved? ==> r.0 == w
    ensures r.1 == src && r.2 == Moved
  {
    (DropSignal(w, dst), src, Moved)
  }

  /** Registers `h` on the channel `s` owns and returns a handle bound to it.
      The new id is the channel's counter, which moves on by one, so no
      handle issued before can name it. */
  function Connect<L>(w: World<L>, s: Signal, h: L): (r: (World<L>, Sigcon))
    requires Owns(w, s)
    ensures Owns(r.0, s) && Grows(w, r.0) && SameElsewhere(w, r.0, s.chan)
    ensures r.0.cells[s.chan].alive
    ensures r.1.Bound? && r.1.chan == s.chan && Issued(r.0, r.1)
    ensures r.1.id == w.cells[s.chan].dat.nextId && r.0.cells[s.chan].dat.nextId == r.1.id + 1
    ensures Added(w.cells[s.chan].dat, r.0.cells[s.chan].dat, r.1.id, h)
  {
    var (d, id) := AddHandler(w.cells[s.chan].dat, h);
    (World(w.cells[s.chan := Cell(true, d)]), Bound(s.chan, id))
  }

  /** Runs the listeners' side effects, one call after another. */
  function Effects<L, V>(w: World<L>, calls: seq<Call<L, V>>, react: (Call<L, V>, World<L>) -> World<L>): World<L>
    decreases |calls|
  {
    if |calls| == 0 then w else Effects(react(calls[0], w), calls[1..], react)
  }

  /** Emits `v` on `s`. The calls are fixed by the table as it is on entry
      (a snapshot): every listener present then, once, in ascending id
      order. `react` is what a call does to the world (it may connect,
      reset or emit); its changes reach later emits, never this one. */
  function Emit<L, V>(w: World<L>, s: Signal, v: V, react: (Call<L, V>, World<L>) -> World<L>): (r: Emitted<L, V>)
    requires Owns(w, s)
    ensures Dispatches(w.cells[s.chan].dat, v, r.calls)
    ensures r.world == Effects(w, r.calls, react)
  {
    var calls := CallHandlers(w.cells[s.chan].dat, v);
    Emitted(calls, Effects(w, calls, react))
  }

  // ---------------------------------------------------------------------
  // Sigcon

  /** What the destructor of a handle does: if the handle is bound and its
      channel is still alive, that channel drops the handle's listener;
      otherwise nothing happens. */
  function Revoke<L>(w: World<L>, h: Sigcon): (r: World<L>)
    ensures Grows(w, r)
    ensures !(h.Bound? && Live(w, h.chan)) ==> r == w
    ensures h.Bound? && Live(w, h.chan) ==>
      && SameElsewhere(w, r, h.chan)
      && r.cells[h.chan].alive
      && Removed(w.cells[h.chan].dat, r.cells[h.chan].dat, h.id)
    ensures forall s :: Owns(w, s) ==> Owns(r, s)
  {
    if h.Bound? && Live(w, h.chan) then
      World(w.cells[h.chan := Cell(true, RemoveHandler(w.cells[h.chan].dat, h.id))])
    else w
  }

  /** `Reset`: revoke if possible, then own nothing, whether or not the
      channel was still alive. */
  function Reset<L>(w: World<L>, h: Sigcon): (r: (World<L>, Sigcon))
    ensures r.1 == Unbound
    ensures r.0 == Revoke(w, h)
  {
    (Revoke(w, h), Unbound)
  }

  /** Move construction of a handle: the new handle owns the subscription,
      the source owns nothing. */
  function MoveHandle(src: Sigcon): (r: (Sigcon, Sigcon))
    ensures r.0 == src && r.1 == Unbound
  {
    (src, Unbound)
  }

  /** Move assignment `dst = move(src)`: `dst`'s own subscription is revoked
      first, then `dst` takes over `src`'s and `src` owns nothing. */
  function AssignHandle<L>(w: World<L>, dst: Sigcon, src: Sigcon): (r: (World<L>, Sigcon, Sigcon))
    ensures r.0 == Revoke(w, dst)
    ensures r.1 == src && r.2 == Unbound
  {
    (Revoke(w, dst), src, Unbound)
  }

  // ---------------------------------------------------------------------
  // Properties

  /** The calls an emit makes do not depend on what the listeners do:
      connections and revocations made during the pass wait for the next
      emit. */
  lemma {:induction false} EmitIgnoresListenerEffects<L, V>(w: World<L>, s: Signal, v: V,
                                         react1: (Call<L, V>, World<L>) -> World<L>,
                                         react2: (Call<L, V>, World<L>) -> World<L>)
    requires Owns(w, s)
    ensures Emit(w, s, v, react1).calls == Emit(w, s, v, react2).calls
  {
    DispatchUnique(w.cells[s.chan].dat, v, Emit(w, s, v, react1).calls, Emit(w, s, v, react2).calls);
  }

  /** Emitting on a channel with no listeners calls nothing and changes
      nothing. */
  lemma {:induction false} EmitWithoutListeners<L, V>(w: World<L>, s: Signal, v: V, react: (Call<L, V>, World<L>) -> World<L>)
    requires Owns(w, s) && |w.cells[s.chan].dat.handlers| == 0
    ensures Emit(w, s, v, react).calls == []
    ensures Emit(w, s, v, react).world == w
  {
    var d := w.cells[s.chan].dat;
    assert d.handlers == map[];
    DispatchNonEmpty(d, v, [], Emit(w, s, v, react).calls);
  }

  /** After connecting `h`, an emit makes the calls it made before and then
      one more: `h` with the emitted value, last because its id is the
      largest. */
  lemma {:induction false} ConnectThenEmit<L, V>(w: World<L>, s: Signal, h: L, v: V, react: (Call<L, V>, World<L>) -> World<L>)
    requires Owns(w, s)
    ensures var (w1, hd) := Connect(w, s, h);
      Emit(w1, s, v, react).calls == Emit(w, s, v, react).calls + [Call(hd.id, h, v)]
  {
    var (w1, hd) := Connect(w, s, h);
    var d := w.cells[s.chan].dat;
    var d1 := w1.cells[s.chan].dat;
    var before := Emit(w, s, v, react).calls;
    DispatchAppend(d, d1, hd.id, h, v, before);
    DispatchUnique(d1, v, Emit(w1, s, v, react).calls, before + [Call(hd.id, h, v)]);
  }

  /** After revoking a handle of this channel, an emit makes exactly the
      calls it made before except the revoked listener's; their order is
      still by id. */
  lemma {:induction false} RevokeThenEmit<L, V>(w: World<L>, s: Signal, h: Sigcon, v: V, react: (Call<L, V>, World<L>) -> World<L>)
    requires Owns(w, s) && h.Bound? && h.chan == s.chan
    ensures Owns(Revoke(w, h), s)
    ensures forall c :: c in Emit(Revoke(w, h), s, v, react).calls <==>
      c in Emit(w, s, v, react).calls && c.id != h.id
  {
    DispatchRemove(w.cells[s.chan].dat, Revoke(w, h).cells[s.chan].dat, h.id, v,
                   Emit(w, s, v, react).calls, Emit(Revoke(w, h), s, v, react).calls);
  }

  /** Revoking twice is revoking once; a handle that owns nothing, or whose
      channel is gone, revokes nothing. */
  lemma {:induction false} RevokeIdempotent<L>(w: World<L>, h: Sigcon)
    ensures Revoke(Revoke(w, h), h) == Revoke(w, h)
    ensures h.Unbound? ==> Revoke(w, h) == w
  {
    if h.Bound? && Live(w, h.chan) {
      var d := w.cells[h.chan].dat;
      RemoveIdempotent(d, h.id);
    }
  }

  /** `Reset` leaves a handle that a second `Reset` finds with nothing to do. */
  lemma {:induction false} ResetTwice<L>(w: World<L>, h: Sigcon)
    ensures var (w1, h1) := Reset(w, h); Reset(w1, h1) == (w1, Unbound)
  {
  }

  /** A handle issued earlier can never take away a listener connected later,
      on any channel: ids are never reused. */
  lemma {:induction false} StaleHandleNeverAliases<L>(w: World<L>, w': World<L>, stale: Sigcon, s: Signal, h: L)
    requires Issued(w, stale) && Grows(w, w') && Owns(w', s)
    ensures var (w2, hd) := Connect(w', s, h);
      hd != stale && hd.id in Revoke(w2, stale).cells[s.chan].dat.handlers
  {
    var (w2, hd) := Connect(w', s, h);
    if stale.Bound? && stale.chan == s.chan {
      assert stale.id < w.cells[s.chan].dat.nextId <= w'.cells[s.chan].dat.nextId <= hd.id;
    }
  }

  /** Moving a handle by assignment over one that owned a different
      subscription: the target's old listener is gone, the moved listener
      is still called, and destroying the moved-from source does nothing. */
  lemma {:induction false} AssignHandleKeepsDelivering<L, V>(w: World<L>, s: Signal, dst: Sigcon, src: Sigcon, v: V,
                                           react: (Call<L, V>, World<L>) -> World<L>)
    requires Owns(w, s) && src.Bound? && src.chan == s.chan && src.id in w.cells[s.chan].dat.handlers
    requires dst != src
    ensures var (w1, dst1, src1) := AssignHandle(w, dst, src);
      && Owns(w1, s)
      && (exists k :: 0 <= k < |Emit(w1, s, v, react).calls| &&
            Emit(w1, s, v, react).calls[k] == Call(src.id, w.cells[s.chan].dat.handlers[src.id], v))
      && (dst.Bound? && dst.chan == s.chan ==> dst.id !in w1.cells[s.chan].dat.handlers)
      && Revoke(w1, src1) == w1
  {
    var (w1, dst1, src1) := AssignHandle(w, dst, src);
    var d1 := w1.cells[s.chan].dat;
    assert src.id in d1.handlers;
    var calls := Emit(w1, s, v, react).calls;
    var k :| 0 <= k < |calls| && calls[k].id == src.id;
  }

  /** Move assignment keeps the source's subscriptions: the target now
      makes exactly the calls the source made, whatever the target owned
      before. */
  lemma {:induction false} AssignSignalKeepsDelivering<L, V>(w: World<L>, dst: Signal, src: Signal, v: V,
                                                             react: (Call<L, V>, World<L>) -> World<L>)
    requires Owns(w, src) && (dst.Owning? ==> dst.chan != src.chan)
    ensures var (w1, d1, _) := AssignSignal(w, dst, src);
      && Owns(w1, d1)
      && Emit(w1, d1, v, react).calls == Emit(w, src, v, react).calls
  {
    var (w1, d1, _) := AssignSignal(w, dst, src);
    assert w1.cells[src.chan] == w.cells[src.chan];
    DispatchUnique(w.cells[src.chan].dat, v, Emit(w1, d1, v, react).calls, Emit(w, src, v, react).calls);
  }

  /** Moving a signal keeps its subscriptions: a listener connected through
      the source is called when the new owner emits, and the source holds
      no state any more. */
  lemma {:induction false} MovedSignalKeepsDelivering<L, V>(w: World<L>, s: Signal, h: L, v: V, react: (Call<L, V>, World<L>) -> World<L>)
    requires Owns(w, s)
    ensures var (w1, hd) := Connect(w, s, h);
      var (s2, s1) := MoveSignal(s);
      && Owns(w1, s2) && !Owns(w1, s1)
      && Call(hd.id, h, v) in Emit(w1, s2, v, react).calls
  {
    ConnectThenEmit(w, s, h, v, react);
  }

  /** Move construction of a handle keeps the subscription: the listener is
      still called, revoking through the new handle removes it, and
      destroying the moved-from handle changes nothing. */
  lemma {:induction false} MoveHandleKeepsSubscription<L, V>(w: World<L>, s: Signal, h: L, v: V,
                                                             react: (Call<L, V>, World<L>) -> World<L>)
    requires Owns(w, s)
    ensures var (w1, hd) := Connect(w, s, h);
      var (moved, src) := MoveHandle(hd);
      && Call(moved.id, h, v) in Emit(w1, s, v, react).calls
      && moved.id !in Revoke(w1, moved).cells[s.chan].dat.handlers
      && Revoke(w1, src) == w1
  {
    ConnectThenEmit(w, s, h, v, react);
  }

  lemma {:induction false} GrowsTransitive<L>(a: World<L>, b: World<L>, c: World<L>)
    requires Grows(a, b) && Grows(b, c)
    ensures Grows(a, c)
  {
  }

  /** A listener that acts on the world only through the library's
      operations (connect, revoke, reset, emit, make or destroy a signal)
      leaves a world that grows from the one it was given, since each of
      those operations ensures `Grows`. A run of such listeners grows the
      world, one call after another. */
  lemma {:induction false} EffectsGrow<L, V>(w: World<L>, calls: seq<Call<L, V>>, react: (Call<L, V>, World<L>) -> World<L>)
    requires forall c, w0 :: Grows(w0, react(c, w0))
    ensures Grows(w, Effects(w, calls, react))
    decreases |calls|
  {
    if |calls| > 0 {
      var w' := react(calls[0], w);
      EffectsGrow(w', calls[1..], react);
      GrowsTransitive(w, w', Effects(w', calls[1..], react));
    }
  }

  /** An emit whose listeners act only through the library grows the world:
      no counter goes down, so every handle issued before it is still
      issued after it. */
  lemma {:induction false} EmitGrows<L, V>(w: World<L>, s: Signal, v: V, react: (Call<L, V>, World<L>) -> World<L>)
    requires Owns(w, s) && (forall c, w0 :: Grows(w0, react(c, w0)))
    ensures Grows(w, Emit(w, s, v, react).world)
    ensures forall h :: Issued(w, h) ==> Issued(Emit(w, s, v, react).world, h)
  {
    EffectsGrow(w, Emit(w, s, v, react).calls, react);
  }

  /** Ids are never reused across emits either: a handle issued before an
      emit can never take away a listener connected after it, even when the
      listeners connected or revoked during the emit. */
  lemma {:induction false} StaleHandleNeverAliasesAcrossEmit<L, V>(w: World<L>, s: Signal, v: V,
                                                                   react: (Call<L, V>, World<L>) -> World<L>,
                                                                   stale: Sigcon, s2: Signal, h: L)
    requires Owns(w, s) && (forall c, w0 :: Grows(w0, react(c, w0))) && Issued(w, stale)
    requires Owns(Emit(w, s, v, react).world, s2)
    ensures var (w2, hd) := Connect(Emit(w, s, v, react).world, s2, h);
      hd != stale && hd.id in Revoke(w2, stale).cells[s2.chan].dat.handlers
  {
    var w1 := Emit(w, s, v, react).world;
    EmitGrows(w, s, v, react);
    StaleHandleNeverAliases(w, w1, stale, s2, h);
  }

  /** Once its channel is destroyed, a handle is inert: no signal can emit
      to its listener and revoking through it changes nothing. */
  lemma {:induction false} DeadChannelInert<L>(w: World<L>, s: Signal, h: Sigcon)
    requires s.Owning? && h.Bound? && h.chan == s.chan
    ensures var w1 := DropSignal(w, s);
      && (forall s': Signal :: s'.Owning? && s'.chan == h.chan ==> !Owns(w1, s'))
      && Revoke(w1, h) == w1
  {
  }
}
