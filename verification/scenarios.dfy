/** Whole-program scenarios over the signal model: the behaviours the
    signal test suite checks and the re-entrant revocation case, each
    stated for all listeners and values. */
module SignalScenarios {
  import opened ChannelState
  import opened Signals

  /** A listener that does nothing to the world when called. */
  function Quiet<L, V>(): (Call<L, V>, World<L>) -> World<L>
  {
    (c: Call<L, V>, w: World<L>) => w
  }

  /** Quiet listeners leave the world as it was. */
  lemma {:induction false} QuietEffects<L, V>(w: World<L>, calls: seq<Call<L, V>>)
    ensures Effects(w, calls, Quiet()) == w
    decreases |calls|
  {
    if |calls| > 0 {
      QuietEffects(w, calls[1..]);
    }
  }

  /** Connects `ls` to `s` one after another and returns the handles, in
      connection order. */
  function ConnectAll<L>(w: World<L>, s: Signal, ls: seq<L>): (r: (World<L>, seq<Sigcon>))
    requires Owns(w, s)
    ensures Owns(r.0, s) && Grows(w, r.0) && SameElsewhere(w, r.0, s.chan) && |r.1| == |ls|
    ensures r.0.cells[s.chan].dat.nextId == w.cells[s.chan].dat.nextId + |ls|
    ensures forall k :: 0 <= k < |ls| ==> r.1[k] == Bound(s.chan, w.cells[s.chan].dat.nextId + k)
    decreases |ls|
  {
    if |ls| == 0 then (w, [])
    else
      var first := Connect(w, s, ls[0]);
      var rest := ConnectAll(first.0, s, ls[1..]);
      (rest.0, [first.1] + rest.1)
  }

  /** The calls made to listeners `ls` under handles `hs`, in order. */
  function CallsOf<L, V>(hs: seq<Sigcon>, ls: seq<L>, v: V): (r: seq<Call<L, V>>)
    requires |hs| == |ls| && forall k :: 0 <= k < |hs| ==> hs[k].Bound?
    ensures |r| == |ls|
    ensures forall k :: 0 <= k < |ls| ==> r[k] == Call(hs[k].id, ls[k], v)
  {
    seq(|ls|, k requires 0 <= k < |ls| => Call(hs[k].id, ls[k], v))
  }

  /** One more handle and listener in front add one call in front. */
  lemma {:induction false} CallsOfCons<L, V>(h: Sigcon, l: L, hs: seq<Sigcon>, ls: seq<L>, v: V)
    requires |hs| == |ls| && (forall k :: 0 <= k < |hs| ==> hs[k].Bound?) && h.Bound?
    ensures CallsOf([h] + hs, [l] + ls, v) == [Call(h.id, l, v)] + CallsOf(hs, ls, v)
  {
    var a := CallsOf([h] + hs, [l] + ls, v);
    var b := [Call(h.id, l, v)] + CallsOf(hs, ls, v);
    assert |a| == |b|;
    forall k | 0 <= k < |a|
      ensures a[k] == b[k]
    {
      if k > 0 {
        assert ([h] + hs)[k] == hs[k - 1] && ([l] + ls)[k] == ls[k - 1];
      }
    }
  }

  /** Sequence helper: concatenation is associative. `ConnectAllDispatches`
      needs it to regroup the calls of the earlier listeners. */
  lemma {:induction false} ConcatAssoc<T>(a: seq<T>, b: seq<T>, c: seq<T>)
    ensures (a + b) + c == a + (b + c)
  {
  }

  /** Connecting several listeners extends any pass over the channel by
      one call per listener, in connection order. */
  lemma {:induction false} ConnectAllDispatches<L, V>(w: World<L>, s: Signal, ls: seq<L>, v: V,
                                                      before: seq<Call<L, V>>)
    requires Owns(w, s) && Dispatches(w.cells[s.chan].dat, v, before)
    ensures Dispatches(ConnectAll(w, s, ls).0.cells[s.chan].dat, v,
                       before + CallsOf(ConnectAll(w, s, ls).1, ls, v))
    decreases |ls|
  {
    if |ls| > 0 {
      var first := Connect(w, s, ls[0]);
      var rest := ConnectAll(first.0, s, ls[1..]);
      var call := Call(first.1.id, ls[0], v);
      assert ConnectAll(w, s, ls) == (rest.0, [first.1] + rest.1);
      DispatchAppend(w.cells[s.chan].dat, first.0.cells[s.chan].dat, first.1.id, ls[0], v, before);
      ConnectAllDispatches(first.0, s, ls[1..], v, before + [call]);
      assert ls == [ls[0]] + ls[1..];
      CallsOfCons(first.1, ls[0], rest.1, ls[1..], v);
      ConcatAssoc(before, [call], CallsOf(rest.1, ls[1..], v));
    } else {
      assert before + CallsOf(ConnectAll(w, s, ls).1, ls, v) == before;
    }
  }

  /** Connecting several listeners and emitting calls each of them once, in
      connection order, after the listeners that were there before. */
  lemma {:induction false} ConnectAllThenEmit<L, V>(w: World<L>, s: Signal, ls: seq<L>, v: V,
                                 react: (Call<L, V>, World<L>) -> World<L>)
    requires Owns(w, s)
    ensures Emit(ConnectAll(w, s, ls).0, s, v, react).calls ==
      Emit(w, s, v, react).calls + CallsOf(ConnectAll(w, s, ls).1, ls, v)
  {
    var r := ConnectAll(w, s, ls);
    var before := Emit(w, s, v, react).calls;
    ConnectAllDispatches(w, s, ls, v, before);
    DispatchUnique(r.0.cells[s.chan].dat, v, Emit(r.0, s, v, react).calls, before + CallsOf(r.1, ls, v));
  }

  /** Emitting on a fresh signal calls nothing. */
  lemma {:induction false} EmitNoConnection<L, V>(w: World<L>, v: V)
    ensures var (w1, s) := NewSignal(w); Emit(w1, s, v, Quiet()).calls == []
  {
    var (w1, s) := NewSignal(w);
    EmitWithoutListeners(w1, s, v, Quiet());
  }

  /** One listener, two emits: each emit calls it once, with that emit's value. */
  lemma {:induction false} EmitTwice<L, V>(w: World<L>, h: L, v1: V, v2: V)
    ensures var (w1, s) := NewSignal(w);
      var (w2, hd) := Connect(w1, s, h);
      var first := Emit(w2, s, v1, Quiet());
      && first.calls == [Call(hd.id, h, v1)]
      && first.world == w2
      && Emit(first.world, s, v2, Quiet()).calls == [Call(hd.id, h, v2)]
  {
    var (w1, s) := NewSignal(w);
    EmitWithoutListeners(w1, s, v1, Quiet());
    EmitWithoutListeners(w1, s, v2, Quiet());
    ConnectThenEmit(w1, s, h, v1, Quiet());
    ConnectThenEmit(w1, s, h, v2, Quiet());
    var (w2, hd) := Connect(w1, s, h);
    QuietEffects(w2, Emit(w2, s, v1, Quiet()).calls);
  }

  /** Reset (or destruction) of the only handle: the emit before reached the
      listener, the emit after calls nothing. */
  lemma {:induction false} EmitReset<L, V>(w: World<L>, h: L, v1: V, v2: V)
    ensures var (w1, s) := NewSignal(w);
      var (w2, hd) := Connect(w1, s, h);
      var (w3, hd3) := Reset(w2, hd);
      && Emit(w2, s, v1, Quiet()).calls == [Call(hd.id, h, v1)]
      && hd3 == Unbound
      && Owns(w3, s)
      && Emit(w3, s, v2, Quiet()).calls == []
  {
    var (w1, s) := NewSignal(w);
    EmitWithoutListeners(w1, s, v1, Quiet());
    ConnectThenEmit(w1, s, h, v1, Quiet());
    var (w2, hd) := Connect(w1, s, h);
    var w3 := Revoke(w2, hd);
    assert w3.cells[s.chan].dat.handlers == map[];
    EmitWithoutListeners(w3, s, v2, Quiet());
  }

  /** A subscription moved into a default handle keeps delivering after the
      moved-from handle is destroyed. */
  lemma {:induction false} EmitMoved<L, V>(w: World<L>, h: L, v: V)
    ensures var (w1, s) := NewSignal(w);
      var (w2, other) := Connect(w1, s, h);
      var (w3, sigcon, other3) := AssignHandle(w2, Unbound, other);
      var w4 := Revoke(w3, other3);
      && sigcon == other && w4 == w2
      && Emit(w4, s, v, Quiet()).calls == [Call(sigcon.id, h, v)]
  {
    var (w1, s) := NewSignal(w);
    EmitWithoutListeners(w1, s, v, Quiet());
    ConnectThenEmit(w1, s, h, v, Quiet());
  }

  /** Moving a connected signal into another one: the target's own channel
      dies, the listener connected through the source is still called
      through the target, and the source holds nothing. */
  lemma {:induction false} MoveConnected<L, V>(w: World<L>, h: L, v: V)
    ensures var (w1, signal) := NewSignal(w);
      var (w2, other) := NewSignal(w1);
      var (w3, hd) := Connect(w2, other, h);
      var (w4, signal4, other4) := AssignSignal(w3, signal, other);
      && !Live(w4, signal.chan)
      && other4 == Moved && DropSignal(w4, other4) == w4
      && Owns(w4, signal4)
      && Emit(w4, signal4, v, Quiet()).calls == [Call(hd.id, h, v)]
  {
    var (w1, signal) := NewSignal(w);
    var (w2, other) := NewSignal(w1);
    EmitWithoutListeners(w2, other, v, Quiet());
    ConnectThenEmit(w2, other, h, v, Quiet());
    var (w3, hd) := Connect(w2, other, h);
    var (w4, signal4, other4) := AssignSignal(w3, signal, other);
    assert w4.cells[other.chan] == w3.cells[other.chan];
  }

  /** A handle that outlives its signal: once the signal is destroyed no
      signal can reach the listener, and destroying the handle afterwards
      changes nothing. */
  lemma {:induction false} ConnectDropped<L>(w: World<L>, h: L)
    ensures var (w1, s) := NewSignal(w);
      var sigcon := Unbound;
      var (w3, hd) := Connect(w1, s, h);
      var (w4, sigcon4, _) := AssignHandle(w3, sigcon, hd);
      var w5 := DropSignal(w4, s);
      && sigcon4 == hd
      && (forall s': Signal :: s'.Owning? && s'.chan == s.chan ==> !Owns(w5, s'))
      && Revoke(w5, sigcon4) == w5
  {
  }

  /** The index after `i` among `n`, wrapping around to the first. */
  function Next(i: nat, n: nat): (r: nat)
    requires n > 0
    ensures r < n
  {
    if i + 1 < n then i + 1 else 0
  }

  /** The listener effect of the re-entrant scenario: the listener with
      token `i` resets the handle of listener `i + 1` (wrapping around). */
  function RevokeNextStep<V>(hs: seq<Sigcon>, c: Call<nat, V>, w: World<nat>): World<nat>
  {
    if |hs| > 0 then Revoke(w, hs[Next(c.listener, |hs|)]) else w
  }

  /** `RevokeNextStep` as the reaction an emit runs. */
  function RevokeNext<V>(hs: seq<Sigcon>): (Call<nat, V>, World<nat>) -> World<nat>
  {
    (c: Call<nat, V>, w: World<nat>) => RevokeNextStep(hs, c, w)
  }

  /** The ids of the handles that `RevokeNext` resets over `calls`. */
  function Revoked<V>(hs: seq<Sigcon>, calls: seq<Call<nat, V>>): set<nat>
    requires |hs| > 0 && forall k :: 0 <= k < |hs| ==> hs[k].Bound?
    decreases |calls|
  {
    if |calls| == 0 then {}
    else {hs[Next(calls[0].listener, |hs|)].id} + Revoked(hs, calls[1..])
  }

  /** Each call's target is among the revoked ids. */
  lemma {:induction false} RevokedHas<V>(hs: seq<Sigcon>, calls: seq<Call<nat, V>>, k: nat)
    requires |hs| > 0 && forall j :: 0 <= j < |hs| ==> hs[j].Bound?
    requires k < |calls|
    ensures hs[Next(calls[k].listener, |hs|)].id in Revoked(hs, calls)
    decreases k
  {
    if k > 0 {
      RevokedHas(hs, calls[1..], k - 1);
      assert calls[1..][k - 1] == calls[k];
    }
  }

  /** Running `RevokeNext` over a sequence of calls removes exactly the ids
      of the handles those calls revoke. */
  lemma {:induction false} EffectsOfRevokeNext<V>(w: World<nat>, s: Signal, hs: seq<Sigcon>, calls: seq<Call<nat, V>>)
    requires Owns(w, s) && |hs| > 0
    requires forall k :: 0 <= k < |hs| ==> hs[k].Bound? && hs[k].chan == s.chan
    ensures Owns(Effects(w, calls, RevokeNext(hs)), s)
    ensures Effects(w, calls, RevokeNext(hs)).cells[s.chan].dat.handlers.Keys ==
      w.cells[s.chan].dat.handlers.Keys - Revoked(hs, calls)
    decreases |calls|
  {
    if |calls| > 0 {
      var w' := RevokeNextStep(hs, calls[0], w);
      assert Effects(w, calls, RevokeNext(hs)) == Effects(w', calls[1..], RevokeNext(hs));
      EffectsOfRevokeNext(w', s, hs, calls[1..]);
    }
  }

  /** On a channel with no listeners whose counter is still 0, connecting
      `ls` hands out the ids 0, 1, 2, ... in connection order, and one emit
      then calls each listener once, in that order, with the emitted value. */
  lemma {:induction false} FreshEmit<L, V>(w1: World<L>, s: Signal, ls: seq<L>, v: V,
                                           react: (Call<L, V>, World<L>) -> World<L>)
    requires Owns(w1, s) && w1.cells[s.chan].dat.nextId == 0 && |w1.cells[s.chan].dat.handlers| == 0
    ensures var (w2, hs) := ConnectAll(w1, s, ls);
      && (forall k :: 0 <= k < |ls| ==> hs[k] == Bound(s.chan, k))
      && Emit(w2, s, v, react).calls == seq(|ls|, k requires 0 <= k < |ls| => Call(k, ls[k], v))
  {
    var (w2, hs) := ConnectAll(w1, s, ls);
    assert Emit(w2, s, v, react).calls == [] + CallsOf(hs, ls, v) by {
      EmitWithoutListeners(w1, s, v, react);
      ConnectAllThenEmit(w1, s, ls, v, react);
    }
    FreshCalls(hs, ls, v);
  }

  /** Many listeners on a fresh signal, two emits: each emit calls every
      listener once, in connection order, with that emit's value. */
  lemma {:induction false} EmitMultiple<L, V>(w: World<L>, ls: seq<L>, v1: V, v2: V)
    ensures var (w1, s) := NewSignal(w);
      var (w2, hs) := ConnectAll(w1, s, ls);
      var first := Emit(w2, s, v1, Quiet());
      && first.calls == seq(|ls|, k requires 0 <= k < |ls| => Call(k, ls[k], v1))
      && first.world == w2
      && Emit(first.world, s, v2, Quiet()).calls == seq(|ls|, k requires 0 <= k < |ls| => Call(k, ls[k], v2))
  {
    var (w1, s) := NewSignal(w);
    var (w2, hs) := ConnectAll(w1, s, ls);
    FreshEmit(w1, s, ls, v1, Quiet());
    FreshEmit(w1, s, ls, v2, Quiet());
    QuietEffects(w2, Emit(w2, s, v1, Quiet()).calls);
  }

  /** With ids 0, 1, 2, ... the calls name each listener under its index. */
  lemma {:induction false} FreshCalls<L, V>(hs: seq<Sigcon>, ls: seq<L>, v: V)
    requires |hs| == |ls| && forall k :: 0 <= k < |hs| ==> hs[k].Bound? && hs[k].id == k
    ensures [] + CallsOf(hs, ls, v) == seq(|ls|, k requires 0 <= k < |ls| => Call(k, ls[k], v))
  {
  }

  /** When every stored id is revoked, nothing is left. */
  lemma {:induction false} NothingLeft<L>(before: map<nat, L>, after: map<nat, L>, revoked: set<nat>)
    requires after.Keys == before.Keys - revoked && before.Keys <= revoked
    ensures |after| == 0
  {
    assert after.Keys == {};
  }

  /** In the re-entrant scenario each id below `n` is the target of the
      listener just below it (the last one's, for id 0). */
  lemma {:induction false} IdRevoked<V>(hs: seq<Sigcon>, calls: seq<Call<nat, V>>, n: nat, id: nat)
    requires n > 0 && |hs| == n && forall k :: 0 <= k < n ==> hs[k].Bound? && hs[k].id == k
    requires |calls| == n && forall k :: 0 <= k < n ==> calls[k].listener == k
    requires id < n
    ensures id in Revoked(hs, calls)
  {
    var k: nat := if id == 0 then n - 1 else id - 1;
    assert Next(calls[k].listener, n) == id;
    RevokedHas(hs, calls, k);
  }

  /** Hence every stored id is revoked when all of them lie below `n`. */
  lemma {:induction false} EveryIdRevoked<V>(keys: set<nat>, hs: seq<Sigcon>, calls: seq<Call<nat, V>>, n: nat)
    requires n > 0 && |hs| == n && forall k :: 0 <= k < n ==> hs[k].Bound? && hs[k].id == k
    requires |calls| == n && forall k :: 0 <= k < n ==> calls[k].listener == k
    requires forall id :: id in keys ==> id < n
    ensures keys <= Revoked(hs, calls)
  {
    forall id | id in keys
      ensures id in Revoked(hs, calls)
    {
      IdRevoked(hs, calls, n, id);
    }
  }

  /** The first pass of the re-entrant scenario: listeners `0 .. n-1` under
      ids `0 .. n-1`, each called once with the emitted value. */
  lemma {:induction false} ReentrantFirstPass<V>(w: World<nat>, n: nat, v: V)
    ensures var (w1, s) := NewSignal(w);
      var (w2, hs) := ConnectAll(w1, s, seq(n, k => k));
      && (forall k :: 0 <= k < n ==> hs[k].Bound? && hs[k].chan == s.chan && hs[k].id == k)
      && Emit(w2, s, v, RevokeNext(hs)).calls == seq(n, k requires 0 <= k < n => Call(k, k, v))
  {
    var (w1, s) := NewSignal(w);
    var ls: seq<nat> := seq(n, k => k);
    var (w2, hs) := ConnectAll(w1, s, ls);
    FreshEmit(w1, s, ls, v, RevokeNext(hs));
    IdentityCalls(ls, n, v);
  }

  /** With listener tokens `0 .. n-1`, the call under index `k` names
      listener `k`. */
  lemma {:induction false} IdentityCalls<V>(ls: seq<nat>, n: nat, v: V)
    requires ls == seq(n, k => k)
    ensures seq(|ls|, k requires 0 <= k < |ls| => Call(k, ls[k], v)) == seq(n, k requires 0 <= k < n => Call(k, k, v))
  {
  }

  /** The second pass of the re-entrant scenario: after a pass in which the
      listener just below each id reset that id's handle, no listener is
      left to call. */
  lemma {:induction false} ReentrantSecondPass<V>(w: World<nat>, s: Signal, hs: seq<Sigcon>, n: nat, v: V)
    requires Owns(w, s) && n > 0 && |hs| == n
    requires forall k :: 0 <= k < n ==> hs[k].Bound? && hs[k].chan == s.chan && hs[k].id == k
    requires w.cells[s.chan].dat.nextId == n
    requires Emit(w, s, v, RevokeNext(hs)).calls == seq(n, k requires 0 <= k < n => Call(k, k, v))
    ensures var first := Emit(w, s, v, RevokeNext(hs));
      && Owns(first.world, s)
      && Emit(first.world, s, v, RevokeNext(hs)).calls == []
  {
    var first := Emit(w, s, v, RevokeNext(hs));
    EffectsOfRevokeNext(w, s, hs, first.calls);
    EveryIdRevoked(w.cells[s.chan].dat.handlers.Keys, hs, first.calls, n);
    NothingLeft(w.cells[s.chan].dat.handlers, first.world.cells[s.chan].dat.handlers, Revoked(hs, first.calls));
    EmitWithoutListeners(first.world, s, v, RevokeNext(hs));
  }

  /** Re-entrant revocation: `n` listeners where listener `i`, when called,
      resets the handle of listener `i + 1 mod n`. The first emit calls every
      listener exactly once (the snapshot precedes the revocations); after
      it no listener is left, so the second emit calls none. */
  lemma {:induction false} ReentrantRevocation<V>(w: World<nat>, n: nat, v: V)
    requires n > 0
    ensures var (w1, s) := NewSignal(w);
      var (w2, hs) := ConnectAll(w1, s, seq(n, k => k));
      var first := Emit(w2, s, v, RevokeNext(hs));
      && first.calls == seq(n, k requires 0 <= k < n => Call(k, k, v))
      && Owns(first.world, s)
      && Emit(first.world, s, v, RevokeNext(hs)).calls == []
  {
    var (w1, s) := NewSignal(w);
    var (w2, hs) := ConnectAll(w1, s, seq(n, k => k));
    ReentrantFirstPass(w, n, v);
    ReentrantSecondPass(w2, s, hs, n, v);
  }
}
