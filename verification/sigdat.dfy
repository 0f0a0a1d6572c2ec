/** The state a signal shares with the handles it issued: an id-ordered table
    of listeners and a counter that new ids are drawn from. Listeners are
    opaque tokens of type `L`; what a listener does when called is modelled
    one level up, in `Signals.Emit`. */
module ChannelState {

  /** `nextId` is the counter the next listener's id is drawn from;
      `handlers` is the table from id to listener (iterated in id order). */
  datatype Sigdat<L> = Sigdat(nextId: nat, handlers: map<nat, L>)

  /** One invocation made by a pass over the table: which id, which
      listener, with which argument. */
  datatype Call<L, V> = Call(id: nat, listener: L, arg: V)

  /** A change to the table, used to replay a history of operations. */
  datatype Op<L> = Add(listener: L) | Remove(id: nat)

  /** Every stored id was drawn from the counter before its current value. */
  ghost predicate Valid<L>(d: Sigdat<L>)
  {
    forall id :: id in d.handlers ==> id < d.nextId
  }

  /** `d'` is `d` with exactly one new entry `id` mapping to `h`. */
  ghost predicate Added<L>(d: Sigdat<L>, d': Sigdat<L>, id: nat, h: L)
  {
    && id !in d.handlers
    && d'.handlers.Keys == d.handlers.Keys + {id}
    && d'.handlers[id] == h
    && (forall k :: k in d.handlers ==> d'.handlers[k] == d.handlers[k])
  }

  /** `d'` is `d` without the entry `id` (if there was one); nothing else moved. */
  ghost predicate Removed<L>(d: Sigdat<L>, d': Sigdat<L>, id: nat)
  {
    && d'.nextId == d.nextId
    && d'.handlers.Keys == d.handlers.Keys - {id}
    && (forall k :: k in d'.handlers ==> d'.handlers[k] == d.handlers[k])
  }

  /** `calls` is one pass over `d` with argument `v`: every listener of the
      table exactly once, in strictly ascending id order, each given `v`. */
  ghost predicate Dispatches<L, V>(d: Sigdat<L>, v: V, calls: seq<Call<L, V>>)
  {
    && (forall k :: 0 <= k < |calls| ==>
          calls[k].id in d.handlers && calls[k].listener == d.handlers[calls[k].id] && calls[k].arg == v)
    && (forall id :: id in d.handlers ==> exists k :: 0 <= k < |calls| && calls[k].id == id)
    && (forall j, k :: 0 <= j < k < |calls| ==> calls[j].id < calls[k].id)
  }

  /** A fresh state: no listeners yet, and the counter starts at 0. */
  function Empty<L>(): (d: Sigdat<L>)
    ensures Valid(d)
    ensures |d.handlers| == 0 && d.nextId == 0
  {
    Sigdat(0, map[])
  }

  /** Registers `h` under the current counter, which it returns, and moves
      the counter on by one. The id is not in use, so it differs from every
      id this state ever handed out. */
  function AddHandler<L>(d: Sigdat<L>, h: L): (r: (Sigdat<L>, nat))
    requires Valid(d)
    ensures Valid(r.0)
    ensures r.1 == d.nextId && r.0.nextId == d.nextId + 1
    ensures Added(d, r.0, r.1, h)
  {
    (Sigdat(d.nextId + 1, d.handlers[d.nextId := h]), d.nextId)
  }

  /** Erases the entry `id`; an unknown id leaves the state as it was. */
  function RemoveHandler<L>(d: Sigdat<L>, id: nat): (r: Sigdat<L>)
    ensures Removed(d, r, id)
    ensures id !in d.handlers ==> r == d
    ensures Valid(d) ==> Valid(r)
  {
    Sigdat(d.nextId, d.handlers - {id})
  }

  /** The ids of `m` below `n`, in ascending order. */
  function IdsBelow<L>(m: map<nat, L>, n: nat): (r: seq<nat>)
    ensures forall k :: 0 <= k < |r| ==> r[k] in m && r[k] < n
    ensures forall id :: id in m && id < n ==> id in r
    ensures forall j, k :: 0 <= j < k < |r| ==> r[j] < r[k]
    decreases n
  {
    if n == 0 then []
    else if n - 1 in m then IdsBelow(m, n - 1) + [n - 1]
    else IdsBelow(m, n - 1)
  }

  /** The pass over a snapshot of the table: the listeners present now, in
      ascending id order, each called with `v`. */
  function CallHandlers<L, V>(d: Sigdat<L>, v: V): (calls: seq<Call<L, V>>)
    requires Valid(d)
    ensures Dispatches(d, v, calls)
  {
    var ids := IdsBelow(d.handlers, d.nextId);
    var calls := seq(|ids|, k requires 0 <= k < |ids| => Call(ids[k], d.handlers[ids[k]], v));
    EveryIdCalled(d, v, ids, calls);
    calls
  }

  /** Every id of the table reaches the pass built from `IdsBelow`. */
  lemma {:induction false} EveryIdCalled<L, V>(d: Sigdat<L>, v: V, ids: seq<nat>, calls: seq<Call<L, V>>)
    requires Valid(d)
    requires ids == IdsBelow(d.handlers, d.nextId)
    requires |calls| == |ids| && forall k :: 0 <= k < |ids| ==> calls[k].id == ids[k]
    ensures forall id :: id in d.handlers ==> exists k :: 0 <= k < |calls| && calls[k].id == id
  {
    forall id | id in d.handlers
      ensures exists k :: 0 <= k < |calls| && calls[k].id == id
    {
      assert id in ids;
      var k :| 0 <= k < |ids| && ids[k] == id;
      assert calls[k].id == id;
    }
  }

  /** Replays a history, returning the final state and the ids handed out
      by its `Add` steps, in order. */
  function Replay<L>(d: Sigdat<L>, ops: seq<Op<L>>): (r: (Sigdat<L>, seq<nat>))
    requires Valid(d)
    ensures Valid(r.0)
    decreases |ops|
  {
    if |ops| == 0 then (d, [])
    else
      match ops[0]
      case Add(h) =>
        var (d1, id) := AddHandler(d, h);
        var (d2, ids) := Replay(d1, ops[1..]);
        (d2, [id] + ids)
      case Remove(id) =>
        Replay(RemoveHandler(d, id), ops[1..])
  }

  /** Ids handed out over any history strictly increase, all lie between the
      counter at the start and the counter at the end, and the counter never
      goes down: an id is never handed out twice. */
  lemma {:induction false} IssuedIdsIncrease<L>(d: Sigdat<L>, ops: seq<Op<L>>)
    requires Valid(d)
    ensures var r := Replay(d, ops);
      && d.nextId <= r.0.nextId
      && (forall k :: 0 <= k < |r.1| ==> d.nextId <= r.1[k] < r.0.nextId)
      && (forall j, k :: 0 <= j < k < |r.1| ==> r.1[j] < r.1[k])
    decreases |ops|
  {
    if |ops| > 0 {
      match ops[0]
      case Add(h) =>
        var (d1, id) := AddHandler(d, h);
        IssuedIdsIncrease(d1, ops[1..]);
      case Remove(id) =>
        IssuedIdsIncrease(RemoveHandler(d, id), ops[1..]);
    }
  }

  /** Removing twice is removing once. */
  lemma {:induction false} RemoveIdempotent<L>(d: Sigdat<L>, id: nat)
    ensures RemoveHandler(RemoveHandler(d, id), id) == RemoveHandler(d, id)
  {
  }

  /** If two passes over the same table both dispatch, one of them is
      non-empty only when the other is. */
  lemma {:induction false} DispatchNonEmpty<L, V>(d: Sigdat<L>, v: V, a: seq<Call<L, V>>, b: seq<Call<L, V>>)
    requires Dispatches(d, v, a) && Dispatches(d, v, b)
    ensures |b| > 0 ==> |a| > 0
  {
    if |b| > 0 {
      var id := b[0].id;
      assert id in d.handlers;
      var k :| 0 <= k < |a| && a[k].id == id;
    }
  }

  /** Dropping the first call of a pass leaves a pass over the table
      without that call's id. */
  lemma {:induction false} DispatchTail<L, V>(d: Sigdat<L>, v: V, a: seq<Call<L, V>>)
    requires Dispatches(d, v, a) && |a| > 0
    ensures Dispatches(RemoveHandler(d, a[0].id), v, a[1..])
  {
    var d' := RemoveHandler(d, a[0].id);
    var t := a[1..];
    assert forall k :: 0 <= k < |t| ==> t[k] == a[k + 1];
    forall k | 0 <= k < |t|
      ensures t[k].id in d'.handlers && t[k].listener == d'.handlers[t[k].id] && t[k].arg == v
    {
      assert a[0].id < a[k + 1].id;
    }
    forall id | id in d'.handlers
      ensures exists k :: 0 <= k < |t| && t[k].id == id
    {
      var k :| 0 <= k < |a| && a[k].id == id;
      assert t[k - 1].id == id;
    }
    forall j, k | 0 <= j < k < |t|
      ensures t[j].id < t[k].id
    {
      assert a[j + 1].id < a[k + 1].id;
    }
  }

  /** Two passes over the same non-empty table start with the same call:
      the one for the smallest id. */
  lemma {:induction false} DispatchHeads<L, V>(d: Sigdat<L>, v: V, a: seq<Call<L, V>>, b: seq<Call<L, V>>)
    requires Dispatches(d, v, a) && Dispatches(d, v, b)
    requires |a| > 0 && |b| > 0
    ensures a[0] == b[0]
  {
    assert a[0].id in d.handlers;
    var k :| 0 <= k < |b| && b[k].id == a[0].id;
    assert b[0].id in d.handlers;
    var j :| 0 <= j < |a| && a[j].id == b[0].id;
    assert b[0].id <= b[k].id;
    assert a[0].id <= a[j].id;
  }

  /** A pass is determined by the table and the argument: any two sequences
      of calls that both dispatch `d` with `v` are equal. */
  lemma {:induction false} DispatchUnique<L, V>(d: Sigdat<L>, v: V, a: seq<Call<L, V>>, b: seq<Call<L, V>>)
    requires Dispatches(d, v, a) && Dispatches(d, v, b)
    ensures a == b
    decreases |a|
  {
    DispatchNonEmpty(d, v, a, b);
    DispatchNonEmpty(d, v, b, a);
    if |a| > 0 {
      assert a[0] == b[0] by {
        DispatchHeads(d, v, a, b);
      }
      assert a[1..] == b[1..] by {
        DispatchTail(d, v, a);
        DispatchTail(d, v, b);
        DispatchUnique(RemoveHandler(d, a[0].id), v, a[1..], b[1..]);
      }
      SameHeadSameTail(a, b);
    }
  }

  /** Sequence helper for `DispatchUnique`: two non-empty sequences with the
      same first element and the same rest are equal. */
  lemma {:induction false} SameHeadSameTail<T>(a: seq<T>, b: seq<T>)
    requires |a| > 0 && |b| > 0 && a[0] == b[0] && a[1..] == b[1..]
    ensures a == b
  {
    assert a == [a[0]] + a[1..];
    assert b == [b[0]] + b[1..];
  }

  /** Adding a listener under an id above every stored one extends a pass
      by one call at its end. */
  lemma {:induction false} DispatchAppend<L, V>(d: Sigdat<L>, d': Sigdat<L>, id: nat, h: L, v: V, calls: seq<Call<L, V>>)
    requires Valid(d) && Dispatches(d, v, calls)
    requires Added(d, d', id, h) && d.nextId <= id
    ensures Dispatches(d', v, calls + [Call(id, h, v)])
  {
    var after := calls + [Call(id, h, v)];
    assert forall k :: 0 <= k < |calls| ==> after[k] == calls[k];
    assert after[|calls|] == Call(id, h, v);
    forall k | 0 <= k < |after|
      ensures after[k].id in d'.handlers && after[k].listener == d'.handlers[after[k].id] && after[k].arg == v
    {
      if k < |calls| {
        assert after[k] == calls[k];
      }
    }
    forall x | x in d'.handlers
      ensures exists k :: 0 <= k < |after| && after[k].id == x
    {
      if x == id {
        assert after[|calls|].id == x;
      } else {
        var k :| 0 <= k < |calls| && calls[k].id == x;
        assert after[k].id == x;
      }
    }
    forall j, k | 0 <= j < k < |after|
      ensures after[j].id < after[k].id
    {
      if k == |calls| {
        assert calls[j].id in d.handlers;
      } else {
        assert after[j] == calls[j] && after[k] == calls[k];
      }
    }
  }

  /** Removing an id from the table takes exactly that id's call out of a
      pass and leaves every other call in it. */
  lemma {:induction false} DispatchRemove<L, V>(d: Sigdat<L>, d': Sigdat<L>, x: nat, v: V,
                             before: seq<Call<L, V>>, after: seq<Call<L, V>>)
    requires Dispatches(d, v, before) && Removed(d, d', x) && Dispatches(d', v, after)
    ensures forall c :: c in after <==> c in before && c.id != x
  {
    forall c
      ensures c in after <==> c in before && c.id != x
    {
      if c in after {
        var k :| 0 <= k < |after| && after[k] == c;
        assert c.id in d.handlers;
        var j :| 0 <= j < |before| && before[j].id == c.id;
        assert before[j] == c;
      }
      if c in before && c.id != x {
        var j :| 0 <= j < |before| && before[j] == c;
        assert c.id in d'.handlers;
        var k :| 0 <= k < |after| && after[k].id == c.id;
        assert after[k] == c;
      }
    }
  }
}
