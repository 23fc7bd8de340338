/**
 * Single-assignment state slots and the relocatable promise/future pair
 * (future.h).
 *
 * A `State` is a slot holding a ready flag, a value and an optional callback.
 * Promises and futures are handles kept in an arena (`Engine.handles`); each
 * holds an optional partner handle and a local `State`. A promise's state is
 * always its own local state; a future reads its promise's state while the
 * two are linked and its own local state otherwise. Moves and destructors
 * repair the partner link and carry the state along. Callback bodies are
 * opaque: every invocation is recorded in `Engine.delivered`, and the
 * main thread's queue of immediate tasks is the explicit list `Engine.mainQueue`.
 */
module Futures {
  import opened Wrappers

  type HandleId = nat

  /** The value held by a state: the fields of `std::tuple<T...>`. */
  type Tuple = seq<int>

  /** An opaque callback stored in a state. `ThenHandler` is the callback
      `then` installs (the user's continuation `body`, owning the promise of
      the future `then` returned); `Relay` is the callback it installs on a
      still pending result, which posts the completion of `promise` to the
      main thread. */
  datatype Callback = User(id: nat) | ThenHandler(body: nat, promise: HandleId) | Relay(promise: HandleId)

  datatype State = State(ready: bool, value: Tuple, onSetValue: Option<Callback>)

  /** A default-constructed state: not ready, default value, no callback. */
  const EmptyState := State(false, [], None)

  /** One invocation of a callback with a value. */
  datatype Delivery = Delivery(callback: Callback, value: Tuple)

  /** The new state and the callback invocations a state operation made. */
  datatype Outcome = Outcome(state: State, delivered: seq<Delivery>)

  // ---------------------------------------------------------------------
  // State::set and State::set_callback
  // ---------------------------------------------------------------------

  /** `State::set`: the state becomes ready; a registered callback receives
      the value instead of the state storing it. */
  function Set(s: State, v: Tuple): (o: Outcome)
    ensures o.state.ready && o.state.onSetValue == s.onSetValue
    ensures s.onSetValue.Some? <==> o.delivered != []
    ensures s.onSetValue.Some? ==> o.delivered == [Delivery(s.onSetValue.value, v)] && o.state.value == s.value
    ensures s.onSetValue.None? ==> o.state.value == v
  {
    if s.onSetValue.Some? then Outcome(s.(ready := true), [Delivery(s.onSetValue.value, v)])
    else Outcome(s.(ready := true, value := v), [])
  }

  /** `State::set_callback`: on a ready state the callback is invoked at once
      with the stored value and not stored; otherwise it is stored and not invoked. */
  function SetCallback(s: State, f: Callback): (o: Outcome)
    ensures s.ready <==> o.delivered != []
    ensures s.ready ==> o.delivered == [Delivery(f, s.value)] && o.state == s
    ensures !s.ready ==> o.state == s.(onSetValue := Some(f))
  {
    if s.ready then Outcome(s, [Delivery(f, s.value)])
    else Outcome(s.(onSetValue := Some(f)), [])
  }

  /** One `set` and one `set_callback` on a fresh state, in either order,
      hand the value to the callback exactly once, and leave the state ready. */
  lemma SingleFire(s: State, v: Tuple, f: Callback)
    requires !s.ready && s.onSetValue.None?
    ensures var a := Set(s, v); var b := SetCallback(a.state, f);
      a.delivered + b.delivered == [Delivery(f, v)] && b.state.ready
    ensures var a := SetCallback(s, f); var b := Set(a.state, v);
      a.delivered + b.delivered == [Delivery(f, v)] && b.state.ready
  {
  }

  /** A moved-from state keeps its flag and value; the callback moved away. */
  function MovedFrom(s: State): (r: State)
    ensures r.ready == s.ready && r.value == s.value && r.onSetValue.None?
  {
    s.(onSetValue := None)
  }

  // ---------------------------------------------------------------------
  // Handles and the link invariant
  // ---------------------------------------------------------------------

  /** A promise (with its future, if any) or a future (with its promise, if any). */
  datatype Handle =
    | PromiseHandle(future: Option<HandleId>, local: State)
    | FutureHandle(promise: Option<HandleId>, local: State)

  type Handles = map<HandleId, Handle>

  ghost predicate IsPromise(hs: Handles, p: HandleId) {
    p in hs && hs[p].PromiseHandle?
  }

  ghost predicate IsFuture(hs: Handles, f: HandleId) {
    f in hs && hs[f].FutureHandle?
  }

  /** Promise `p` and future `f` point at each other. */
  ghost predicate Partnered(hs: Handles, p: HandleId, f: HandleId) {
    && IsPromise(hs, p) && IsFuture(hs, f)
    && hs[p].future == Some(f) && hs[f].promise == Some(p)
  }

  /** Every back-pointer names a live handle of the other kind that points back. */
  ghost predicate LinksOk(hs: Handles) {
    && (forall p :: p in hs && hs[p].PromiseHandle? && hs[p].future.Some? ==> Partnered(hs, p, hs[p].future.value))
    && (forall f :: f in hs && hs[f].FutureHandle? && hs[f].promise.Some? ==> Partnered(hs, hs[f].promise.value, f))
  }

  /** Under the link invariant, `p._future == f` exactly when `f._promise == p`. */
  lemma LinkSymmetric(hs: Handles, p: HandleId, f: HandleId)
    requires LinksOk(hs) && IsPromise(hs, p) && IsFuture(hs, f)
    ensures hs[p].future == Some(f) <==> hs[f].promise == Some(p)
  {
  }

  /** `Future::deferred`: the future still has a promise. */
  function Deferred(hs: Handles, f: HandleId): (b: bool)
    requires f in hs
    ensures b ==> hs[f].FutureHandle? && hs[f].promise.Some?
    ensures b && LinksOk(hs) ==> Partnered(hs, hs[f].promise.value, f)
  {
    hs[f].FutureHandle? && hs[f].promise.Some?
  }

  /** The handle whose local state `h` reads: a linked future reads its
      promise's, every other handle its own. */
  function Slot(hs: Handles, h: HandleId): (s: HandleId)
    requires LinksOk(hs) && h in hs
    ensures s in hs
    ensures hs[h].PromiseHandle? || !Deferred(hs, h) ==> s == h
    ensures hs[h].FutureHandle? && Deferred(hs, h) ==> Partnered(hs, s, h)
  {
    if hs[h].FutureHandle? && hs[h].promise.Some? then hs[h].promise.value else h
  }

  /** `Future::state()` (and, for a promise, `*_state`). */
  function StateIn(hs: Handles, h: HandleId): (s: State)
    requires LinksOk(hs) && h in hs
    ensures !Deferred(hs, h) ==> s == hs[h].local
    ensures Deferred(hs, h) ==> s == hs[hs[h].promise.value].local
  {
    hs[Slot(hs, h)].local
  }

  /** Every future in `hs` outside `except` is still there, with the same
      observed state and the same deferredness, in `hs'`. */
  ghost predicate FuturesKept(hs: Handles, hs': Handles, except: set<HandleId>)
    requires LinksOk(hs) && LinksOk(hs')
  {
    forall g :: g in hs && hs[g].FutureHandle? && g !in except ==>
      && g in hs' && hs'[g].FutureHandle?
      && StateIn(hs', g) == StateIn(hs, g)
      && Deferred(hs', g) == Deferred(hs, g)
  }

  /** Every promise of `hs` outside `except` is unchanged in `hs'`. */
  ghost predicate PromisesKept(hs: Handles, hs': Handles, except: set<HandleId>) {
    forall q :: q in hs && hs[q].PromiseHandle? && q !in except ==> q in hs' && hs'[q] == hs[q]
  }

  /** Every promise of `hs` is still a promise in `hs'` with the same local state. */
  ghost predicate PromiseStatesKept(hs: Handles, hs': Handles) {
    forall q :: q in hs && hs[q].PromiseHandle? ==> q in hs' && hs'[q].PromiseHandle? && hs'[q].local == hs[q].local
  }

  // ---------------------------------------------------------------------
  // Moves and destructors, on the arena
  // ---------------------------------------------------------------------

  /** `Promise::get_future`: a new future `f` linked to `p`, with a default local state. */
  function GetFutureIn(hs: Handles, p: HandleId, f: HandleId): Handles
    requires IsPromise(hs, p) && f !in hs
  {
    hs[p := hs[p].(future := Some(f))][f := FutureHandle(Some(p), EmptyState)]
  }

  lemma GetFutureSpec(hs: Handles, p: HandleId, f: HandleId)
    requires LinksOk(hs) && IsPromise(hs, p) && hs[p].future.None? && f !in hs
    ensures var hs' := GetFutureIn(hs, p, f);
      && LinksOk(hs') && hs'.Keys == hs.Keys + {f}
      && Partnered(hs', p, f) && Deferred(hs', f)
      && StateIn(hs', f) == hs[p].local
      && FuturesKept(hs, hs', {}) && PromiseStatesKept(hs, hs')
  {
  }

  /** No handle points at `h`: it is fresh, or an unlinked handle of kind
      `promise` (a promise when true, a future when false). */
  ghost predicate Unpointed(hs: Handles, h: HandleId, promise: bool) {
    h !in hs || (promise && hs[h].PromiseHandle? && hs[h].future.None?)
             || (!promise && hs[h].FutureHandle? && hs[h].promise.None?)
  }

  /** `Promise::construct_move`: promise `dst` takes over `src`'s future link
      and state, the future is re-pointed to `dst`, and `src` is left
      unlinked with its callback moved away. */
  function TransferPromise(hs: Handles, src: HandleId, dst: HandleId): Handles
    requires LinksOk(hs) && IsPromise(hs, src) && dst != src
  {
    var h := hs[src];
    var hs1 := hs[dst := h][src := PromiseHandle(None, MovedFrom(h.local))];
    if h.future.Some? then hs1[h.future.value := hs[h.future.value].(promise := Some(dst))] else hs1
  }

  lemma TransferPromiseSpec(hs: Handles, src: HandleId, dst: HandleId)
    requires LinksOk(hs) && IsPromise(hs, src) && dst != src && Unpointed(hs, dst, true)
    ensures var hs' := TransferPromise(hs, src, dst);
      && LinksOk(hs') && hs'.Keys == hs.Keys + {dst}
      && hs'[dst] == hs[src]
      && hs'[src] == PromiseHandle(None, MovedFrom(hs[src].local))
      && (hs[src].future.Some? ==> Partnered(hs', dst, hs[src].future.value))
      && FuturesKept(hs, hs', {})
      && PromisesKept(hs, hs', {src, dst})
  {
  }

  /** `Promise::destroy`: a linked future receives the promise's state (flag,
      value and callback) in its local state and loses its promise; the
      promise keeps a moved-from state. The promise's own link is cleared
      too: every caller drops or overwrites it. */
  function ReleasePromise(hs: Handles, p: HandleId): Handles
    requires LinksOk(hs) && IsPromise(hs, p)
  {
    var h := hs[p];
    if h.future.Some? then hs[h.future.value := FutureHandle(None, h.local)][p := PromiseHandle(None, MovedFrom(h.local))] else hs
  }

  /** Relocation: every future observes the same state before and after, and
      the promise's former future is no longer deferred. */
  lemma ReleasePromiseSpec(hs: Handles, p: HandleId)
    requires LinksOk(hs) && IsPromise(hs, p)
    ensures var hs' := ReleasePromise(hs, p);
      && LinksOk(hs') && hs'.Keys == hs.Keys
      && IsPromise(hs', p) && hs'[p].future.None?
      && hs'[p].local == (if hs[p].future.Some? then MovedFrom(hs[p].local) else hs[p].local)
      && FuturesKept(hs, hs', if hs[p].future.Some? then {hs[p].future.value} else {})
      && PromisesKept(hs, hs', {p})
      && (hs[p].future.Some? ==>
            var f := hs[p].future.value;
            && IsFuture(hs', f) && !Deferred(hs', f)
            && StateIn(hs', f) == StateIn(hs, f) == hs[p].local)
  {
  }

  /** `Promise(Promise&&)` into the fresh handle `dst`. */
  function MovePromiseIn(hs: Handles, src: HandleId, dst: HandleId): Handles
    requires LinksOk(hs) && IsPromise(hs, src) && dst !in hs
  {
    TransferPromise(hs, src, dst)
  }

  /** `~Promise()`. */
  function DestroyPromiseIn(hs: Handles, p: HandleId): Handles
    requires LinksOk(hs) && IsPromise(hs, p)
  {
    ReleasePromise(hs, p) - {p}
  }

  lemma {:induction false} DestroyPromiseSpec(hs: Handles, p: HandleId)
    requires LinksOk(hs) && IsPromise(hs, p)
    ensures var hs' := DestroyPromiseIn(hs, p);
      && LinksOk(hs') && hs'.Keys == hs.Keys - {p}
      && FuturesKept(hs, hs', if hs[p].future.Some? then {hs[p].future.value} else {})
      && PromisesKept(hs, hs', {p})
      && (hs[p].future.Some? ==>
            var f := hs[p].future.value;
            && IsFuture(hs', f) && !Deferred(hs', f)
            && StateIn(hs', f) == StateIn(hs, f) == hs[p].local)
  {
    ReleasePromiseSpec(hs, p);
    var hs1 := ReleasePromise(hs, p);
    assert forall h :: h in hs1 && h != p ==> h in hs1 - {p} && (hs1 - {p})[h] == hs1[h];
  }

  /** `Promise::operator=(Promise&&)`: unless both are the same, `dst` first
      hands its state to its own future, as its destructor would, and then
      takes over `src`'s future and state. */
  function AssignPromiseIn(hs: Handles, dst: HandleId, src: HandleId): Handles
    requires LinksOk(hs) && IsPromise(hs, dst) && IsPromise(hs, src)
  {
    if dst == src then hs
    else
      ReleasePromiseSpec(hs, dst);
      TransferPromise(ReleasePromise(hs, dst), src, dst)
  }

  lemma {:induction false} AssignPromiseSpec(hs: Handles, dst: HandleId, src: HandleId)
    requires LinksOk(hs) && IsPromise(hs, dst) && IsPromise(hs, src)
    ensures var hs' := AssignPromiseIn(hs, dst, src);
      && LinksOk(hs') && hs'.Keys == hs.Keys
      && (dst == src ==> hs' == hs)
      && (dst != src ==>
            && hs'[dst] == hs[src]
            && hs'[src] == PromiseHandle(None, MovedFrom(hs[src].local))
            && (hs[src].future.Some? ==> Partnered(hs', dst, hs[src].future.value))
            && (hs[dst].future.Some? ==>
                  var f := hs[dst].future.value;
                  IsFuture(hs', f) && !Deferred(hs', f) && StateIn(hs', f) == StateIn(hs, f))
            && FuturesKept(hs, hs', if hs[dst].future.Some? then {hs[dst].future.value} else {})
            && PromisesKept(hs, hs', {dst, src}))
  {
    if dst != src {
      ReleasePromiseSpec(hs, dst);
      var hs1 := ReleasePromise(hs, dst);
      assert hs1[src] == hs[src];
      TransferPromiseSpec(hs1, src, dst);
    }
  }

  /** `Future::construct_move`: `dst` takes over `src`'s promise and keeps its
      own local state, or, when `src` is unlinked, receives `src`'s local
      state. `src` is left unlinked. A fresh `dst` starts from a default state. */
  function TransferFuture(hs: Handles, src: HandleId, dst: HandleId): Handles
    requires LinksOk(hs) && IsFuture(hs, src) && dst != src
  {
    var h := hs[src];
    var keep := if dst in hs then hs[dst].local else EmptyState;
    if h.promise.Some? then
      var p := h.promise.value;
      hs[dst := FutureHandle(Some(p), keep)][src := FutureHandle(None, h.local)][p := hs[p].(future := Some(dst))]
    else
      hs[dst := FutureHandle(None, h.local)][src := FutureHandle(None, MovedFrom(h.local))]
  }

  /** The promise of future `f`, as a set. */
  function PromiseOf(hs: Handles, f: HandleId): set<HandleId>
    requires f in hs
  {
    if hs[f].FutureHandle? && hs[f].promise.Some? then {hs[f].promise.value} else {}
  }

  lemma TransferFutureSpec(hs: Handles, src: HandleId, dst: HandleId)
    requires LinksOk(hs) && IsFuture(hs, src) && dst != src && Unpointed(hs, dst, false)
    ensures var hs' := TransferFuture(hs, src, dst);
      && LinksOk(hs') && hs'.Keys == hs.Keys + {dst}
      && IsFuture(hs', dst) && StateIn(hs', dst) == StateIn(hs, src)
      && Deferred(hs', dst) == Deferred(hs, src)
      && IsFuture(hs', src) && !Deferred(hs', src)
      && (Deferred(hs, src) ==> Partnered(hs', hs[src].promise.value, dst))
      && FuturesKept(hs, hs', {src, dst})
      && PromisesKept(hs, hs', PromiseOf(hs, src))
      && PromiseStatesKept(hs, hs')
  {
  }

  /** `Future::destroy`: a linked promise loses its future. The future's own
      link is cleared too: every caller drops or overwrites it. */
  function ReleaseFuture(hs: Handles, f: HandleId): Handles
    requires LinksOk(hs) && IsFuture(hs, f)
  {
    var h := hs[f];
    if h.promise.Some? then hs[h.promise.value := hs[h.promise.value].(future := None)][f := h.(promise := None)] else hs
  }

  lemma ReleaseFutureSpec(hs: Handles, f: HandleId)
    requires LinksOk(hs) && IsFuture(hs, f)
    ensures var hs' := ReleaseFuture(hs, f);
      && LinksOk(hs') && hs'.Keys == hs.Keys
      && IsFuture(hs', f) && !Deferred(hs', f) && hs'[f].local == hs[f].local
      && (Deferred(hs, f) ==> var p := hs[f].promise.value; hs'[p] == hs[p].(future := None))
      && FuturesKept(hs, hs', {f})
      && PromisesKept(hs, hs', if Deferred(hs, f) then {hs[f].promise.value} else {})
      && PromiseStatesKept(hs, hs')
  {
  }

  /** `Future(Future&&)` into the fresh handle `dst`. */
  function MoveFutureIn(hs: Handles, src: HandleId, dst: HandleId): Handles
    requires LinksOk(hs) && IsFuture(hs, src) && dst !in hs
  {
    TransferFuture(hs, src, dst)
  }

  /** `Future::operator=(Future&&)`: unless both are the same, `dst` first
      unlinks from its own promise and then takes over `src`'s promise or state. */
  function AssignFutureIn(hs: Handles, dst: HandleId, src: HandleId): Handles
    requires LinksOk(hs) && IsFuture(hs, dst) && IsFuture(hs, src)
  {
    if dst == src then hs
    else
      ReleaseFutureSpec(hs, dst);
      TransferFuture(ReleaseFuture(hs, dst), src, dst)
  }

  lemma {:induction false} AssignFutureSpec(hs: Handles, dst: HandleId, src: HandleId)
    requires LinksOk(hs) && IsFuture(hs, dst) && IsFuture(hs, src)
    ensures var hs' := AssignFutureIn(hs, dst, src);
      && LinksOk(hs') && hs'.Keys == hs.Keys
      && (dst == src ==> hs' == hs)
      && (dst != src ==>
            && IsFuture(hs', dst) && StateIn(hs', dst) == StateIn(hs, src)
            && Deferred(hs', dst) == Deferred(hs, src)
            && IsFuture(hs', src) && !Deferred(hs', src)
            && (Deferred(hs, src) ==> Partnered(hs', hs[src].promise.value, dst))
            && (Deferred(hs, dst) ==> hs'[hs[dst].promise.value].future.None?)
            && FuturesKept(hs, hs', {src, dst})
            && PromisesKept(hs, hs', PromiseOf(hs, src) + PromiseOf(hs, dst)))
      && PromiseStatesKept(hs, hs')
  {
    if dst != src {
      ReleaseFutureSpec(hs, dst);
      var hs1 := ReleaseFuture(hs, dst);
      assert hs1[src] == hs[src];
      TransferFutureSpec(hs1, src, dst);
      if Deferred(hs, dst) {
        var q := hs[dst].promise.value;
        assert hs1[q].future.None?;
        assert hs[src].promise != Some(q);
      }
    }
  }

  /** `~Future()`. */
  function DestroyFutureIn(hs: Handles, f: HandleId): Handles
    requires LinksOk(hs) && IsFuture(hs, f)
  {
    ReleaseFuture(hs, f) - {f}
  }

  lemma {:induction false} DestroyFutureSpec(hs: Handles, f: HandleId)
    requires LinksOk(hs) && IsFuture(hs, f)
    ensures var hs' := DestroyFutureIn(hs, f);
      && LinksOk(hs') && hs'.Keys == hs.Keys - {f}
      && (Deferred(hs, f) ==> var p := hs[f].promise.value; hs'[p] == hs[p].(future := None))
      && FuturesKept(hs, hs', {f})
      && PromisesKept(hs, hs', if Deferred(hs, f) then {hs[f].promise.value} else {})
      && PromiseStatesKept(hs, hs')
  {
    ReleaseFutureSpec(hs, f);
    var hs1 := ReleaseFuture(hs, f);
    assert forall h :: h in hs1 && h != f ==> h in hs1 - {f} && (hs1 - {f})[h] == hs1[h];
  }

  /** Handle `h` with local state `s`. */
  function WithLocal(hs: Handles, h: HandleId, s: State): Handles
    requires h in hs
  {
    hs[h := hs[h].(local := s)]
  }

  /** `Promise::set_value`: the promise's state is set; its future, if any,
      observes exactly that, and every other future observes no change. */
  lemma SetValueSpec(hs: Handles, p: HandleId, v: Tuple)
    requires LinksOk(hs) && IsPromise(hs, p)
    ensures var hs' := WithLocal(hs, p, Set(hs[p].local, v).state);
      && LinksOk(hs') && hs'.Keys == hs.Keys
      && FuturesKept(hs, hs', if hs[p].future.Some? then {hs[p].future.value} else {})
      && (hs[p].future.Some? ==>
            var f := hs[p].future.value;
            IsFuture(hs', f) && Deferred(hs', f) && StateIn(hs', f) == Set(StateIn(hs, f), v).state)
  {
  }

  /** Orphan safety: once the future of `p` is destroyed, setting `p`
      changes what no future observes. */
  lemma {:induction false} OrphanSafety(hs: Handles, p: HandleId, f: HandleId, v: Tuple)
    requires LinksOk(hs) && Partnered(hs, p, f)
    ensures var hs1 := DestroyFutureIn(hs, f);
      && LinksOk(hs1) && IsPromise(hs1, p) && hs1[p].future.None?
      && var hs2 := WithLocal(hs1, p, Set(hs1[p].local, v).state);
         LinksOk(hs2) && FuturesKept(hs1, hs2, {})
  {
    DestroyFutureSpec(hs, f);
    var hs1 := DestroyFutureIn(hs, f);
    SetValueSpec(hs1, p, v);
  }

  // ---------------------------------------------------------------------
  // `then` and its continuation, on the arena
  // ---------------------------------------------------------------------

  /** The arena after `f.then(body)`: the callback `cb` is registered on the
      state `f` reads, and the new promise `captured` (owned by `cb`) and
      its future `outer` are linked, both with a default state. The
      temporary promise that `then` moves from is gone again. */
  function ThenIn(hs: Handles, f: HandleId, outer: HandleId, captured: HandleId, cb: Callback): Handles
    requires LinksOk(hs) && IsFuture(hs, f) && outer !in hs && captured !in hs
  {
    var slot := Slot(hs, f);
    hs[slot := hs[slot].(local := SetCallback(hs[slot].local, cb).state)]
      [outer := FutureHandle(Some(captured), EmptyState)]
      [captured := PromiseHandle(Some(outer), EmptyState)]
  }

  /** `ThenIn` is the composition of the steps `then` takes. */
  lemma ThenInSteps(hs: Handles, f: HandleId, promise: HandleId, outer: HandleId, captured: HandleId, cb: Callback)
    requires LinksOk(hs) && IsFuture(hs, f)
    requires promise !in hs && outer !in hs && captured !in hs
    requires promise != outer && promise != captured && outer != captured
    ensures var slot := Slot(hs, f);
      var hs1 := hs[promise := PromiseHandle(None, EmptyState)]
                   [outer := FutureHandle(Some(captured), EmptyState)]
                   [captured := PromiseHandle(Some(outer), EmptyState)];
      hs1[slot := hs[slot].(local := SetCallback(hs[slot].local, cb).state)] - {promise}
        == ThenIn(hs, f, outer, captured, cb)
  {
    var slot := Slot(hs, f);
    var hs1 := hs[promise := PromiseHandle(None, EmptyState)]
                 [outer := FutureHandle(Some(captured), EmptyState)]
                 [captured := PromiseHandle(Some(outer), EmptyState)];
    var lhs := hs1[slot := hs[slot].(local := SetCallback(hs[slot].local, cb).state)] - {promise};
    var rhs := ThenIn(hs, f, outer, captured, cb);
    assert lhs.Keys == rhs.Keys;
    assert forall h :: h in lhs ==> lhs[h] == rhs[h];
  }

  /** What `then` does to the arena: one new linked pair, the continuation on
      `f`'s state, and nothing else. */
  lemma ThenSpec(hs: Handles, f: HandleId, outer: HandleId, captured: HandleId, cb: Callback)
    requires LinksOk(hs) && IsFuture(hs, f) && outer !in hs && captured !in hs && outer != captured
    ensures var hs' := ThenIn(hs, f, outer, captured, cb);
      && LinksOk(hs') && hs'.Keys == hs.Keys + {outer, captured}
      && Partnered(hs', captured, outer) && Deferred(hs', outer) && StateIn(hs', outer) == EmptyState
      && IsFuture(hs', f) && Deferred(hs', f) == Deferred(hs, f)
      && StateIn(hs', f) == SetCallback(StateIn(hs, f), cb).state
      && FuturesKept(hs, hs', {f})
      && PromisesKept(hs, hs', {Slot(hs, f)})
  {
  }

  /** The handles a continuation's result uses up: a returned future is
      destroyed once the continuation is done with it. */
  function Consumed(r: Returned): set<HandleId> {
    if r.ReturnedFuture? then {r.f} else {}
  }

  /** The future of promise `p`, as a set. */
  function FutureOf(hs: Handles, p: HandleId): set<HandleId>
    requires p in hs
  {
    if hs[p].PromiseHandle? && hs[p].future.Some? then {hs[p].future.value} else {}
  }

  /** The continuation's result is a future that is still deferred. */
  predicate Pending(hs: Handles, r: Returned) {
    r.ReturnedFuture? && r.f in hs && Deferred(hs, r.f)
  }

  /** The value of a continuation's normalised result. */
  function ResultValue(hs: Handles, r: Returned): Tuple
    requires LinksOk(hs) && (r.ReturnedFuture? ==> IsFuture(hs, r.f))
  {
    match r
    case ReturnedValue(v) => [v]
    case ReturnedVoid => []
    case ReturnedFuture(g) => StateIn(hs, g).value
  }

  /** The arena after the continuation of `then`, owning promise `p`,
      returned `r`. A result that is not deferred sets `p` to its value. A
      deferred one gets a relay callback on its promise's state instead,
      and `p` is left alone. A returned future is destroyed at the end. */
  function HandlerIn(hs: Handles, p: HandleId, r: Returned): Handles
    requires LinksOk(hs) && IsPromise(hs, p) && (r.ReturnedFuture? ==> IsFuture(hs, r.f))
  {
    if Pending(hs, r) then
      var q := hs[r.f].promise.value;
      DestroyFutureIn(WithLocal(hs, q, SetCallback(hs[q].local, Relay(p)).state), r.f)
    else
      WithLocal(hs, p, Set(hs[p].local, ResultValue(hs, r)).state) - Consumed(r)
  }

  /** For a result that is not deferred, `HandlerIn` is the composition of
      the steps the continuation takes: normalise, set `p`, destroy the result. */
  lemma HandlerInSteps(hs: Handles, p: HandleId, r: Returned, rf: HandleId)
    requires LinksOk(hs) && IsPromise(hs, p) && (r.ReturnedFuture? ==> IsFuture(hs, r.f))
    requires !Pending(hs, r)
    requires r.ReturnedFuture? ==> rf == r.f
    requires !r.ReturnedFuture? ==> rf !in hs
    ensures var hs1 := if r.ReturnedFuture? then hs
                       else hs[rf := FutureHandle(None, State(true, ResultValue(hs, r), None))];
      hs1[p := PromiseHandle(hs[p].future, Set(hs[p].local, ResultValue(hs, r)).state)] - {rf}
        == HandlerIn(hs, p, r)
  {
    var hs1 := if r.ReturnedFuture? then hs
               else hs[rf := FutureHandle(None, State(true, ResultValue(hs, r), None))];
    var lhs := hs1[p := PromiseHandle(hs[p].future, Set(hs[p].local, ResultValue(hs, r)).state)] - {rf};
    var rhs := HandlerIn(hs, p, r);
    assert lhs.Keys == rhs.Keys;
    assert forall h :: h in lhs ==> lhs[h] == rhs[h];
  }

  /** A result that is not deferred sets `p` synchronously; its future
      observes that, and nothing else changes. */
  lemma {:induction false} HandlerResolvedSpec(hs: Handles, p: HandleId, r: Returned)
    requires LinksOk(hs) && IsPromise(hs, p) && (r.ReturnedFuture? ==> IsFuture(hs, r.f))
    requires !Pending(hs, r)
    ensures var hs' := HandlerIn(hs, p, r);
      && LinksOk(hs') && hs'.Keys == hs.Keys - Consumed(r)
      && hs'[p] == PromiseHandle(hs[p].future, Set(hs[p].local, ResultValue(hs, r)).state)
      && (hs[p].future.Some? ==>
            var g := hs[p].future.value;
            IsFuture(hs', g) && Deferred(hs', g)
            && StateIn(hs', g) == Set(StateIn(hs, g), ResultValue(hs, r)).state)
      && FuturesKept(hs, hs', Consumed(r) + FutureOf(hs, p))
      && PromisesKept(hs, hs', {p})
  {
    SetValueSpec(hs, p, ResultValue(hs, r));
    var hs1 := WithLocal(hs, p, Set(hs[p].local, ResultValue(hs, r)).state);
    if r.ReturnedFuture? {
      assert hs[p].future != Some(r.f);
      assert forall h :: h in hs1 && h != r.f ==> h in hs1 - {r.f} && (hs1 - {r.f})[h] == hs1[h];
    } else {
      assert hs1 - Consumed(r) == hs1;
    }
  }

  /** A deferred result gets only a relay on its promise's state; `p` is not
      set, and the result's promise loses its future. */
  lemma {:induction false} HandlerPendingSpec(hs: Handles, p: HandleId, r: Returned)
    requires LinksOk(hs) && IsPromise(hs, p) && (r.ReturnedFuture? ==> IsFuture(hs, r.f))
    requires Pending(hs, r)
    ensures var hs' := HandlerIn(hs, p, r);
      var q := hs[r.f].promise.value;
      && LinksOk(hs') && hs'.Keys == hs.Keys - {r.f}
      && hs[q].local == StateIn(hs, r.f)
      && hs'[q] == PromiseHandle(None, SetCallback(hs[q].local, Relay(p)).state)
      && FuturesKept(hs, hs', {r.f})
      && PromisesKept(hs, hs', {q})
  {
    var q := hs[r.f].promise.value;
    var hs1 := WithLocal(hs, q, SetCallback(hs[q].local, Relay(p)).state);
    assert LinksOk(hs1) && Partnered(hs1, q, r.f);
    DestroyFutureSpec(hs1, r.f);
    assert FuturesKept(hs, hs1, {r.f});
  }

  // ---------------------------------------------------------------------
  // Result normalisation and repeat
  // ---------------------------------------------------------------------

  /** What a continuation returned: a plain value, nothing, or a future. */
  datatype Returned = ReturnedValue(v: int) | ReturnedVoid | ReturnedFuture(f: HandleId)

  /** A completion waiting in the main thread's immediate queue: set
      `promise` to `value`. */
  datatype Completion = Completion(promise: HandleId, value: Tuple)

  /** The completions the relay callbacks among `ds` post to the main thread. */
  function Relays(ds: seq<Delivery>): (cs: seq<Completion>)
    ensures |cs| <= |ds|
    ensures forall c :: c in cs ==> Delivery(Relay(c.promise), c.value) in ds
    ensures ds == [] ==> cs == []
    ensures |ds| == 1 ==> (cs != [] <==> ds[0].callback.Relay?)
    ensures |ds| == 1 && ds[0].callback.Relay? ==> cs == [Completion(ds[0].callback.promise, ds[0].value)]
  {
    if ds == [] then []
    else
      var head := if ds[0].callback.Relay? then [Completion(ds[0].callback.promise, ds[0].value)] else [];
      head + Relays(ds[1..])
  }

  /** Relays are posted per delivery, in delivery order: the completions of
      a concatenation are those of its parts, concatenated. */
  lemma {:induction false} RelaysAppend(ds1: seq<Delivery>, ds2: seq<Delivery>)
    ensures Relays(ds1 + ds2) == Relays(ds1) + Relays(ds2)
    decreases |ds1|
  {
    if ds1 == [] {
      assert ds1 + ds2 == ds2;
    } else {
      var head := if ds1[0].callback.Relay? then [Completion(ds1[0].callback.promise, ds1[0].value)] else [];
      assert (ds1 + ds2)[0] == ds1[0] && (ds1 + ds2)[1..] == ds1[1..] + ds2;
      assert Relays(ds1 + ds2) == head + Relays(ds1[1..] + ds2);
      RelaysAppend(ds1[1..], ds2);
      assert Relays(ds1) == head + Relays(ds1[1..]);
    }
  }

  /** What `repeat` did: how many times it called `f`, and whether it set
      its promise (with no value). */
  datatype RepeatTrace = RepeatTrace(calls: nat, completed: bool)

  /** `repeat(f)` when the futures returned by the successive calls of `f`
      resolve to `answers` in turn; when the answers run out, the last call's
      future has not resolved yet. */
  function Repeat(answers: seq<bool>): (r: RepeatTrace)
    ensures r.calls >= 1
    decreases |answers|
  {
    if answers == [] then RepeatTrace(1, false)
    else if answers[0] then
      var rest := Repeat(answers[1..]);
      RepeatTrace(rest.calls + 1, rest.completed)
    else RepeatTrace(1, true)
  }

  /** `f` is called again exactly after a `true`, and the promise is set
      exactly when a `false` arrives. */
  lemma {:induction false} RepeatAgainIffTrue(answers: seq<bool>)
    ensures var r := Repeat(answers);
      && (forall i :: 0 <= i < r.calls - 1 ==> i < |answers| && answers[i])
      && (r.completed <==> r.calls - 1 < |answers| && !answers[r.calls - 1])
      && (!r.completed ==> r.calls == |answers| + 1)
    decreases |answers|
  {
    if answers != [] && answers[0] {
      RepeatAgainIffTrue(answers[1..]);
      var r := Repeat(answers);
      forall i | 0 <= i < r.calls - 1 ensures i < |answers| && answers[i] {
        if i > 0 { assert answers[i] == answers[1..][i - 1]; }
      }
    }
  }

  /** The promise of `repeat` is set exactly when some answer is `false`. */
  lemma {:induction false} RepeatCompletesIffFalse(answers: seq<bool>)
    ensures Repeat(answers).completed <==> false in answers
    decreases |answers|
  {
    if answers != [] && answers[0] {
      RepeatCompletesIffFalse(answers[1..]);
      assert answers == [answers[0]] + answers[1..];
    }
  }

  /** Four `true`s and then a `false`: five calls, then the promise is set. */
  lemma RepeatFiveCalls()
    ensures Repeat([true, true, true, true, false]) == RepeatTrace(5, true)
  {
    assert [true, true, true, true, false][1..] == [true, true, true, false];
    assert [true, true, true, false][1..] == [true, true, false];
    assert [true, true, false][1..] == [true, false];
    assert [true, false][1..] == [false];
  }

  // ---------------------------------------------------------------------
  // The arena of promises and futures
  // ---------------------------------------------------------------------

  class Engine {
    var handles: Handles
    /** Source of fresh handle identities. */
    var next: HandleId
    /** Every callback invocation so far, in order. */
    var delivered: seq<Delivery>
    /** The main thread's pending immediate tasks, oldest first. */
    var mainQueue: seq<Completion>

    ghost predicate Valid()
      reads this
    {
      LinksOk(handles) && forall h :: h in handles ==> h < next
    }

    constructor ()
      ensures Valid() && handles == map[] && delivered == [] && mainQueue == []
    {
      handles := map[];
      next := 0;
      delivered := [];
      mainQueue := [];
    }

    /** Records the invocations `ds`; a relay invocation posts its completion. */
    method Deliver(ds: seq<Delivery>)
      modifies this`delivered, this`mainQueue
      ensures delivered == old(delivered) + ds
      ensures mainQueue == old(mainQueue) + Relays(ds)
    {
      delivered := delivered + ds;
      mainQueue := mainQueue + Relays(ds);
    }

    /** `State::set` on the local state of handle `slot`. */
    method SetSlot(slot: HandleId, v: Tuple)
      requires Valid() && slot in handles
      modifies this`handles, this`delivered, this`mainQueue
      ensures Valid()
      ensures var o := Set(old(handles)[slot].local, v);
        && handles == old(handles)[slot := old(handles)[slot].(local := o.state)]
        && delivered == old(delivered) + o.delivered
        && mainQueue == old(mainQueue) + Relays(o.delivered)
    {
      var o := Set(handles[slot].local, v);
      handles := handles[slot := handles[slot].(local := o.state)];
      Deliver(o.delivered);
    }

    /** `State::set_callback` on the local state of handle `slot`. */
    method SetCallbackSlot(slot: HandleId, cb: Callback)
      requires Valid() && slot in handles
      modifies this`handles, this`delivered, this`mainQueue
      ensures Valid()
      ensures var o := SetCallback(old(handles)[slot].local, cb);
        && handles == old(handles)[slot := old(handles)[slot].(local := o.state)]
        && delivered == old(delivered) + o.delivered
        && mainQueue == old(mainQueue) + Relays(o.delivered)
    {
      var o := SetCallback(handles[slot].local, cb);
      handles := handles[slot := handles[slot].(local := o.state)];
      Deliver(o.delivered);
    }

    /** `Promise()`: a new promise with no future and a default state. */
    method NewPromise() returns (p: HandleId)
      requires Valid()
      modifies this`handles, this`next
      ensures Valid() && p !in old(handles) && next > old(next)
      ensures handles == old(handles)[p := PromiseHandle(None, EmptyState)]
    {
      p := next;
      next := next + 1;
      handles := handles[p := PromiseHandle(None, EmptyState)];
    }

    /** `Promise::get_future`: a new future linked to `p`, reading `p`'s state. */
    method GetFuture(p: HandleId) returns (f: HandleId)
      requires Valid() && IsPromise(handles, p) && handles[p].future.None?
      modifies this`handles, this`next
      ensures Valid() && f !in old(handles) && next > old(next)
      ensures handles == GetFutureIn(old(handles), p, f)
    {
      f := next;
      next := next + 1;
      GetFutureSpec(handles, p, f);
      handles := GetFutureIn(handles, p, f);
    }

    /** `Promise(Promise&&)`: a new promise takes over `src`'s future and state. */
    method MovePromise(src: HandleId) returns (dst: HandleId)
      requires Valid() && IsPromise(handles, src)
      modifies this`handles, this`next
      ensures Valid() && dst !in old(handles) && next > old(next)
      ensures handles == MovePromiseIn(old(handles), src, dst)
    {
      dst := next;
      next := next + 1;
      TransferPromiseSpec(handles, src, dst);
      handles := MovePromiseIn(handles, src, dst);
    }

    /** `Promise::operator=(Promise&&)`. */
    method AssignPromise(dst: HandleId, src: HandleId)
      requires Valid() && IsPromise(handles, dst) && IsPromise(handles, src)
      modifies this`handles
      ensures Valid() && handles == AssignPromiseIn(old(handles), dst, src)
    {
      AssignPromiseSpec(handles, dst, src);
      handles := AssignPromiseIn(handles, dst, src);
    }

    /** `~Promise()`. */
    method DestroyPromise(p: HandleId)
      requires Valid() && IsPromise(handles, p)
      modifies this`handles
      ensures Valid() && handles == DestroyPromiseIn(old(handles), p)
    {
      DestroyPromiseSpec(handles, p);
      handles := DestroyPromiseIn(handles, p);
    }

    /** `Future(Future&&)`: a new future takes over `src`'s promise or state. */
    method MoveFuture(src: HandleId) returns (dst: HandleId)
      requires Valid() && IsFuture(handles, src)
      modifies this`handles, this`next
      ensures Valid() && dst !in old(handles) && next > old(next)
      ensures handles == MoveFutureIn(old(handles), src, dst)
    {
      dst := next;
      next := next + 1;
      TransferFutureSpec(handles, src, dst);
      handles := MoveFutureIn(handles, src, dst);
    }

    /** `Future::operator=(Future&&)`. */
    method AssignFuture(dst: HandleId, src: HandleId)
      requires Valid() && IsFuture(handles, dst) && IsFuture(handles, src)
      modifies this`handles
      ensures Valid() && handles == AssignFutureIn(old(handles), dst, src)
    {
      AssignFutureSpec(handles, dst, src);
      handles := AssignFutureIn(handles, dst, src);
    }

    /** `~Future()`. */
    method DestroyFuture(f: HandleId)
      requires Valid() && IsFuture(handles, f)
      modifies this`handles
      ensures Valid() && handles == DestroyFutureIn(old(handles), f)
    {
      DestroyFutureSpec(handles, f);
      handles := DestroyFutureIn(handles, f);
    }

    /** `Promise::set_value`: sets the promise's own state. */
    method SetValue(p: HandleId, v: Tuple)
      requires Valid() && IsPromise(handles, p)
      modifies this`handles, this`delivered, this`mainQueue
      ensures Valid()
      ensures var o := Set(old(handles)[p].local, v);
        && handles == WithLocal(old(handles), p, o.state)
        && delivered == old(delivered) + o.delivered
        && mainQueue == old(mainQueue) + Relays(o.delivered)
    {
      SetSlot(p, v);
    }

    /** `make_ready_future(v)`: a new unlinked future whose state is set to `v`. */
    method MakeReadyFuture(v: Tuple) returns (f: HandleId)
      requires Valid()
      modifies this`handles, this`next
      ensures Valid() && f !in old(handles) && next > old(next)
      ensures handles == old(handles)[f := FutureHandle(None, Set(EmptyState, v).state)]
      ensures !Deferred(handles, f) && StateIn(handles, f) == State(true, v, None)
      ensures FuturesKept(old(handles), handles, {}) && PromisesKept(old(handles), handles, {})
    {
      f := next;
      next := next + 1;
      handles := handles[f := FutureHandle(None, Set(EmptyState, v).state)];
    }

    /** `Futurize::get_result`: a plain value becomes a ready future holding
        it as a one-element tuple, `void` becomes `make_ready_future<>()`, and
        a returned future is passed through. */
    method GetResult(r: Returned) returns (rf: HandleId)
      requires Valid() && (r.ReturnedFuture? ==> IsFuture(handles, r.f))
      modifies this`handles, this`next
      ensures Valid() && IsFuture(handles, rf)
      ensures r.ReturnedFuture? ==> rf == r.f && handles == old(handles)
      ensures r.ReturnedValue? ==> rf !in old(handles) && !Deferred(handles, rf) && StateIn(handles, rf) == State(true, [r.v], None)
      ensures r.ReturnedVoid? ==> rf !in old(handles) && !Deferred(handles, rf) && StateIn(handles, rf) == State(true, [], None)
      ensures !r.ReturnedFuture? ==>
        handles == old(handles)[rf := FutureHandle(None, State(true, ResultValue(old(handles), r), None))]
      ensures FuturesKept(old(handles), handles, {}) && PromisesKept(old(handles), handles, {})
    {
      match r
      case ReturnedValue(v) => rf := MakeReadyFuture([v]);
      case ReturnedVoid => rf := MakeReadyFuture([]);
      case ReturnedFuture(f) => rf := f;
    }

    /** The steps of `Future::then(body)` on future `f`: a promise and its
        future `outer` are made, the promise is moved into the continuation's
        callback as `captured`, that callback is registered on `f`'s state,
        and the moved-from promise is destroyed. */
    method ThenSteps(f: HandleId, body: nat) returns (outer: HandleId, captured: HandleId)
      requires Valid() && IsFuture(handles, f)
      modifies this`handles, this`next, this`delivered, this`mainQueue
      ensures Valid() && outer !in old(handles) && captured !in old(handles) && outer != captured
      ensures handles == ThenIn(old(handles), f, outer, captured, ThenHandler(body, captured))
      ensures var o := SetCallback(StateIn(old(handles), f), ThenHandler(body, captured));
        delivered == old(delivered) + o.delivered && mainQueue == old(mainQueue) + Relays(o.delivered)
    {
      ghost var hs0 := handles;
      var promise := NewPromise();
      outer := GetFuture(promise);
      captured := MovePromise(promise);
      ghost var hs1 := hs0[promise := PromiseHandle(None, EmptyState)]
                          [outer := FutureHandle(Some(captured), EmptyState)]
                          [captured := PromiseHandle(Some(outer), EmptyState)];
      assert handles == hs1;
      var slot := Slot(handles, f);
      assert slot == Slot(hs0, f) && slot in hs0 && hs1[slot] == hs0[slot];
      var cb := ThenHandler(body, captured);
      SetCallbackSlot(slot, cb);
      ghost var hs2 := handles;
      DestroyPromise(promise);
      assert hs2 == hs1[slot := hs0[slot].(local := SetCallback(hs0[slot].local, cb).state)];
      assert handles == hs2 - {promise};
      ThenInSteps(hs0, f, promise, outer, captured, cb);
    }

    /** `Future::then(body)` on future `f`: returns `outer`, linked to the
        promise `captured` that the continuation owns, and not yet ready. The
        continuation is registered on `f`'s state; if that state is ready it
        is invoked at once with its value. Nothing is posted to the main thread. */
    method Then(f: HandleId, body: nat) returns (outer: HandleId)
      requires Valid() && IsFuture(handles, f)
      modifies this`handles, this`next, this`delivered, this`mainQueue
      ensures Valid() && outer !in old(handles) && IsFuture(handles, f)
      ensures IsFuture(handles, outer) && Deferred(handles, outer) && StateIn(handles, outer) == EmptyState
      ensures var captured := handles[outer].promise.value;
        var cb := ThenHandler(body, captured);
        var s := StateIn(old(handles), f);
        && captured !in old(handles) && Partnered(handles, captured, outer)
        && handles.Keys == old(handles).Keys + {outer, captured}
        && (s.ready ==> delivered == old(delivered) + [Delivery(cb, s.value)] && StateIn(handles, f) == s)
        && (!s.ready ==> delivered == old(delivered) && StateIn(handles, f) == s.(onSetValue := Some(cb)))
      ensures FuturesKept(old(handles), handles, {f}) && PromisesKept(old(handles), handles, {Slot(old(handles), f)})
      ensures mainQueue == old(mainQueue)
      ensures Deferred(handles, f) == Deferred(old(handles), f)
    {
      ghost var hs0 := handles;
      var captured;
      outer, captured := ThenSteps(f, body);
      ThenSpec(hs0, f, outer, captured, ThenHandler(body, captured));
    }

    /** The steps of the continuation installed by `then`, for promise `p`,
        once the user's function has returned `r`: the result is normalised
        by `Futurize::get_result`; a deferred result gets a relay callback,
        any other result sets `p`; the normalised future is destroyed. */
    method HandlerSteps(p: HandleId, r: Returned)
      requires Valid() && IsPromise(handles, p)
      requires r.ReturnedFuture? ==> IsFuture(handles, r.f)
      modifies this`handles, this`next, this`delivered, this`mainQueue
      ensures Valid() && handles == HandlerIn(old(handles), p, r)
      ensures var o := if Pending(old(handles), r)
          then SetCallback(StateIn(old(handles), r.f), Relay(p))
          else Set(old(handles)[p].local, ResultValue(old(handles), r));
        delivered == old(delivered) + o.delivered && mainQueue == old(mainQueue) + Relays(o.delivered)
    {
      ghost var hs0 := handles;
      var rf := GetResult(r);
      assert IsPromise(handles, p) && handles[p] == hs0[p];
      ghost var hs1 := handles;
      if Deferred(handles, rf) {
        var q := handles[rf].promise.value;
        SetCallbackSlot(q, Relay(p));
      } else {
        SetSlot(p, StateIn(handles, rf).value);
      }
      ghost var hs2 := handles;
      DestroyFuture(rf);
      if !Pending(hs0, r) {
        assert hs2 == hs1[p := PromiseHandle(hs0[p].future, Set(hs0[p].local, ResultValue(hs0, r)).state)];
        assert handles == hs2 - {rf};
        HandlerInSteps(hs0, p, r, rf);
      }
    }

    /** The continuation installed by `then`, invoked for promise `p`, once
        the user's function has returned `r`. A result that is not deferred
        completes `p` at once with its value. A deferred result gets a relay
        callback that will post the completion of `p` to the main thread, so
        `p` is not set here. */
    method RunThenHandler(p: HandleId, r: Returned)
      requires Valid() && IsPromise(handles, p)
      requires r.ReturnedFuture? ==> IsFuture(handles, r.f)
      modifies this`handles, this`next, this`delivered, this`mainQueue
      ensures Valid() && IsPromise(handles, p) && handles.Keys == old(handles).Keys - Consumed(r)
      // resolved: `p` is set synchronously, keeping its future
      ensures !Pending(old(handles), r) ==>
        var o := Set(old(handles)[p].local, ResultValue(old(handles), r));
        && handles[p] == PromiseHandle(old(handles)[p].future, o.state)
        && delivered == old(delivered) + o.delivered
        && mainQueue == old(mainQueue) + Relays(o.delivered)
        && FuturesKept(old(handles), handles, Consumed(r) + FutureOf(old(handles), p))
        && PromisesKept(old(handles), handles, {p})
      // pending: the relay goes on the state of the result's promise `q`; `p` is untouched
      ensures Pending(old(handles), r) ==>
        var q := old(handles)[r.f].promise.value;
        var o := SetCallback(old(handles)[q].local, Relay(p));
        && old(handles)[q].local == StateIn(old(handles), r.f)
        && handles[q] == PromiseHandle(None, o.state)
        && (q != p ==> handles[p] == old(handles)[p])
        && delivered == old(delivered) + o.delivered
        && mainQueue == old(mainQueue) + Relays(o.delivered)
        && FuturesKept(old(handles), handles, {r.f})
        && PromisesKept(old(handles), handles, {q})
    {
      ghost var hs0 := handles;
      HandlerSteps(p, r);
      if Pending(hs0, r) {
        HandlerPendingSpec(hs0, p, r);
      } else {
        HandlerResolvedSpec(hs0, p, r);
      }
    }

    /** One main-thread immediate task: the oldest posted completion sets its promise. */
    method RunMainImmediate()
      requires Valid() && mainQueue != [] && IsPromise(handles, mainQueue[0].promise)
      modifies this`handles, this`delivered, this`mainQueue
      ensures Valid()
      ensures var c := old(mainQueue)[0];
        var o := Set(old(handles)[c.promise].local, c.value);
        && handles == WithLocal(old(handles), c.promise, o.state)
        && delivered == old(delivered) + o.delivered
        && mainQueue == old(mainQueue)[1..] + Relays(o.delivered)
    {
      var c := mainQueue[0];
      mainQueue := mainQueue[1..];
      SetSlot(c.promise, c.value);
    }
  }

  // ---------------------------------------------------------------------
  // Scenarios
  // ---------------------------------------------------------------------

  /** `make_ready_future(42).then(v => v + 1)`: the continuation receives 42
      at once, and the future `then` returned becomes ready with 43. */
  method ThenOnReadyValue() returns (seen: Tuple, observed: State)
    ensures seen == [42] && observed == State(true, [43], None)
  {
    var e := new Engine();
    var f := e.MakeReadyFuture([42]);
    var outer := e.Then(f, 0);
    var captured := e.handles[outer].promise.value;
    seen := e.delivered[0].value;
    e.RunThenHandler(captured, ReturnedValue(seen[0] + 1));
    observed := StateIn(e.handles, outer);
  }

  /** `make_ready_future(1).then(v => inner)` where `inner` is still pending:
      the future `then` returned stays pending; setting `inner`'s promise to 7
      only posts a completion to the main thread, and running that immediate
      makes the future ready with 7. */
  method ThenOnPendingFuture() returns (afterHandler: State, queued: seq<Completion>, observed: State)
    ensures afterHandler == EmptyState
    ensures |queued| == 1 && queued[0].value == [7]
    ensures observed == State(true, [7], None)
  {
    var e := new Engine();
    var q := e.NewPromise();
    var inner := e.GetFuture(q);
    var f := e.MakeReadyFuture([1]);
    var outer := e.Then(f, 0);
    var captured := e.handles[outer].promise.value;
    assert e.handles[q] == PromiseHandle(Some(inner), EmptyState) && e.mainQueue == [];
    assert e.handles[captured] == PromiseHandle(Some(outer), EmptyState) && q != captured;
    e.RunThenHandler(captured, ReturnedFuture(inner));
    afterHandler := StateIn(e.handles, outer);
    queued, observed := RelayCompletes(e, q, captured, outer, [7]);
  }

  /** The second half of `ThenOnPendingFuture`: `q` holds only the relay to
      `captured`, whose future `outer` is pending. Setting `q` to `v` posts
      one completion of `captured` with `v`, and running it makes `outer`
      ready with `v`. */
  method RelayCompletes(e: Engine, q: HandleId, captured: HandleId, outer: HandleId, v: Tuple)
    returns (queued: seq<Completion>, observed: State)
    requires e.Valid() && e.mainQueue == [] && q != captured
    requires q in e.handles && e.handles[q] == PromiseHandle(None, EmptyState.(onSetValue := Some(Relay(captured))))
    requires captured in e.handles && e.handles[captured] == PromiseHandle(Some(outer), EmptyState)
    modifies e`handles, e`delivered, e`mainQueue
    ensures queued == [Completion(captured, v)]
    ensures observed == State(true, v, None)
  {
    e.SetValue(q, v);
    queued := e.mainQueue;
    assert queued == [Completion(captured, v)];
    assert e.handles[captured] == PromiseHandle(Some(outer), EmptyState);
    e.RunMainImmediate();
    observed := StateIn(e.handles, outer);
  }
}
