/**
 * The pool of worker threads and the main thread's scheduler (threadpool.h).
 *
 * Dispatch prefers the first worker with no pending task; when every worker
 * is busy it advances a round-robin cursor, which starts at 0. Threads are
 * not modelled: a started worker is a `Worker` whose loop has been entered.
 */
module Pool {
  import opened Wrappers
  import opened Workers

  // ---------------------------------------------------------------------
  // The dispatch choice on task counts
  // ---------------------------------------------------------------------

  /** The lowest index whose count is 0, if any. */
  function FirstIdle(counts: seq<nat>): (r: Option<nat>)
    ensures r.None? <==> forall i :: 0 <= i < |counts| ==> counts[i] != 0
    ensures r.Some? ==> r.value < |counts| && counts[r.value] == 0
    ensures r.Some? ==> forall j :: 0 <= j < r.value ==> counts[j] != 0
  {
    if |counts| == 0 then None
    else if counts[0] == 0 then Some(0)
    else
      match FirstIdle(counts[1..])
      case None => None
      case Some(i) => Some(i + 1)
  }

  /** The round-robin step: the cursor wraps to 0 when it was at least
      `size - 1`, and moves up by one otherwise. */
  function Advance(cursor: nat, size: nat): (c: nat)
    requires size > 0
    ensures c < size
    ensures cursor >= size - 1 ==> c == 0
    ensures cursor < size - 1 ==> c == cursor + 1
  {
    if cursor >= size - 1 then 0 else cursor + 1
  }

  /** Values of `size_t`. */
  const SizeModulus: nat := 0x1_0000_0000_0000_0000

  /** The cursor step exactly as written, in `size_t` arithmetic: for an empty
      pool `size - 1` wraps around to the largest value. */
  function AdvanceAsWritten(cursor: nat, size: nat): (c: nat)
    requires cursor < SizeModulus && size < SizeModulus
    ensures c < SizeModulus
  {
    var last := (size - 1 + SizeModulus) % SizeModulus;
    if cursor >= last then 0 else cursor + 1
  }

  /** On a non-empty pool the code as written is `Advance`. */
  lemma AdvanceAsWrittenAgrees(cursor: nat, size: nat)
    requires cursor < SizeModulus && 0 < size < SizeModulus
    ensures AdvanceAsWritten(cursor, size) == Advance(cursor, size)
  {
    assert (size - 1 + SizeModulus) % SizeModulus == size - 1;
  }

  /** On an empty pool the code as written selects position 1, past the end. */
  lemma EmptyPoolOutOfRange()
    ensures AdvanceAsWritten(0, 0) == 1
  {
    assert (0 - 1 + SizeModulus) % SizeModulus == SizeModulus - 1;
  }

  /** The worker chosen and the cursor afterwards. */
  datatype Choice = Choice(index: nat, cursor: nat)

  /** `find_thread` on the task counts of a non-empty pool. */
  function Choose(counts: seq<nat>, cursor: nat): (c: Choice)
    requires |counts| > 0
    ensures c.index < |counts|
    ensures cursor < |counts| ==> c.cursor < |counts|
    // an idle worker is preferred, the lowest-index one, and the cursor is left alone
    ensures FirstIdle(counts).Some? ==> c == Choice(FirstIdle(counts).value, cursor)
    // with every worker busy, the new cursor is the worker chosen
    ensures FirstIdle(counts).None? ==> c.index == c.cursor == Advance(cursor, |counts|)
  {
    match FirstIdle(counts)
    case Some(i) => Choice(i, cursor)
    case None =>
      var n := Advance(cursor, |counts|);
      Choice(n, n)
  }

  /** The workers chosen by `m` successive dispatches to a pool of `size`
      workers that are all busy, from cursor `c`. */
  function BusyPicks(size: nat, c: nat, m: nat): (ps: seq<nat>)
    requires size > 0
    ensures |ps| == m
    decreases m
  {
    if m == 0 then []
    else
      var n := Choose(seq(size, _ => 1), c).cursor;
      [n] + BusyPicks(size, n, m - 1)
  }

  function Wrap(x: nat, size: nat): nat {
    if x < size then x else x - size
  }

  /** With every worker busy, the `i`-th pick is the worker `i + 1` places
      after the cursor, counted cyclically. */
  lemma {:induction false} BusyPicksAt(size: nat, c: nat, m: nat, i: nat)
    requires 0 < size && c < size && m <= size && i < m
    ensures BusyPicks(size, c, m)[i] == Wrap(c + 1 + i, size)
    decreases m
  {
    var n := Choose(seq(size, _ => 1), c).cursor;
    assert FirstIdle(seq(size, _ => 1)).None? by {
      var ones := seq(size, _ => 1);
      assert forall j :: 0 <= j < |ones| ==> ones[j] != 0;
    }
    if i > 0 {
      BusyPicksAt(size, n, m - 1, i - 1);
    }
  }

  /** A cursor at or past the end, as `start` after `stop` can leave it,
      dispatches like a cursor on the last worker: the next pick wraps to 0. */
  lemma StaleCursor(size: nat, c: nat, m: nat)
    requires 0 < size && c >= size
    ensures BusyPicks(size, c, m) == BusyPicks(size, size - 1, m)
  {
    assert FirstIdle(seq(size, _ => 1)).None? by {
      var ones := seq(size, _ => 1);
      assert forall j :: 0 <= j < |ones| ==> ones[j] != 0;
    }
  }

  /** Over `size` consecutive dispatches to an all-busy pool, round robin
      selects each worker exactly once, from any cursor. */
  lemma RoundRobinFair(size: nat, c: nat)
    requires 0 < size
    ensures var ps := BusyPicks(size, c, size);
      && (forall i :: 0 <= i < size ==> ps[i] < size)
      && (forall i, j :: 0 <= i < j < size ==> ps[i] != ps[j])
      && (forall w :: 0 <= w < size ==> w in ps)
  {
    var c' := if c < size then c else size - 1;
    if c >= size {
      StaleCursor(size, c, size);
    }
    var ps := BusyPicks(size, c', size);
    forall i | 0 <= i < size ensures ps[i] == Wrap(c' + 1 + i, size) {
      BusyPicksAt(size, c', size, i);
    }
    forall w | 0 <= w < size ensures w in ps {
      var i := if w > c' then w - c' - 1 else w + size - c' - 1;
      assert ps[i] == w;
    }
  }

  /** The counts after one dispatch: the chosen worker has one more task. */
  function Dispatched(counts: seq<nat>, cursor: nat): (seq<nat>, nat)
    requires |counts| > 0
  {
    var c := Choose(counts, cursor);
    (counts[c.index := counts[c.index] + 1], c.cursor)
  }

  /** The workers chosen by `m` successive dispatches, each adding one task. */
  function Picks(counts: seq<nat>, cursor: nat, m: nat): (ps: seq<nat>)
    requires |counts| > 0
    ensures |ps| == m
    decreases m
  {
    if m == 0 then []
    else
      var d := Dispatched(counts, cursor);
      [Choose(counts, cursor).index] + Picks(d.0, d.1, m - 1)
  }

  /** On a pool where every worker is busy, the real dispatches, which add a
      task each time, pick the same workers as `BusyPicks`. */
  lemma {:induction false} PicksAreBusyPicks(counts: seq<nat>, c: nat, m: nat)
    requires |counts| > 0
    requires forall i :: 0 <= i < |counts| ==> counts[i] != 0
    ensures Picks(counts, c, m) == BusyPicks(|counts|, c, m)
    decreases m
  {
    if m > 0 {
      var ones := seq(|counts|, _ => 1);
      assert forall j :: 0 <= j < |ones| ==> ones[j] != 0;
      assert Choose(counts, c) == Choose(ones, c);
      var d := Dispatched(counts, c);
      PicksAreBusyPicks(d.0, d.1, m - 1);
    }
  }

  /** Round-robin fairness of the pool's own dispatches: with every worker
      busy, `size` dispatches give each worker exactly one task. */
  lemma PoolRoundRobinFair(counts: seq<nat>, c: nat)
    requires |counts| > 0
    requires forall i :: 0 <= i < |counts| ==> counts[i] != 0
    ensures var ps := Picks(counts, c, |counts|);
      && (forall i, j :: 0 <= i < j < |counts| ==> ps[i] != ps[j])
      && (forall w :: 0 <= w < |counts| ==> w in ps)
  {
    PicksAreBusyPicks(counts, c, |counts|);
    RoundRobinFair(|counts|, c);
  }

  /** Empty workers are used first: on a pool whose first `k` workers are
      busy and whose others are idle, with no task finishing meanwhile,
      dispatches fill the idle workers in index order. */
  lemma {:induction false} IdleFirst(counts: seq<nat>, cursor: nat, k: nat, m: nat)
    requires |counts| > 0 && k + m <= |counts|
    requires forall i :: 0 <= i < k ==> counts[i] != 0
    requires forall i :: k <= i < |counts| ==> counts[i] == 0
    ensures forall i :: 0 <= i < m ==> Picks(counts, cursor, m)[i] == k + i
    decreases m
  {
    if m > 0 {
      assert counts[k] == 0;
      assert Choose(counts, cursor).index == k;
      var d := Dispatched(counts, cursor);
      IdleFirst(d.0, d.1, k + 1, m - 1);
    }
  }

  // ---------------------------------------------------------------------
  // The pool
  // ---------------------------------------------------------------------

  class ThreadPool {
    var workers: seq<Worker>
    /** The round-robin cursor (`_current_thread`). */
    var cursor: nat

    /** The workers are distinct and each keeps its own invariant. */
    ghost predicate Valid()
      reads this`workers, workers
    {
      && (forall i, j :: 0 <= i < j < |workers| ==> workers[i] != workers[j])
      && (forall i :: 0 <= i < |workers| ==> workers[i].Valid())
    }

    /** The pending task count of each worker. */
    function Counts(): (cs: seq<nat>)
      reads this`workers, workers
      ensures |cs| == |workers|
      ensures forall i :: 0 <= i < |workers| ==> cs[i] == |workers[i].tasks|
    {
      var ws := workers;
      seq(|ws|, i reads ws requires 0 <= i < |ws| => |ws[i].tasks|)
    }

    /** An empty pool, cursor at 0. */
    constructor ()
      ensures Valid() && workers == [] && cursor == 0
    {
      workers := [];
      cursor := 0;
    }

    /** Adds `count` new workers, each with its loop entered and no task. */
    method Start(count: nat)
      requires Valid()
      modifies this
      ensures Valid() && cursor == old(cursor)
      ensures |workers| == |old(workers)| + count && workers[..|old(workers)|] == old(workers)
      ensures forall i :: |old(workers)| <= i < |workers| ==>
        fresh(workers[i]) && workers[i].tasks == [] && workers[i].running
    {
      var n := 0;
      while n < count
        invariant 0 <= n <= count && Valid() && cursor == old(cursor)
        invariant |workers| == |old(workers)| + n && workers[..|old(workers)|] == old(workers)
        invariant forall i :: |old(workers)| <= i < |workers| ==>
          fresh(workers[i]) && workers[i].tasks == [] && workers[i].running
      {
        var w := new Worker();
        w.Run([]);
        workers := workers + [w];
        n := n + 1;
      }
    }

    /** Stops every worker's loop, then empties the pool. */
    method Stop()
      requires Valid()
      modifies this, workers
      ensures workers == [] && cursor == old(cursor)
      ensures forall i :: 0 <= i < |old(workers)| ==>
        !old(workers)[i].running && old(workers)[i].tasks == old(workers[i].tasks)
    {
      var i := 0;
      while i < |workers|
        invariant 0 <= i <= |workers| && workers == old(workers) && cursor == old(cursor)
        invariant forall j :: 0 <= j < i ==> !workers[j].running
        invariant forall j :: 0 <= j < |workers| ==> workers[j].tasks == old(workers[j].tasks)
      {
        workers[i].Stop();
        i := i + 1;
      }
      workers := [];
    }

    /** `find_thread`: the first worker with no task, or else the next one in
        round-robin order. */
    method FindThread() returns (k: nat)
      requires |workers| > 0
      modifies this`cursor
      ensures Choice(k, cursor) == Choose(Counts(), old(cursor))
    {
      var i := 0;
      while i < |workers|
        invariant 0 <= i <= |workers| && cursor == old(cursor)
        invariant forall j :: 0 <= j < i ==> |workers[j].tasks| != 0
      {
        var n := workers[i].Count();
        if n == 0 {
          assert FirstIdle(Counts()) == Some(i);
          return i;
        }
        i := i + 1;
      }
      assert FirstIdle(Counts()).None?;
      if cursor >= |workers| - 1 {
        cursor := 0;
      } else {
        cursor := cursor + 1;
      }
      k := cursor;
    }

    /** `ptr->scheduler.set_immediate(f)` on worker `k`: one immediate task
        more there, and no other worker changes. */
    method AddImmediate(k: nat, callback: CallbackId, now: int)
      requires Valid() && k < |workers|
      modifies workers[k]
      ensures Valid()
      ensures workers[k].tasks == old(workers[k].tasks) + [TaskCallback(old(workers[k].nextId), Oneshot, 0, callback, now)]
      ensures workers[k].running == old(workers[k].running) && workers[k].fired == old(workers[k].fired)
      ensures forall j :: 0 <= j < |workers| && j != k ==> unchanged(workers[j])
      ensures Counts() == old(Counts())[k := old(Counts())[k] + 1]
    {
      ghost var counts := Counts();
      var w := workers[k];
      assert forall j :: 0 <= j < |workers| && j != k ==> workers[j] != w;
      w.SetImmediate(callback, now);
      assert forall j :: 0 <= j < |workers| ==> Counts()[j] == counts[k := counts[k] + 1][j];
    }

    /** Adds one immediate task to the chosen worker, whose index is returned,
        and changes no other worker. */
    method SetImmediate(callback: CallbackId, now: int) returns (k: nat)
      requires Valid() && |workers| > 0
      modifies this`cursor, workers
      ensures Valid() && workers == old(workers)
      ensures Choice(k, cursor) == Choose(old(Counts()), old(cursor))
      ensures workers[k].tasks == old(workers[k].tasks) + [TaskCallback(old(workers[k].nextId), Oneshot, 0, callback, now)]
      ensures workers[k].running == old(workers[k].running) && workers[k].fired == old(workers[k].fired)
      ensures forall j :: 0 <= j < |workers| && j != k ==> unchanged(workers[j])
      ensures Counts() == old(Counts())[k := old(Counts())[k] + 1]
    {
      k := FindThread();
      // `found != _threads.end()`
      if k < |workers| {
        AddImmediate(k, callback, now);
      }
    }
  }

  /** The main thread's scheduler and its forwarding entry points. */
  class MainThread {
    const scheduler: Worker

    constructor ()
      ensures fresh(scheduler) && scheduler.Valid() && scheduler.tasks == [] && !scheduler.running
    {
      scheduler := new Worker();
    }

    method SetImmediate(callback: CallbackId, now: int)
      requires scheduler.Valid()
      modifies scheduler
      ensures scheduler.Valid()
      ensures scheduler.tasks == old(scheduler.tasks) + [TaskCallback(old(scheduler.nextId), Oneshot, 0, callback, now)]
      ensures scheduler.running == old(scheduler.running) && scheduler.fired == old(scheduler.fired)
    {
      scheduler.SetImmediate(callback, now);
    }

    method SetTimeout(interval: int, callback: CallbackId, now: int)
      requires scheduler.Valid()
      modifies scheduler
      ensures scheduler.Valid()
      ensures scheduler.tasks == old(scheduler.tasks) + [TaskCallback(old(scheduler.nextId), Oneshot, interval, callback, now + interval)]
      ensures scheduler.running == old(scheduler.running) && scheduler.fired == old(scheduler.fired)
    {
      scheduler.SetTimeout(interval, callback, now);
    }

    method SetInterval(interval: int, callback: CallbackId, now: int)
      requires scheduler.Valid()
      modifies scheduler
      ensures scheduler.Valid()
      ensures scheduler.tasks == old(scheduler.tasks) + [TaskCallback(old(scheduler.nextId), Periodic, interval, callback, now + interval)]
      ensures scheduler.running == old(scheduler.running) && scheduler.fired == old(scheduler.fired)
    {
      scheduler.SetInterval(interval, callback, now);
    }

    /** Runs the main loop once per clock reading in `clock`. */
    method Run(clock: seq<int>)
      requires scheduler.Valid()
      modifies scheduler
      ensures scheduler.Valid() && scheduler.running
      ensures scheduler.tasks == RunTasks(old(scheduler.tasks), clock).0
      ensures scheduler.fired == old(scheduler.fired) + RunTasks(old(scheduler.tasks), clock).1
    {
      scheduler.Run(clock);
    }
  }
}
