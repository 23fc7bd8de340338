/**
 * The single-threaded task loop (`Worker`, worker.h and worker.cpp).
 *
 * A worker keeps a list of tasks; each task has a kind (one-shot or
 * periodic), an interval and a deadline. One iteration of the run loop picks
 * the first task with the smallest deadline, fires it if the clock has
 * reached that deadline, and then reschedules it (periodic) or removes it
 * (one-shot). The clock is an integer tick count passed in by the caller;
 * the condition-variable wait between iterations is not modelled.
 */
module Workers {
  import opened Wrappers

  /** The kind of a scheduled task. */
  datatype TaskType = Oneshot | Periodic

  /** An opaque task callback: only its invocations are observed. */
  type CallbackId = nat

  /** The identity of a task object (the tasks are shared pointers, compared by address). */
  type TaskId = nat

  /** A scheduled task. Nothing but `Reschedule` changes a task, and it
      changes only the deadline. */
  datatype TaskCallback = TaskCallback(id: TaskId, kind: TaskType, interval: int, callback: CallbackId, deadline: int)
  {
    /** The task due one interval after `now`. */
    function Reschedule(now: int): (t: TaskCallback)
      ensures t.deadline == now + interval
      ensures t.(deadline := deadline) == this
    {
      this.(deadline := now + interval)
    }
  }

  /** A new task: made with any deadline, then rescheduled from its creation time `now`. */
  function NewTask(id: TaskId, kind: TaskType, interval: int, callback: CallbackId, now: int): (t: TaskCallback)
    ensures t == TaskCallback(id, kind, interval, callback, now + interval)
  {
    TaskCallback(id, kind, interval, callback, 0).Reschedule(now)
  }

  /** The next deadline does not depend on the previous one. */
  lemma RescheduleForgetsDeadline(t: TaskCallback, d: int, now: int)
    ensures t.(deadline := d).Reschedule(now) == t.Reschedule(now)
  {
  }

  /** One execution of a task callback: which callback ran, the deadline it
      was due at, and the clock reading `at` sampled before it ran. */
  datatype Firing = Firing(callback: CallbackId, deadline: int, at: int)

  // ---------------------------------------------------------------------
  // Specification of the run loop on task lists
  // ---------------------------------------------------------------------

  /** `k` is what `min_element` returns for the deadline order: a task with
      the smallest deadline, and the first one among equals. */
  ghost predicate IsFirstMin(ts: seq<TaskCallback>, k: nat) {
    && k < |ts|
    && (forall j :: 0 <= j < |ts| ==> ts[k].deadline <= ts[j].deadline)
    && (forall j :: 0 <= j < k ==> ts[k].deadline < ts[j].deadline)
  }

  /** The position of the task the loop selects (a left-to-right scan that
      moves on only to a strictly smaller deadline). */
  function SelectIndex(ts: seq<TaskCallback>): (k: nat)
    requires |ts| > 0
    ensures IsFirstMin(ts, k)
  {
    if |ts| == 1 then 0
    else
      var k := SelectIndex(ts[..|ts| - 1]);
      if ts[|ts| - 1].deadline < ts[k].deadline then |ts| - 1 else k
  }

  /** The first minimum is unique. */
  lemma FirstMinUnique(ts: seq<TaskCallback>, k1: nat, k2: nat)
    requires IsFirstMin(ts, k1) && IsFirstMin(ts, k2)
    ensures k1 == k2
  {
    assert ts[k1].deadline <= ts[k2].deadline;
    assert ts[k2].deadline <= ts[k1].deadline;
  }

  /** The outcome of one loop iteration: the new task list and the firing, if any. */
  datatype StepResult = StepResult(tasks: seq<TaskCallback>, fired: Option<Firing>)

  /** One iteration of the run loop at clock reading `now`. */
  function StepTasks(ts: seq<TaskCallback>, now: int): StepResult
  {
    if |ts| == 0 then StepResult(ts, None)
    else
      var k := SelectIndex(ts);
      var t := ts[k];
      if now >= t.deadline then
        var rest := if t.kind == Periodic then ts[k := t.Reschedule(now)] else ts[..k] + ts[k + 1..];
        StepResult(rest, Some(Firing(t.callback, t.deadline, now)))
      else
        StepResult(ts, None)
  }

  /** What one iteration does to the task list. */
  lemma {:induction false} StepTasksSpec(ts: seq<TaskCallback>, now: int, r: StepResult)
    requires r == StepTasks(ts, now)
    // something fires exactly when there is a task and the selected one is due
    ensures r.fired.Some? <==> |ts| > 0 && ts[SelectIndex(ts)].deadline <= now
    // a task that is not due, or no task at all, leaves the list unchanged
    ensures r.fired.None? ==> r.tasks == ts
    // what fires is the selected minimum-deadline task, at time `now`
    ensures r.fired.Some? ==>
      var k := SelectIndex(ts);
      && r.fired.value == Firing(ts[k].callback, ts[k].deadline, now)
      && (forall j :: 0 <= j < |ts| ==> r.fired.value.deadline <= ts[j].deadline)
    // a fired one-shot task is removed; the others keep their relative order
    ensures r.fired.Some? && ts[SelectIndex(ts)].kind == Oneshot ==>
      var k := SelectIndex(ts);
      && |r.tasks| == |ts| - 1
      && (forall i :: 0 <= i < k ==> r.tasks[i] == ts[i])
      && (forall i :: k <= i < |r.tasks| ==> r.tasks[i] == ts[i + 1])
    // a fired periodic task stays in place with deadline `now + interval`
    ensures r.fired.Some? && ts[SelectIndex(ts)].kind == Periodic ==>
      var k := SelectIndex(ts);
      && |r.tasks| == |ts|
      && r.tasks[k] == ts[k].(deadline := now + ts[k].interval)
      && (forall i :: 0 <= i < |ts| && i != k ==> r.tasks[i] == ts[i])
  {
    if |ts| > 0 {
      var k := SelectIndex(ts);
      var t := ts[k];
      var f := Firing(t.callback, t.deadline, now);
      if now < t.deadline {
        assert r == StepResult(ts, None);
      } else if t.kind == Periodic {
        assert r == StepResult(ts[k := t.Reschedule(now)], Some(f));
      } else {
        var rest := ts[..k] + ts[k + 1..];
        assert r == StepResult(rest, Some(f));
        forall i | k <= i < |rest|
          ensures rest[i] == ts[i + 1]
        {
          assert rest[i] == ts[k + 1..][i - k];
        }
      }
    }
  }

  /** The firing of one step as a (possibly empty) list. */
  function FiredList(f: Option<Firing>): seq<Firing> {
    if f.Some? then [f.value] else []
  }

  /** The loop run once per clock reading in `clock`, with no task added from
      outside: the final task list and every firing, in order. */
  function RunTasks(ts: seq<TaskCallback>, clock: seq<int>): (r: (seq<TaskCallback>, seq<Firing>))
    ensures |r.1| <= |clock|
    decreases |clock|
  {
    if clock == [] then (ts, [])
    else
      var s := StepTasks(ts, clock[0]);
      var rest := RunTasks(s.tasks, clock[1..]);
      (rest.0, FiredList(s.fired) + rest.1)
  }

  /** `RunTasks` with the firings appended to `acc` as they happen. */
  function RunFrom(ts: seq<TaskCallback>, clock: seq<int>, acc: seq<Firing>): (seq<TaskCallback>, seq<Firing>)
    decreases |clock|
  {
    if clock == [] then (ts, acc)
    else
      var s := StepTasks(ts, clock[0]);
      RunFrom(s.tasks, clock[1..], acc + FiredList(s.fired))
  }

  /** Accumulating the firings gives the same run. */
  lemma {:induction false} RunFromIsRun(ts: seq<TaskCallback>, clock: seq<int>, acc: seq<Firing>)
    ensures RunFrom(ts, clock, acc) == (RunTasks(ts, clock).0, acc + RunTasks(ts, clock).1)
    decreases |clock|
  {
    if clock != [] {
      var s := StepTasks(ts, clock[0]);
      RunFromIsRun(s.tasks, clock[1..], acc + FiredList(s.fired));
      var later := RunTasks(s.tasks, clock[1..]).1;
      assert (acc + FiredList(s.fired)) + later == acc + (FiredList(s.fired) + later);
    } else {
      assert acc + [] == acc;
    }
  }

  ghost predicate DeadlinesAtLeast(ts: seq<TaskCallback>, lo: int) {
    forall i :: 0 <= i < |ts| ==> lo <= ts[i].deadline
  }

  ghost predicate IntervalsNonNegative(ts: seq<TaskCallback>) {
    forall i :: 0 <= i < |ts| ==> 0 <= ts[i].interval
  }

  ghost predicate DeadlinesNondecreasing(fs: seq<Firing>) {
    forall i, j :: 0 <= i < j < |fs| ==> fs[i].deadline <= fs[j].deadline
  }

  /** After a step, every pending deadline is at least the deadline that fired:
      the fired task was a minimum, and its new deadline `now + interval` is
      at least `now`, which is at least its old deadline. */
  lemma {:induction false} StepRaisesFloor(ts: seq<TaskCallback>, now: int, lo: int)
    requires DeadlinesAtLeast(ts, lo) && IntervalsNonNegative(ts)
    ensures var s := StepTasks(ts, now);
      && IntervalsNonNegative(s.tasks)
      && (s.fired.None? ==> DeadlinesAtLeast(s.tasks, lo))
      && (s.fired.Some? ==> lo <= s.fired.value.deadline <= now
                            && DeadlinesAtLeast(s.tasks, s.fired.value.deadline))
  {
    var s := StepTasks(ts, now);
    StepTasksSpec(ts, now, s);
    if s.fired.Some? {
      var k := SelectIndex(ts);
      assert lo <= ts[k].deadline;
      if ts[k].kind == Oneshot {
        forall i | 0 <= i < |s.tasks|
          ensures s.fired.value.deadline <= s.tasks[i].deadline && 0 <= s.tasks[i].interval
        {
          if i < k { assert s.tasks[i] == ts[i]; } else { assert s.tasks[i] == ts[i + 1]; }
        }
      }
    }
  }

  /** Every firing of a run is at or above `lo`, no earlier than its deadline,
      and the firings' deadlines never decrease. */
  lemma {:induction false} RunFloor(ts: seq<TaskCallback>, clock: seq<int>, lo: int)
    requires DeadlinesAtLeast(ts, lo) && IntervalsNonNegative(ts)
    ensures var fs := RunTasks(ts, clock).1;
      && DeadlinesNondecreasing(fs)
      && (forall i :: 0 <= i < |fs| ==> lo <= fs[i].deadline <= fs[i].at)
    decreases |clock|
  {
    if clock != [] {
      var s := StepTasks(ts, clock[0]);
      StepRaisesFloor(ts, clock[0], lo);
      var lo' := if s.fired.Some? then s.fired.value.deadline else lo;
      RunFloor(s.tasks, clock[1..], lo');
      var rest := RunTasks(s.tasks, clock[1..]).1;
      var head := FiredList(s.fired);
      assert RunTasks(ts, clock).1 == head + rest;
      assert forall i :: 0 <= i < |head| ==> lo <= head[i].deadline <= head[i].at && head[i].deadline == lo';
    }
  }

  /** With no task added from outside and no negative interval, successive
      fired deadlines are nondecreasing, and each task fires no earlier than
      its deadline. */
  lemma FiredDeadlinesNondecreasing(ts: seq<TaskCallback>, clock: seq<int>)
    requires IntervalsNonNegative(ts)
    ensures DeadlinesNondecreasing(RunTasks(ts, clock).1)
    ensures forall f :: f in RunTasks(ts, clock).1 ==> f.deadline <= f.at
  {
    var lo := if |ts| > 0 then ts[SelectIndex(ts)].deadline else 0;
    RunFloor(ts, clock, lo);
  }

  /** A step never changes a task's identity, kind, interval or callback:
      every task afterwards is a task from before with at most its deadline changed. */
  lemma {:induction false} StepKeepsIdentity(ts: seq<TaskCallback>, now: int)
    ensures var r := StepTasks(ts, now).tasks;
      forall i :: 0 <= i < |r| ==> exists j :: 0 <= j < |ts| && r[i].(deadline := ts[j].deadline) == ts[j]
  {
    var s := StepTasks(ts, now);
    StepTasksSpec(ts, now, s);
    forall i | 0 <= i < |s.tasks|
      ensures exists j :: 0 <= j < |ts| && s.tasks[i].(deadline := ts[j].deadline) == ts[j]
    {
      if s.fired.None? {
        assert s.tasks[i] == ts[i];
      } else {
        var k := SelectIndex(ts);
        if ts[k].kind == Periodic || i < k {
          assert s.tasks[i].(deadline := ts[i].deadline) == ts[i];
        } else {
          assert s.tasks[i] == ts[i + 1];
        }
      }
    }
  }

  /** One of the tasks has identity `id`. */
  ghost predicate HasTask(ts: seq<TaskCallback>, id: TaskId) {
    exists i :: 0 <= i < |ts| && ts[i].id == id
  }

  /** The position of the first task with identity `id` (what `std::find` returns). */
  function FirstIndex(ts: seq<TaskCallback>, id: TaskId): (i: nat)
    requires HasTask(ts, id)
    ensures i < |ts| && ts[i].id == id
    ensures forall j :: 0 <= j < i ==> ts[j].id != id
  {
    if ts[0].id == id then 0
    else
      assert HasTask(ts[1..], id) by {
        var i :| 0 <= i < |ts| && ts[i].id == id;
        assert ts[1..][i - 1].id == id;
      }
      FirstIndex(ts[1..], id) + 1
  }

  // ---------------------------------------------------------------------
  // The worker
  // ---------------------------------------------------------------------

  class Worker {
    var tasks: seq<TaskCallback>
    var running: bool
    /** Every task callback executed so far, in order. */
    var fired: seq<Firing>
    /** Source of fresh task identities. */
    var nextId: TaskId

    /** Each task is in the list at most once, and every identity is below `nextId`. */
    ghost predicate Valid()
      reads this
    {
      && (forall i, j :: 0 <= i < j < |tasks| ==> tasks[i].id != tasks[j].id)
      && (forall i :: 0 <= i < |tasks| ==> tasks[i].id < nextId)
    }

    /** A new worker has no task and is not running. */
    constructor ()
      ensures Valid() && tasks == [] && !running && fired == []
    {
      tasks := [];
      running := false;
      fired := [];
      nextId := 0;
    }

    /** Appends one new task at the end of the list; the tasks already there
        and their order are unchanged. */
    method Schedule(kind: TaskType, interval: int, callback: CallbackId, now: int)
      requires Valid()
      modifies this
      ensures Valid()
      ensures tasks == old(tasks) + [TaskCallback(old(nextId), kind, interval, callback, now + interval)]
      ensures running == old(running) && fired == old(fired)
    {
      var task := NewTask(nextId, kind, interval, callback, now);
      nextId := nextId + 1;
      tasks := tasks + [task];
    }

    /** A one-shot task with interval 0: due at the time it is scheduled. */
    method SetImmediate(callback: CallbackId, now: int)
      requires Valid()
      modifies this
      ensures Valid()
      ensures tasks == old(tasks) + [TaskCallback(old(nextId), Oneshot, 0, callback, now)]
      ensures running == old(running) && fired == old(fired)
    {
      Schedule(Oneshot, 0, callback, now);
    }

    /** A one-shot task due `interval` after `now`. */
    method SetTimeout(interval: int, callback: CallbackId, now: int)
      requires Valid()
      modifies this
      ensures Valid()
      ensures tasks == old(tasks) + [TaskCallback(old(nextId), Oneshot, interval, callback, now + interval)]
      ensures running == old(running) && fired == old(fired)
    {
      Schedule(Oneshot, interval, callback, now);
    }

    /** A periodic task first due `interval` after `now`. */
    method SetInterval(interval: int, callback: CallbackId, now: int)
      requires Valid()
      modifies this
      ensures Valid()
      ensures tasks == old(tasks) + [TaskCallback(old(nextId), Periodic, interval, callback, now + interval)]
      ensures running == old(running) && fired == old(fired)
    {
      Schedule(Periodic, interval, callback, now);
    }

    /** The number of pending tasks. */
    method Count() returns (n: nat)
      ensures n == |tasks|
    {
      n := |tasks|;
    }

    /** The task the loop picks: none when the list is empty, otherwise the
        first task with the smallest deadline. */
    method SelectTask() returns (k: Option<nat>)
      ensures k.None? <==> tasks == []
      ensures k.Some? ==> IsFirstMin(tasks, k.value) && k.value == SelectIndex(tasks)
    {
      if |tasks| == 0 {
        return None;
      }
      var best := 0;
      var i := 1;
      while i < |tasks|
        invariant 1 <= i <= |tasks| && best < i
        invariant forall j :: 0 <= j < i ==> tasks[best].deadline <= tasks[j].deadline
        invariant forall j :: 0 <= j < best ==> tasks[best].deadline < tasks[j].deadline
      {
        if tasks[i].deadline < tasks[best].deadline {
          best := i;
        }
        i := i + 1;
      }
      FirstMinUnique(tasks, best, SelectIndex(tasks));
      return Some(best);
    }

    /** Runs the task's callback; the callback itself is opaque and its run
        is recorded, with the deadline it was due at and the clock reading. */
    method Execute(task: TaskCallback, now: int)
      modifies this`fired
      ensures fired == old(fired) + [Firing(task.callback, task.deadline, now)]
    {
      fired := fired + [Firing(task.callback, task.deadline, now)];
    }

    /** Removes the first task with the identity of `task`; nothing happens
        when there is none. */
    method CancelTask(task: TaskCallback)
      requires Valid()
      modifies this`tasks
      ensures Valid()
      ensures HasTask(old(tasks), task.id) ==>
        var i := FirstIndex(old(tasks), task.id);
        tasks == old(tasks)[..i] + old(tasks)[i + 1..]
      ensures !HasTask(old(tasks), task.id) ==> tasks == old(tasks)
    {
      var i := 0;
      while i < |tasks| && tasks[i].id != task.id
        invariant 0 <= i <= |tasks|
        invariant forall j :: 0 <= j < i ==> tasks[j].id != task.id
      {
        i := i + 1;
      }
      if i < |tasks| {
        assert FirstIndex(tasks, task.id) == i;
        ghost var before := tasks;
        tasks := tasks[..i] + tasks[i + 1..];
        forall a, b | 0 <= a < b < |tasks| ensures tasks[a].id != tasks[b].id {
          var a', b' := if a < i then a else a + 1, if b < i then b else b + 1;
          assert tasks[a] == before[a'] && tasks[b] == before[b'];
        }
        forall a | 0 <= a < |tasks| ensures tasks[a].id < nextId {
          assert tasks[a] == before[if a < i then a else a + 1];
        }
      }
    }

    /** One check of the loop condition followed by one loop body, with the
        clock reading `now` sampled after the wait. A stopped worker does nothing. */
    method Step(now: int)
      requires Valid()
      modifies this
      ensures Valid() && running == old(running) && nextId == old(nextId)
      ensures old(running) ==>
        && tasks == StepTasks(old(tasks), now).tasks
        && fired == old(fired) + FiredList(StepTasks(old(tasks), now).fired)
      ensures !old(running) ==> tasks == old(tasks) && fired == old(fired)
    {
      if !running {
        return;
      }
      var k := SelectTask();
      if k.None? {
        // no task: the loop blocks until it is signalled
        return;
      }
      var idx := k.value;
      var task := tasks[idx];
      ghost var r := StepTasks(tasks, now);
      ghost var f := Firing(task.callback, task.deadline, now);
      if now >= task.deadline {
        Execute(task, now);
        if task.kind == Periodic {
          assert r == StepResult(tasks[idx := task.Reschedule(now)], Some(f));
          tasks := tasks[idx := task.Reschedule(now)];
          assert Valid() by {
            forall a | 0 <= a < |tasks| ensures tasks[a].id == old(tasks)[a].id { }
          }
        } else {
          assert r == StepResult(tasks[..idx] + tasks[idx + 1..], Some(f));
          CancelTask(task);
          assert FirstIndex(old(tasks), task.id) == idx;
        }
      } else {
        assert r == StepResult(tasks, None);
      }
    }

    /** Stops the loop: it exits at its next check of the running flag. */
    method Stop()
      modifies this`running
      ensures !running
    {
      running := false;
    }

    /** Raises the running flag and runs the loop once per clock reading in
        `clock`; no task is added from outside meanwhile. */
    method Run(clock: seq<int>)
      requires Valid()
      modifies this
      ensures Valid() && running && nextId == old(nextId)
      ensures tasks == RunTasks(old(tasks), clock).0
      ensures fired == old(fired) + RunTasks(old(tasks), clock).1
    {
      running := true;
      var i := 0;
      RunFromIsRun(tasks, clock, fired);
      while running && i < |clock|
        invariant 0 <= i <= |clock| && running && Valid() && nextId == old(nextId)
        invariant RunFrom(tasks, clock[i..], fired) == RunFrom(old(tasks), clock, old(fired))
      {
        assert clock[i..][1..] == clock[i + 1..];
        Step(clock[i]);
        i := i + 1;
      }
      assert clock[i..] == [];
    }
  }
}
