/**
 * components/task_scheduler: a table of at most 20 periodic callbacks,
 * each run when it is enabled and its next-run time has come.  The clock is
 * a parameter; running a callback is recorded in an event log.
 */
module TaskScheduler {

  import opened Wrappers
  import opened Esp

  const MaxTasks := 20
  const U32 := 0x1_0000_0000

  /** task_status_t with its numeric codes. */
  const StatusCompleted := 0
  const StatusFailed := 1
  const StatusRunning := 2
  const StatusPending := 3

  /** scheduled_task_t; the callback and its argument are represented by the callback's identity. */
  datatype Task = Task(id: nat, intervalMs: nat, callback: nat, lastRunMs: int, nextRunMs: int,
                       enabled: bool, status: int)

  /** What process reports: status events, when an event callback is set, around each callback run. */
  datatype Event = StatusEvent(id: nat, status: int) | Called(callback: nat)

  /** task_scheduler_status_to_string. */
  function StatusName(status: int): (s: string)
    ensures s == "UNKNOWN" <==> !(StatusCompleted <= status <= StatusPending)
  {
    if status == StatusCompleted then "COMPLETED"
    else if status == StatusFailed then "FAILED"
    else if status == StatusRunning then "RUNNING"
    else if status == StatusPending then "PENDING"
    else "UNKNOWN"
  }

  /** The four statuses have four different names. */
  lemma StatusNamesDistinct(a: int, b: int)
    requires StatusCompleted <= a <= StatusPending && StatusCompleted <= b <= StatusPending && a != b
    ensures StatusName(a) != StatusName(b)
  {
  }

  /** The task a new add_task entry holds: interval in ms (uint32 arithmetic), due now, enabled, pending. */
  function NewTask(id: nat, intervalS: nat, callback: nat, nowMs: int): (t: Task)
    requires intervalS < U32
    ensures t.enabled && t.status == StatusPending && t.nextRunMs == nowMs && t.lastRunMs == 0
    ensures intervalS * 1000 < U32 ==> t.intervalMs == intervalS * 1000
  {
    Task(id, (intervalS * 1000) % U32, callback, 0, nowMs, true, StatusPending)
  }

  predicate Due(t: Task, nowMs: int)
  {
    t.enabled && nowMs >= t.nextRunMs
  }

  /** One task after process at `nowMs`. */
  function Processed(t: Task, nowMs: int): (r: Task)
    ensures Due(t, nowMs) ==> r == t.(lastRunMs := nowMs, nextRunMs := nowMs + t.intervalMs, status := StatusCompleted)
    ensures !Due(t, nowMs) ==> r == t
  {
    if Due(t, nowMs) then t.(lastRunMs := nowMs, nextRunMs := nowMs + t.intervalMs, status := StatusCompleted) else t
  }

  /** The events one task produces in process. */
  function TaskEvents(t: Task, nowMs: int, notify: bool): seq<Event>
  {
    if !Due(t, nowMs) then []
    else (if notify then [StatusEvent(t.id, StatusRunning)] else [])
         + [Called(t.callback)]
         + (if notify then [StatusEvent(t.id, StatusCompleted)] else [])
  }

  /** The events of a whole pass over the table, in table order. */
  function PassEvents(ts: seq<Task>, nowMs: int, notify: bool): seq<Event>
    decreases |ts|
  {
    if |ts| == 0 then [] else PassEvents(ts[..|ts| - 1], nowMs, notify) + TaskEvents(ts[|ts| - 1], nowMs, notify)
  }

  /** One more task of the table adds its events at the end. */
  lemma PassEventsSnoc(ts: seq<Task>, i: nat, nowMs: int, notify: bool)
    requires i < |ts|
    ensures PassEvents(ts[..i + 1], nowMs, notify) == PassEvents(ts[..i], nowMs, notify) + TaskEvents(ts[i], nowMs, notify)
  {
    assert ts[..i + 1][..i] == ts[..i];
  }

  /** The table after a pass. */
  function Pass(ts: seq<Task>, nowMs: int): (r: seq<Task>)
    ensures |r| == |ts| && forall i :: 0 <= i < |ts| ==> r[i] == Processed(ts[i], nowMs)
  {
    seq(|ts|, i requires 0 <= i < |ts| => Processed(ts[i], nowMs))
  }

  /** The callbacks a pass runs, in table order. */
  function Calls(es: seq<Event>): seq<nat>
    decreases |es|
  {
    if |es| == 0 then [] else Calls(es[..|es| - 1]) + (if es[|es| - 1].Called? then [es[|es| - 1].callback] else [])
  }

  lemma {:induction false} CallsAppend(a: seq<Event>, b: seq<Event>)
    ensures Calls(a + b) == Calls(a) + Calls(b)
    decreases |b|
  {
    if |b| == 0 {
      assert a + b == a;
    } else {
      assert (a + b)[..|a + b| - 1] == a + b[..|b| - 1];
      CallsAppend(a, b[..|b| - 1]);
    }
  }

  /** The due tasks' callbacks, in table order. */
  function DueCallbacks(ts: seq<Task>, nowMs: int): seq<nat>
    decreases |ts|
  {
    if |ts| == 0 then []
    else DueCallbacks(ts[..|ts| - 1], nowMs) + (if Due(ts[|ts| - 1], nowMs) then [ts[|ts| - 1].callback] else [])
  }

  /** A pass calls exactly the due tasks' callbacks, once each, in table order, whether or not events are reported. */
  lemma {:induction false} PassCallsDueTasks(ts: seq<Task>, nowMs: int, notify: bool)
    ensures Calls(PassEvents(ts, nowMs, notify)) == DueCallbacks(ts, nowMs)
    decreases |ts|
  {
    if |ts| > 0 {
      var t := ts[|ts| - 1];
      PassCallsDueTasks(ts[..|ts| - 1], nowMs, notify);
      CallsAppend(PassEvents(ts[..|ts| - 1], nowMs, notify), TaskEvents(t, nowMs, notify));
      if Due(t, nowMs) {
        var pre := if notify then [StatusEvent(t.id, StatusRunning)] else [];
        var post := if notify then [StatusEvent(t.id, StatusCompleted)] else [];
        CallsAppend(pre + [Called(t.callback)], post);
        CallsAppend(pre, [Called(t.callback)]);
        assert Calls(pre) == [] && Calls(post) == [];
        assert Calls([Called(t.callback)]) == Calls([]) + [t.callback];
      }
    }
  }

  /** With positive intervals, a second pass at the same time runs nothing and changes nothing. */
  lemma SecondPassIsIdle(ts: seq<Task>, nowMs: int)
    requires forall i :: 0 <= i < |ts| ==> ts[i].intervalMs > 0
    ensures Pass(Pass(ts, nowMs), nowMs) == Pass(ts, nowMs)
    ensures forall i :: 0 <= i < |ts| ==> !Due(Pass(ts, nowMs)[i], nowMs)
  {
    var p := Pass(ts, nowMs);
    forall i | 0 <= i < |ts|
      ensures !Due(p[i], nowMs)
    {
    }
  }

  /** The loop of task_scheduler_process over the first n entries of the table. */
  method RunPass(a: array<Task>, n: nat, nowMs: int, notify: bool) returns (log: seq<Event>)
    requires n <= a.Length
    modifies a
    ensures a[..n] == Pass(old(a[..n]), nowMs)
    ensures log == PassEvents(old(a[..n]), nowMs, notify)
  {
    ghost var before := a[..n];
    log := [];
    var i := 0;
    while i < n
      invariant 0 <= i <= n
      invariant forall j :: 0 <= j < i ==> a[j] == Processed(before[j], nowMs)
      invariant forall j :: i <= j < n ==> a[j] == before[j]
      invariant log == PassEvents(before[..i], nowMs, notify)
    {
      var t := a[i];
      PassEventsSnoc(before, i, nowMs, notify);
      log := log + TaskEvents(t, nowMs, notify);
      a[i] := Processed(t, nowMs);
      i := i + 1;
    }
    assert before[..n] == before;
    assert a[..n] == Pass(before, nowMs);
  }

  class Scheduler {
    const table: array<Task>
    var count: nat
    var running: bool
    var notify: bool
    var events: seq<Event>

    predicate Valid()
      reads this
    {
      table.Length == MaxTasks && count <= MaxTasks
    }

    function Tasks(): seq<Task>
      requires Valid()
      reads this, table
    {
      table[..count]
    }

    /** task_scheduler_init. */
    constructor()
      ensures Valid() && Tasks() == [] && !running && !notify && events == []
    {
      table := new Task[MaxTasks](_ => Task(0, 0, 0, 0, 0, false, StatusCompleted));
      count := 0;
      running := false;
      notify := false;
      events := [];
    }

    method Start() returns (err: Err)
      modifies this
      ensures err == Ok && running && count == old(count) && notify == old(notify) && events == old(events)
    {
      running := true;
      return Ok;
    }

    method Stop() returns (err: Err)
      modifies this
      ensures err == Ok && !running && count == old(count) && notify == old(notify) && events == old(events)
    {
      running := false;
      return Ok;
    }

    /** task_scheduler_set_event_callback: None clears it. */
    method SetEventCallback(set_: bool)
      modifies this
      ensures notify == set_ && running == old(running) && count == old(count) && events == old(events)
    {
      notify := set_;
    }

    /** task_scheduler_add_task: a NULL callback is None. */
    method AddTask(id: nat, intervalS: nat, callback: Option<nat>, nowMs: int) returns (err: Err)
      requires Valid() && intervalS < U32
      modifies this, table
      ensures Valid()
      ensures callback.None? ==> err == ErrInvalidArg && Tasks() == old(Tasks())
      ensures callback.Some? && old(count) >= MaxTasks ==> err == ErrNoMem && Tasks() == old(Tasks())
      ensures callback.Some? && old(count) < MaxTasks ==>
        err == Ok && Tasks() == old(Tasks()) + [NewTask(id, intervalS, callback.value, nowMs)]
      ensures running == old(running) && notify == old(notify) && events == old(events)
    {
      if callback.None? {
        return ErrInvalidArg;
      }
      if count >= MaxTasks {
        return ErrNoMem;
      }
      table[count] := NewTask(id, intervalS, callback.value, nowMs);
      count := count + 1;
      return Ok;
    }

    /** task_scheduler_process: nothing while stopped; otherwise one pass over the table. */
    method Process(nowMs: int) returns (err: Err)
      requires Valid()
      modifies this, table
      ensures Valid() && err == Ok
      ensures !old(running) ==> Tasks() == old(Tasks()) && events == old(events)
      ensures old(running) ==>
        Tasks() == Pass(old(Tasks()), nowMs) && events == old(events) + PassEvents(old(Tasks()), nowMs, notify)
      ensures count == old(count) && running == old(running) && notify == old(notify)
    {
      if !running {
        return Ok;
      }
      var log := RunPass(table, count, nowMs, notify);
      events := events + log;
      return Ok;
    }
  }
}
