/**
 * Tasks, wakers and the executor's ready queue (`TaskQueue`, `ArcWake for Task`
 * and the no-op waker used for the entry future of `block_on`).
 *
 * A task is identified by a number: the `Arc<Task>` handles that the queue and
 * the wakers share stand for the same allocation exactly when their ids agree.
 */
module Tasks {
  import opened Io

  type TaskId = nat

  /**
   * A waker is either bound to a task (waking it pushes the task onto the queue
   * of the running executor) or the no-op waker that `block_on` gives its entry
   * future.
   */
  datatype Waker = Noop | TaskWaker(task: TaskId)

  /** The task ids that invoking the wakers `ws`, in order, pushes onto the queue. */
  function WokenTasks(ws: seq<Waker>): (ids: seq<TaskId>)
    ensures |ids| <= |ws|
    ensures ws == [] ==> ids == []
    ensures forall i :: 0 <= i < |ids| ==> TaskWaker(ids[i]) in ws
    decreases |ws|
  {
    if ws == [] then []
    else
      var rest := WokenTasks(ws[..|ws| - 1]);
      match ws[|ws| - 1]
      case Noop => rest
      case TaskWaker(id) => rest + [id]
  }

  /** Waking is a homomorphism from sequences of wakers to sequences of pushes. */
  lemma {:induction false} WokenTasksAppend(ws: seq<Waker>, vs: seq<Waker>)
    ensures WokenTasks(ws + vs) == WokenTasks(ws) + WokenTasks(vs)
    decreases |vs|
  {
    if vs == [] {
      assert ws + vs == ws;
    } else {
      var front := vs[..|vs| - 1];
      assert (ws + vs)[..|ws + vs| - 1] == ws + front;
      assert vs[..|vs| - 1] == front;
      WokenTasksAppend(ws, front);
    }
  }

  /** Only task wakers push: the no-op waker leaves no trace in the queue. */
  lemma {:induction false} WokenTasksOfTaskWakers(ws: seq<Waker>)
    requires forall i :: 0 <= i < |ws| ==> ws[i].TaskWaker?
    ensures |WokenTasks(ws)| == |ws|
    ensures forall i :: 0 <= i < |ws| ==> WokenTasks(ws)[i] == ws[i].task
    decreases |ws|
  {
    if ws != [] {
      WokenTasksOfTaskWakers(ws[..|ws| - 1]);
    }
  }

  /** `TaskQueue`: the FIFO of tasks that are ready to be polled. */
  class TaskQueue {
    /** The queued task handles, oldest first (the `VecDeque` behind the `RefCell`). */
    var queue: seq<TaskId>
    /** The initial capacity hint; it bounds nothing. */
    const capacity: nat

    /** `TaskQueue::new`, with the default capacity of 4096 handles. */
    constructor ()
      ensures queue == [] && capacity == 4096
    {
      queue := [];
      capacity := 4096;
    }

    /** `TaskQueue::new_with_capacity`. */
    constructor WithCapacity(capacity: nat)
      ensures queue == [] && this.capacity == capacity
    {
      queue := [];
      this.capacity := capacity;
    }

    /** `push`: append at the back; never fails, never blocks. */
    method Push(task: TaskId)
      modifies this
      ensures queue == old(queue) + [task]
    {
      queue := queue + [task];
    }

    /** `pop`: remove and return the oldest handle, or `None` (and no change) when empty. */
    method Pop() returns (r: Option<TaskId>)
      modifies this
      ensures old(queue) == [] ==> r == None && queue == old(queue)
      ensures old(queue) != [] ==> r == Some(old(queue)[0]) && queue == old(queue)[1..]
      ensures r.Some? ==> old(queue) == [r.value] + queue
    {
      if queue == [] {
        r := None;
      } else {
        r := Some(queue[0]);
        queue := queue[1..];
      }
    }
  }

  /**
   * Invoking a waker: a task waker runs `Task::wake_by_ref`, which pushes a clone of
   * the task's handle onto the queue of the running executor (given here
   * explicitly); the no-op waker does nothing.
   */
  method Wake(w: Waker, tasks: TaskQueue)
    modifies tasks
    ensures tasks.queue == old(tasks.queue) + WokenTasks([w])
    ensures w.TaskWaker? ==> tasks.queue == old(tasks.queue) + [w.task]
    ensures w.Noop? ==> tasks.queue == old(tasks.queue)
  {
    assert [w][..0] == [];
    match w {
      case Noop =>
      case TaskWaker(id) => tasks.Push(id);
    }
  }
}
