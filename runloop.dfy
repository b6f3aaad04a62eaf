/**
 * What `Executor::block_on` promises about the order of its work, stated on the
 * trace of what it did. `Next` is the one-step rule of the run loop:
 *
 *   - each round starts by polling the entry future; if it is ready, the loop ends;
 *   - otherwise queued tasks are popped and polled, oldest first, until the queue
 *     is empty (a task whose lock is held ends the loop with "Cannot lock");
 *   - only then does the loop wait on the reactor; a failed wait ends the loop,
 *     a successful one starts the next round.
 *
 * `Run` folds `Next` over a whole trace; `Executors.Executor.BlockOn` is proved to
 * produce only traces that `Run` accepts.
 */
module RunLoop {
  import opened Io
  import opened Tasks
  import opened Reactors

  /**
   * One step of the run loop, with the task ids it pushed onto the queue. A poll
   * also records the first fresh id a task it spawns could get (`firstId`), a
   * task poll which poll of that task it was, and a wait the waker table it
   * started from; these tie the step to what produced it.
   */
  datatype Action<T> =
    | EntryPolled(poll: Poll<T>, pushed: seq<TaskId>, firstId: nat)
    | TaskPolled(task: TaskId, pushed: seq<TaskId>, pollIndex: nat, firstId: nat)
    | LockFailed(task: TaskId)
    | Waited(result: Result<()>, woken: seq<TaskId>, before: map<Key, Waker>)

  /** Where the loop is: about to poll the entry future, draining the queue, or done. */
  datatype Phase = Polling | Draining | Finished

  datatype Config = Config(queue: seq<TaskId>, phase: Phase)

  /** The error of a task whose lock cannot be taken. */
  const CannotLockError: IoError := IoError(Other, "Cannot lock")

  /** What `block_on` returns when `a` is its last step, if `a` ends the loop. */
  function Verdict<T>(a: Action<T>): Option<Result<T>> {
    match a
    case EntryPolled(p, _, _) => if p.Ready? then Some(Ok(p.value)) else None
    case TaskPolled(_, _, _, _) => None
    case LockFailed(_) => Some(Err(CannotLockError))
    case Waited(r, _, _) => if r.Err? then Some(Err(r.error)) else None
  }

  /** The run loop's step rule; `None` when the loop cannot take step `a` in `c`. */
  function Next<T>(locked: set<TaskId>, c: Config, a: Action<T>): (r: Option<Config>)
    ensures r.Some? ==> c.phase != Finished
    ensures r.Some? ==> (r.value.phase == Finished <==> Verdict(a).Some?)
    ensures r.Some? ==> (a.EntryPolled? <==> c.phase == Polling)
    ensures r.Some? && (a.TaskPolled? || a.LockFailed?) ==>
      c.queue != [] && c.queue[0] == a.task && (a.LockFailed? <==> a.task in locked)
    ensures r.Some? && a.Waited? ==> c.queue == [] && r.value.queue == a.woken
    ensures r.Some? && a.TaskPolled? ==> r.value.queue == c.queue[1..] + a.pushed
  {
    match a
    case EntryPolled(p, pushed, _) =>
      if c.phase == Polling then Some(Config(c.queue + pushed, if p.Ready? then Finished else Draining))
      else None
    case TaskPolled(id, pushed, _, _) =>
      if c.phase == Draining && c.queue != [] && c.queue[0] == id && id !in locked
      then Some(Config(c.queue[1..] + pushed, Draining))
      else None
    case LockFailed(id) =>
      if c.phase == Draining && c.queue != [] && c.queue[0] == id && id in locked
      then Some(Config(c.queue[1..], Finished))
      else None
    case Waited(res, woken, _) =>
      if c.phase == Draining && c.queue == [] then Some(Config(woken, if res.Ok? then Polling else Finished))
      else None
  }

  /** The configuration after the steps `t` from `c`, or `None` if the loop could not take them. */
  function Run<T>(locked: set<TaskId>, c: Config, t: seq<Action<T>>): Option<Config>
    decreases |t|
  {
    if t == [] then Some(c)
    else
      var p := Run(locked, c, t[..|t| - 1]);
      if p.None? then None else Next(locked, p.value, t[|t| - 1])
  }

  /** The ids of the tasks polled in `t`, in order. */
  function PolledIds<T>(t: seq<Action<T>>): seq<TaskId>
    decreases |t|
  {
    if t == [] then []
    else
      var a := t[|t| - 1];
      PolledIds(t[..|t| - 1]) + if a.TaskPolled? then [a.task] else []
  }

  /** The ids the task polls in `t` pushed, in order. */
  function TaskPushes<T>(t: seq<Action<T>>): seq<TaskId>
    decreases |t|
  {
    if t == [] then []
    else
      var a := t[|t| - 1];
      TaskPushes(t[..|t| - 1]) + if a.TaskPolled? then a.pushed else []
  }

  /** The polls of the entry future in `t`, in order. */
  function EntryPolls<T>(t: seq<Action<T>>): seq<Action<T>>
    decreases |t|
  {
    if t == [] then []
    else
      var a := t[|t| - 1];
      EntryPolls(t[..|t| - 1]) + if a.EntryPolled? then [a] else []
  }

  /** The waits on the reactor in `t`, in order. */
  function Waits<T>(t: seq<Action<T>>): seq<Action<T>>
    decreases |t|
  {
    if t == [] then []
    else
      var a := t[|t| - 1];
      Waits(t[..|t| - 1]) + if a.Waited? then [a] else []
  }

  lemma RunAppend<T>(locked: set<TaskId>, c: Config, t: seq<Action<T>>, a: Action<T>)
    ensures var p := Run(locked, c, t);
      Run(locked, c, t + [a]) == if p.None? then None else Next(locked, p.value, a)
    ensures EntryPolls(t + [a]) == EntryPolls(t) + (if a.EntryPolled? then [a] else [])
    ensures Waits(t + [a]) == Waits(t) + (if a.Waited? then [a] else [])
    ensures PolledIds(t + [a]) == PolledIds(t) + (if a.TaskPolled? then [a.task] else [])
  {
    assert (t + [a])[..|t + [a]| - 1] == t;
  }

  /** Taking the steps `t + u` is taking `t` and then `u` from where `t` left the loop. */
  lemma {:induction false} RunConcat<T>(locked: set<TaskId>, c: Config, t: seq<Action<T>>, u: seq<Action<T>>)
    ensures var p := Run(locked, c, t);
      Run(locked, c, t + u) == if p.None? then None else Run(locked, p.value, u)
    decreases |u|
  {
    if u == [] {
      assert t + u == t;
    } else {
      var front := u[..|u| - 1];
      var a := u[|u| - 1];
      assert t + u == (t + front) + [a];
      assert u == front + [a];
      RunConcat(locked, c, t, front);
      RunAppend(locked, c, t + front, a);
      var p := Run(locked, c, t);
      if p.Some? {
        RunAppend(locked, p.value, front, a);
      }
    }
  }

  /** Every prefix of an accepted trace is accepted. */
  lemma {:induction false} RunPrefix<T>(locked: set<TaskId>, c: Config, t: seq<Action<T>>, k: nat)
    requires Run(locked, c, t).Some? && k <= |t|
    ensures Run(locked, c, t[..k]).Some?
    decreases |t|
  {
    if k < |t| {
      var front := t[..|t| - 1];
      assert front[..k] == t[..k];
      RunPrefix(locked, c, front, k);
    } else {
      assert t[..k] == t;
    }
  }

  /** The configuration just after step `i` of an accepted trace is the step rule applied to the one before. */
  lemma RunStep<T>(locked: set<TaskId>, c: Config, t: seq<Action<T>>, i: nat)
    requires Run(locked, c, t).Some? && i < |t|
    ensures Run(locked, c, t[..i]).Some?
    ensures Run(locked, c, t[..i + 1]) == Next(locked, Run(locked, c, t[..i]).value, t[i])
    ensures Run(locked, c, t[..i + 1]).Some?
  {
    RunPrefix(locked, c, t, i + 1);
    assert t[..i + 1][..i] == t[..i];
    assert t[..i + 1][i] == t[i];
  }

  /** Once the loop has finished it takes no further step. */
  lemma {:induction false} FinishedIsFinal<T>(locked: set<TaskId>, q: seq<TaskId>, t: seq<Action<T>>)
    requires t != []
    ensures Run(locked, Config(q, Finished), t) == None
    decreases |t|
  {
    if |t| > 1 {
      FinishedIsFinal(locked, q, t[..|t| - 1]);
    }
  }

  /** A step that ends the loop (entry ready, lock failure, failed wait) is the last step. */
  lemma {:induction false} TerminalStepIsLast<T>(locked: set<TaskId>, c: Config, t: seq<Action<T>>, i: nat)
    requires Run(locked, c, t).Some? && i < |t|
    requires Verdict(t[i]).Some?
    ensures i == |t| - 1
  {
    RunStep(locked, c, t, i);
    var p := Run(locked, c, t[..i + 1]).value;
    RunConcat(locked, c, t[..i + 1], t[i + 1..]);
    assert t[..i + 1] + t[i + 1..] == t;
    if i < |t| - 1 {
      FinishedIsFinal(locked, p.queue, t[i + 1..]);
    }
  }

  /** Each run of the loop starts by polling the entry future. */
  lemma EntryPolledFirst<T>(locked: set<TaskId>, q: seq<TaskId>, t: seq<Action<T>>)
    requires Run(locked, Config(q, Polling), t).Some? && t != []
    ensures t[0].EntryPolled?
  {
    RunStep(locked, Config(q, Polling), t, 0);
    assert t[..0] == [];
  }

  /** After a successful wait the next step is a poll of the entry future, never a task. */
  lemma EntryPolledAfterWait<T>(locked: set<TaskId>, c: Config, t: seq<Action<T>>, i: nat)
    requires Run(locked, c, t).Some? && i + 1 < |t|
    requires t[i].Waited? && t[i].result.Ok?
    ensures t[i + 1].EntryPolled?
  {
    RunStep(locked, c, t, i);
    RunStep(locked, c, t, i + 1);
  }

  lemma AppendAssoc<X>(a: seq<X>, b: seq<X>, c: seq<X>)
    ensures (a + b) + c == a + (b + c)
  {
  }

  /**
   * FIFO drain: polling tasks from a queue `q` until the queue is `q'` polls, in
   * order, exactly the tasks of `q` followed by those the polls pushed, less what
   * is still queued.
   */
  lemma {:induction false} DrainIsFifo<T>(locked: set<TaskId>, q: seq<TaskId>, t: seq<Action<T>>, q': seq<TaskId>)
    requires forall i :: 0 <= i < |t| ==> t[i].TaskPolled?
    requires Run(locked, Config(q, Draining), t) == Some(Config(q', Draining))
    ensures PolledIds(t) + q' == q + TaskPushes(t)
    decreases |t|
  {
    if t != [] {
      var front := t[..|t| - 1];
      var a := t[|t| - 1];
      assert t == front + [a];
      RunAppend(locked, Config(q, Draining), front, a);
      var p := Run(locked, Config(q, Draining), front);
      assert p.Some?;
      assert forall i :: 0 <= i < |front| ==> front[i] == t[i];
      DrainIsFifo(locked, q, front, p.value.queue);
      var r := p.value.queue;
      var x := PolledIds(front);
      assert r == [a.task] + r[1..];
      calc {
        PolledIds(t) + q';
        (x + [a.task]) + (r[1..] + a.pushed);
        { AppendAssoc(x + [a.task], r[1..], a.pushed); }
        ((x + [a.task]) + r[1..]) + a.pushed;
        { AppendAssoc(x, [a.task], r[1..]); }
        (x + r) + a.pushed;
        (q + TaskPushes(front)) + a.pushed;
        { AppendAssoc(q, TaskPushes(front), a.pushed); }
        q + TaskPushes(t);
      }
    }
  }

  /**
   * The run loop waits on the reactor only after every task that was queued when
   * the entry future returned `Pending`, and every task pushed while the queue was
   * drained, has been polled once, in the order queued.
   */
  lemma EveryQueuedTaskPolledBeforeWait<T>(locked: set<TaskId>, c: Config, t: seq<Action<T>>, i: nat, j: nat)
    requires Run(locked, c, t).Some?
    requires i < j < |t| && t[i].EntryPolled? && t[i].poll.Pending? && t[j].Waited?
    requires forall k :: i < k < j ==> t[k].TaskPolled?
    ensures Run(locked, c, t[..i + 1]).Some?
    ensures PolledIds(t[i + 1..j]) == Run(locked, c, t[..i + 1]).value.queue + TaskPushes(t[i + 1..j])
  {
    RunStep(locked, c, t, i);
    RunStep(locked, c, t, j);
    var p := Run(locked, c, t[..i + 1]).value;
    var drain := t[i + 1..j];
    RunSegment(locked, c, t, i + 1, j);
    assert forall k :: 0 <= k < |drain| ==> drain[k] == t[i + 1 + k];
    DrainStaysDraining(locked, p, drain);
    DrainIsFifo(locked, p.queue, drain, []);
    assert PolledIds(drain) + [] == PolledIds(drain);
  }

  /** The steps `t[i..j]` of an accepted trace lead from where `t[..i]` left the loop to where `t[..j]` does. */
  lemma RunSegment<T>(locked: set<TaskId>, c: Config, t: seq<Action<T>>, i: nat, j: nat)
    requires Run(locked, c, t).Some? && i <= j <= |t|
    ensures Run(locked, c, t[..i]).Some?
    ensures Run(locked, Run(locked, c, t[..i]).value, t[i..j]) == Run(locked, c, t[..j])
  {
    RunPrefix(locked, c, t, i);
    assert t[..j] == t[..i] + t[i..j];
    RunConcat(locked, c, t[..i], t[i..j]);
  }

  /**
   * Polling tasks never leaves the draining phase: a one-step fact, since the
   * step rule sends every task poll it accepts to `Draining`.
   */
  lemma DrainStaysDraining<T>(locked: set<TaskId>, c: Config, t: seq<Action<T>>)
    requires c.phase == Draining && Run(locked, c, t).Some?
    requires forall k :: 0 <= k < |t| ==> t[k].TaskPolled?
    ensures Run(locked, c, t).value.phase == Draining
  {
  }

  /** With no task lock held when the loop starts, "Cannot lock" never happens. */
  lemma NoLockFailureWhenUnlocked<T>(c: Config, t: seq<Action<T>>)
    requires Run({}, c, t).Some?
    ensures forall i :: 0 <= i < |t| ==> !t[i].LockFailed?
  {
    forall i | 0 <= i < |t| ensures !t[i].LockFailed? {
      RunStep({}, c, t, i);
    }
  }

  /**
   * The loop returns as soon as the entry future is ready, even when that poll
   * (or the wait before it) queued tasks that are then never polled.
   */
  lemma ReadyEntryLeavesQueuedTasks<T>(locked: set<TaskId>, q: seq<TaskId>, v: T, pushed: seq<TaskId>, firstId: nat)
    ensures Run(locked, Config(q, Polling), [EntryPolled(Ready(v), pushed, firstId)]) == Some(Config(q + pushed, Finished))
  {
    assert [EntryPolled(Ready(v), pushed, firstId)][..0] == [];
  }
}
