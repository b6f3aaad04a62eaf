/**
 * `Executor`: a task queue and a reactor, `spawn`, and the `block_on` run loop.
 *
 * Futures are oracles. A `Program` says, for the k-th poll of the entry future
 * and for the k-th poll of task `id`, whether the poll is ready and what the poll
 * does to the runtime while it runs (`Effect`s: spawning, waking itself,
 * registering interest with the reactor the way an endpoint does on
 * would-block, constructing or dropping an endpoint). The readiness source is
 * the input `readiness`: what the n-th `wait` receives from it.
 */
module Executors {
  import opened Io
  import opened Tasks
  import opened Reactors
  import opened RunLoop

  /** Something a future does to the runtime while it is polled. */
  datatype Effect =
    | Spawn                                // `spawn(f)`: a new task on the queue
    | WakeSelf                             // `cx.waker().wake_by_ref()`
    | Register(fd: Fd, interest: Interest) // `reactor.modify(fd, interest, cx)`, as on would-block
    | Open(fd: Fd)                         // `reactor.add(fd)`, as when an endpoint is constructed
    | Close(fd: Fd)                        // `reactor.delete(fd)`, as when a stream is dropped

  /** What one poll of a future reports and does. */
  datatype Step<T> = Step(poll: Poll<T>, effects: seq<Effect>)

  /** The entry future and the spawned tasks' futures, by poll count. */
  datatype Program<T> = Program(entry: nat -> Step<T>, task: (TaskId, nat) -> Step<()>)

  /** What `block_on` returns; `OutOfFuel` when the poll budget of the model ran out first. */
  datatype Outcome<T> = Done(result: Result<T>) | OutOfFuel

  // ---------------------------------------------------------------------------
  // What the effects of one poll do

  /** The task ids one effect pushes; `next` is the id a spawned task gets. */
  function EffectPushes(e: Effect, w: Waker, next: nat): seq<TaskId> {
    match e
    case Spawn => [next]
    case WakeSelf => WokenTasks([w])
    case _ => []
  }

  /** What one effect does to the reactor's tables. */
  function EffectTable(t: Table, e: Effect, w: Waker): Table {
    match e
    case Register(fd, interest) => Modified(t, fd, interest, w)
    case Open(fd) => Added(t, fd)
    case Close(fd) => Deleted(t, fd)
    case _ => t
  }

  /** How many of the effects are spawns. */
  function SpawnCount(effects: seq<Effect>): nat
    decreases |effects|
  {
    if effects == [] then 0
    else SpawnCount(effects[..|effects| - 1]) + if effects[|effects| - 1].Spawn? then 1 else 0
  }

  /** How many of the effects are self-wakes. */
  function SelfWakes(effects: seq<Effect>): nat
    decreases |effects|
  {
    if effects == [] then 0
    else SelfWakes(effects[..|effects| - 1]) + if effects[|effects| - 1].WakeSelf? then 1 else 0
  }

  /**
   * The task ids the effects push, in order, when the next fresh id is `next`:
   * exactly one per spawn, and one per self-wake unless the waker is the no-op one.
   */
  function Pushes(effects: seq<Effect>, w: Waker, next: nat): (p: seq<TaskId>)
    ensures |p| == SpawnCount(effects) + if w.TaskWaker? then SelfWakes(effects) else 0
    decreases |effects|
  {
    if effects == [] then []
    else
      var front := effects[..|effects| - 1];
      assert WokenTasks([w]) == if w.TaskWaker? then [w.task] else [] by {
        assert [w][..0] == [];
      }
      Pushes(front, w, next) + EffectPushes(effects[|effects| - 1], w, next + SpawnCount(front))
  }

  /**
   * The reactor's tables after the effects, in order. The only waker a poll can
   * store is the one it was polled with, and a poll that neither registers,
   * opens nor closes leaves the tables as they were.
   */
  function TableAfter(t: Table, effects: seq<Effect>, w: Waker): (t': Table)
    ensures forall k :: k in t'.wakers ==> t'.wakers[k] == w || (k in t.wakers && t'.wakers[k] == t.wakers[k])
    ensures (forall i :: 0 <= i < |effects| ==> effects[i].Spawn? || effects[i].WakeSelf?) ==> t' == t
    decreases |effects|
  {
    if effects == [] then t
    else EffectTable(TableAfter(t, effects[..|effects| - 1], w), effects[|effects| - 1], w)
  }

  /**
   * Polled with the no-op waker (as the entry future is), a future can put on the
   * queue only the tasks it spawns, with consecutive fresh ids.
   */
  lemma {:induction false} NoopWakerPushesOnlySpawned(effects: seq<Effect>, next: nat)
    ensures |Pushes(effects, Noop, next)| == SpawnCount(effects)
    ensures forall i :: 0 <= i < |Pushes(effects, Noop, next)| ==> Pushes(effects, Noop, next)[i] == next + i
    decreases |effects|
  {
    if effects != [] {
      var front := effects[..|effects| - 1];
      NoopWakerPushesOnlySpawned(front, next);
      assert [Noop][..0] == [];
    }
  }

  /**
   * Polled with its own waker, a task puts on the queue the tasks it spawns and
   * itself once per self-wake: every pushed id is its own or a fresh one, and
   * every fresh id is pushed.
   */
  lemma {:induction false} TaskWakerPushesSelfOrSpawned(effects: seq<Effect>, id: TaskId, next: nat)
    ensures forall i :: 0 <= i < |Pushes(effects, TaskWaker(id), next)| ==>
      var p := Pushes(effects, TaskWaker(id), next)[i];
      p == id || next <= p < next + SpawnCount(effects)
    ensures forall spawned :: next <= spawned < next + SpawnCount(effects) ==> spawned in Pushes(effects, TaskWaker(id), next)
    decreases |effects|
  {
    if effects != [] {
      var front := effects[..|effects| - 1];
      TaskWakerPushesSelfOrSpawned(front, id, next);
      assert [TaskWaker(id)][..0] == [];
      var p := Pushes(effects, TaskWaker(id), next);
      var last := EffectPushes(effects[|effects| - 1], TaskWaker(id), next + SpawnCount(front));
      assert p == Pushes(front, TaskWaker(id), next) + last;
      forall spawned | next <= spawned < next + SpawnCount(effects)
        ensures spawned in p
      {
        if spawned < next + SpawnCount(front) {
          assert spawned in Pushes(front, TaskWaker(id), next);
        } else {
          assert last == [spawned];
        }
      }
    }
  }

  // ---------------------------------------------------------------------------
  // What ties a trace of the run loop to the futures and the readiness source

  /** How often the poll counts `polls` say task `id` was polled (absent: never). */
  function PollsOf(polls: map<TaskId, nat>, id: TaskId): nat {
    if id in polls then polls[id] else 0
  }

  /**
   * The executor's books: the reactor tables, each task's poll count, the task
   * counter, and how many entry polls and waits have happened (which select
   * the oracle's and the readiness source's next answers).
   */
  datatype Books = Books(table: Table, polls: map<TaskId, nat>, taskCount: nat, entries: nat, waits: nat)

  /** What one step of the run loop does to the books. */
  ghost function Apply<T>(program: Program<T>, readiness: nat -> Result<seq<Event>>, b: Books, a: Action<T>): Books {
    match a
    case EntryPolled(_, _, _) =>
      var e := program.entry(b.entries).effects;
      b.(table := TableAfter(b.table, e, Noop), taskCount := b.taskCount + SpawnCount(e), entries := b.entries + 1)
    case TaskPolled(id, _, _, _) =>
      var k := PollsOf(b.polls, id);
      var e := program.task(id, k).effects;
      b.(table := TableAfter(b.table, e, TaskWaker(id)), polls := b.polls[id := k + 1], taskCount := b.taskCount + SpawnCount(e))
    case LockFailed(_) => b
    case Waited(_, _, _) =>
      var polled := readiness(b.waits);
      var wakers := if polled.Err? then b.table.wakers else Dispatch(b.table.wakers, polled.value).wakers;
      b.(table := Table(b.table.subs, wakers), waits := b.waits + 1)
  }

  /**
   * Step `a`, taken when the books are `b`, is what the oracle or the readiness
   * source says: an entry poll reports the oracle's next entry answer and pushes
   * what its effects push with the no-op waker; a task poll is that task's next
   * poll and pushes what its effects push with the task's own waker; a wait
   * starts from the current waker table and gets the source's next answer.
   */
  ghost predicate StepFollows<T>(program: Program<T>, readiness: nat -> Result<seq<Event>>, b: Books, a: Action<T>) {
    match a
    case EntryPolled(poll, pushed, firstId) =>
      var step := program.entry(b.entries);
      poll == step.poll && firstId == b.taskCount && pushed == Pushes(step.effects, Noop, firstId)
    case TaskPolled(id, pushed, k, firstId) =>
      k == PollsOf(b.polls, id) && firstId == b.taskCount
      && pushed == Pushes(program.task(id, k).effects, TaskWaker(id), firstId)
    case LockFailed(_) => true
    case Waited(result, woken, before) =>
      var polled := readiness(b.waits);
      && before == b.table.wakers
      && if polled.Err? then result == Err(polled.error) && woken == []
         else
           var d := Dispatch(before, polled.value);
           result == d.result && woken == WokenTasks(d.woken)
  }

  /**
   * Replaying the steps `t` from the books `b`: the books they leave when every
   * step follows (`StepFollows`) on the books the steps before it left, and
   * `None` as soon as one does not.
   */
  ghost function Replay<T>(program: Program<T>, readiness: nat -> Result<seq<Event>>, b: Books, t: seq<Action<T>>): Option<Books>
    decreases |t|
  {
    if t == [] then Some(b)
    else
      var p := Replay(program, readiness, b, t[..|t| - 1]);
      var a := t[|t| - 1];
      if p.Some? && StepFollows(program, readiness, p.value, a) then Some(Apply(program, readiness, p.value, a)) else None
  }

  lemma ReplayAppend<T>(program: Program<T>, readiness: nat -> Result<seq<Event>>, b0: Books, t: seq<Action<T>>, a: Action<T>)
    ensures var p := Replay(program, readiness, b0, t);
      Replay(program, readiness, b0, t + [a]) ==
        if p.Some? && StepFollows(program, readiness, p.value, a) then Some(Apply(program, readiness, p.value, a)) else None
  {
    assert (t + [a])[..|t + [a]| - 1] == t;
  }

  /**
   * The entry poll, as the oracle says for the entry poll count of the books `b`
   * that `t` left, pushing what its effects push from the task counter on,
   * follows and updates the books to `b'`: its effects on the tables, the task
   * counter up by the spawns, the entry poll count one up.
   */
  lemma EntryPollStep<T>(program: Program<T>, readiness: nat -> Result<seq<Event>>, b0: Books, t: seq<Action<T>>, b: Books,
                         poll: Poll<T>, pushed: seq<TaskId>, firstId: nat, b': Books)
    requires Replay(program, readiness, b0, t) == Some(b)
    requires var step := program.entry(b.entries);
      poll == step.poll && firstId == b.taskCount && pushed == Pushes(step.effects, Noop, firstId)
    requires var e := program.entry(b.entries).effects;
      b' == b.(table := TableAfter(b.table, e, Noop), taskCount := firstId + SpawnCount(e), entries := b.entries + 1)
    ensures Replay(program, readiness, b0, t + [EntryPolled(poll, pushed, firstId)]) == Some(b')
  {
    ReplayAppend(program, readiness, b0, t, EntryPolled(poll, pushed, firstId));
  }

  /**
   * The `k`-th poll of task `id` (`k` its poll count on the books `b` that `t`
   * left), pushing what the oracle's effects push from the task counter on,
   * follows and updates the books to `b'`: the oracle's effects on the tables,
   * the poll count one up, the task counter up by the spawns.
   */
  lemma TaskPollStep<T>(program: Program<T>, readiness: nat -> Result<seq<Event>>, b0: Books, t: seq<Action<T>>, b: Books,
                        id: TaskId, pushed: seq<TaskId>, k: nat, firstId: nat, b': Books)
    requires Replay(program, readiness, b0, t) == Some(b)
    requires k == PollsOf(b.polls, id) && firstId == b.taskCount
    requires pushed == Pushes(program.task(id, k).effects, TaskWaker(id), firstId)
    requires var e := program.task(id, k).effects;
      b' == b.(table := TableAfter(b.table, e, TaskWaker(id)), polls := b.polls[id := k + 1], taskCount := firstId + SpawnCount(e))
    ensures Replay(program, readiness, b0, t + [TaskPolled(id, pushed, k, firstId)]) == Some(b')
  {
    ReplayAppend(program, readiness, b0, t, TaskPolled(id, pushed, k, firstId));
  }

  /** A lock failure follows and leaves the books as they were. */
  lemma LockFailedStep<T>(program: Program<T>, readiness: nat -> Result<seq<Event>>, b0: Books, t: seq<Action<T>>, b: Books, id: TaskId)
    requires Replay(program, readiness, b0, t) == Some(b)
    ensures Replay(program, readiness, b0, t + [LockFailed(id)]) == Some(b)
  {
    ReplayAppend(program, readiness, b0, t, LockFailed(id));
  }

  /**
   * A wait, on the books `b` that `t` left, which gets the source's next answer
   * and does what `Dispatch` on the current waker table says, follows and
   * updates the books so.
   */
  lemma WaitStep<T>(program: Program<T>, readiness: nat -> Result<seq<Event>>, b0: Books, t: seq<Action<T>>, b: Books,
                    res: Result<()>, woken: seq<TaskId>)
    requires Replay(program, readiness, b0, t) == Some(b)
    requires var polled := readiness(b.waits);
      if polled.Err? then res == Err(polled.error) && woken == []
      else
        var d := Dispatch(b.table.wakers, polled.value);
        res == d.result && woken == WokenTasks(d.woken)
    ensures var polled := readiness(b.waits);
      var wakers := if polled.Err? then b.table.wakers else Dispatch(b.table.wakers, polled.value).wakers;
      Replay(program, readiness, b0, t + [Waited(res, woken, b.table.wakers)]) ==
        Some(b.(table := Table(b.table.subs, wakers), waits := b.waits + 1))
  {
    ReplayAppend(program, readiness, b0, t, Waited(res, woken, b.table.wakers));
  }

  /**
   * An entry poll follows only as the oracle says: on the books `b` that `t`
   * left, a recorded entry poll replays exactly when it reports the oracle's
   * answer for the entry poll count and pushes that answer's ids from the task
   * counter on.
   */
  lemma EntryPollFollowsExactly<T>(program: Program<T>, readiness: nat -> Result<seq<Event>>, b0: Books, t: seq<Action<T>>,
                                   b: Books, poll: Poll<T>, pushed: seq<TaskId>, firstId: nat)
    requires Replay(program, readiness, b0, t) == Some(b)
    ensures Replay(program, readiness, b0, t + [EntryPolled(poll, pushed, firstId)]).Some? <==>
      var step := program.entry(b.entries);
      poll == step.poll && firstId == b.taskCount && pushed == Pushes(step.effects, Noop, firstId)
  {
    ReplayAppend(program, readiness, b0, t, EntryPolled(poll, pushed, firstId));
  }

  /**
   * A task poll follows only as the oracle says: on the books `b` that `t`
   * left, a recorded poll of task `id` replays exactly when it is that task's
   * next poll by the poll counts and pushes what the oracle's effects push with
   * the task's own waker from the task counter on.
   */
  lemma TaskPollFollowsExactly<T>(program: Program<T>, readiness: nat -> Result<seq<Event>>, b0: Books, t: seq<Action<T>>,
                                  b: Books, id: TaskId, pushed: seq<TaskId>, k: nat, firstId: nat)
    requires Replay(program, readiness, b0, t) == Some(b)
    ensures Replay(program, readiness, b0, t + [TaskPolled(id, pushed, k, firstId)]).Some? <==>
      k == PollsOf(b.polls, id) && firstId == b.taskCount && pushed == Pushes(program.task(id, k).effects, TaskWaker(id), firstId)
  {
    ReplayAppend(program, readiness, b0, t, TaskPolled(id, pushed, k, firstId));
  }

  /**
   * A wait follows only as the readiness source says: on the books `b` that
   * `t` left, a recorded wait replays exactly when it starts from the current
   * waker table and reports the source's next answer as `Dispatch` handles it.
   */
  lemma WaitFollowsExactly<T>(program: Program<T>, readiness: nat -> Result<seq<Event>>, b0: Books, t: seq<Action<T>>,
                              b: Books, res: Result<()>, woken: seq<TaskId>, before: map<Key, Waker>)
    requires Replay(program, readiness, b0, t) == Some(b)
    ensures Replay(program, readiness, b0, t + [Waited(res, woken, before)]).Some? <==>
      var polled := readiness(b.waits);
      && before == b.table.wakers
      && if polled.Err? then res == Err(polled.error) && woken == []
         else res == Dispatch(before, polled.value).result && woken == WokenTasks(Dispatch(before, polled.value).woken)
  {
    ReplayAppend(program, readiness, b0, t, Waited(res, woken, before));
  }

  /** The books count exactly the entry polls and the waits of a trace that replays. */
  lemma {:induction false} ReplayCounts<T>(program: Program<T>, readiness: nat -> Result<seq<Event>>, b0: Books, t: seq<Action<T>>)
    requires Replay(program, readiness, b0, t).Some?
    ensures Replay(program, readiness, b0, t).value.entries == b0.entries + |EntryPolls(t)|
    ensures Replay(program, readiness, b0, t).value.waits == b0.waits + |Waits(t)|
    decreases |t|
  {
    if t != [] {
      var front := t[..|t| - 1];
      var a := t[|t| - 1];
      ReplayCounts(program, readiness, b0, front);
      assert t == front + [a];
      RunAppend({}, Config([], Polling), front, a);
    }
  }

  // ---------------------------------------------------------------------------
  // A finished task popped again

  /**
   * A task that wakes itself twice on its first poll (as a join of two futures
   * that each yield once does) and is ready on every later poll, under an entry
   * future that spawns it and then stays pending.
   */
  function TwiceWokenProgram(): Program<()> {
    Program(k => Step(Pending, if k == 0 then [Spawn] else []),
            (id, k) => if k == 0 then Step(Pending, [WakeSelf, WakeSelf]) else Step(Ready(()), []))
  }

  /**
   * What `block_on` does with `TwiceWokenProgram()` while the task counter
   * starts at `n`, all within its first drain: the entry poll spawns task `n`;
   * its first poll queues it twice; it is polled once per queue entry.
   */
  function RepollTrace(n: nat): seq<Action<()>> {
    [EntryPolled(Pending, [n], n), TaskPolled(n, [n, n], 0, n + 1),
     TaskPolled(n, [], 1, n + 1), TaskPolled(n, [], 2, n + 1)]
  }

  /** Taking a step `a` that the loop can take where `t` left it. */
  lemma RunExtend<T>(locked: set<TaskId>, c: Config, t: seq<Action<T>>, a: Action<T>, c1: Config)
    requires Run(locked, c, t) == Some(c1) && Next(locked, c1, a).Some?
    ensures Run(locked, c, t + [a]) == Next(locked, c1, a)
  {
    RunAppend(locked, c, t, a);
  }

  /** The run loop takes the steps of `RepollTrace`, and is still draining after them. */
  lemma RepollTraceRuns(n: nat)
    ensures Run({}, Config([], Polling), RepollTrace(n)) == Some(Config([], Draining))
  {
    var t := RepollTrace(n);
    var c := Config([], Polling);
    assert t[..0] + [t[0]] == t[..1] && t[..1] + [t[1]] == t[..2] && t[..2] + [t[2]] == t[..3] && t[..3] + [t[3]] == t;
    assert t[..0] == [] && [] + [n] == [n] && [n][1..] + [n, n] == [n, n];
    assert [n, n][1..] + [] == [n] && [n][1..] + [] == [];
    RunExtend({}, c, t[..0], t[0], c);
    RunExtend({}, c, t[..1], t[1], Config([n], Draining));
    RunExtend({}, c, t[..2], t[2], Config([n, n], Draining));
    RunExtend({}, c, t[..3], t[3], Config([n], Draining));
  }

  /** Waking itself twice, task `n` pushes itself twice and leaves the tables as they were. */
  lemma SelfWakeTwice(t: Table, n: TaskId, next: nat)
    ensures Pushes([WakeSelf, WakeSelf], TaskWaker(n), next) == [n, n]
    ensures TableAfter(t, [WakeSelf, WakeSelf], TaskWaker(n)) == t
  {
    assert [WakeSelf, WakeSelf][..1] == [WakeSelf];
    assert [WakeSelf][..0] == [];
    assert [TaskWaker(n)][..0] == [];
  }

  /** The first step of `RepollTrace` follows, whatever the readiness source says: the entry poll spawns task `n`. */
  lemma RepollTraceReplaysToSpawn(readiness: nat -> Result<seq<Event>>, n: nat)
    ensures Replay(TwiceWokenProgram(), readiness, Books(Table(map[], map[]), map[], n, 0, 0), RepollTrace(n)[..1]) ==
      Some(Books(Table(map[], map[]), map[], n + 1, 1, 0))
  {
    var t := RepollTrace(n);
    var empty := Table(map[], map[]);
    var b0 := Books(empty, map[], n, 0, 0);
    assert t[..0] + [t[0]] == t[..1];
    assert Pushes([Spawn], Noop, n) == [n];
    assert TableAfter(empty, [Spawn], Noop) == empty;
    EntryPollStep(TwiceWokenProgram(), readiness, b0, t[..0], b0, Pending, [n], n, Books(empty, map[], n + 1, 1, 0));
  }

  /**
   * The first two steps of `RepollTrace` follow, whatever the readiness source
   * says: task `n`'s first poll queues it twice.
   */
  lemma RepollTraceReplaysToSelfWake(readiness: nat -> Result<seq<Event>>, n: nat)
    ensures Replay(TwiceWokenProgram(), readiness, Books(Table(map[], map[]), map[], n, 0, 0), RepollTrace(n)[..2]) ==
      Some(Books(Table(map[], map[]), map[n := 1], n + 1, 1, 0))
  {
    var program := TwiceWokenProgram();
    var t := RepollTrace(n);
    var empty := Table(map[], map[]);
    assert t[..1] + [t[1]] == t[..2];
    RepollTraceReplaysToSpawn(readiness, n);
    assert program.task(n, 0) == Step(Pending, [WakeSelf, WakeSelf]);
    SelfWakeTwice(empty, n, n + 1);
    TaskPollStep(program, readiness, Books(empty, map[], n, 0, 0), t[..1], Books(empty, map[], n + 1, 1, 0),
                 n, [n, n], 0, n + 1, Books(empty, map[n := 1], n + 1, 1, 0));
  }

  /**
   * The first three steps of `RepollTrace` follow, whatever the readiness
   * source says: the poll from the first queue entry is task `n`'s poll 1.
   */
  lemma RepollTraceReplaysToReady(readiness: nat -> Result<seq<Event>>, n: nat)
    ensures Replay(TwiceWokenProgram(), readiness, Books(Table(map[], map[]), map[], n, 0, 0), RepollTrace(n)[..3]) ==
      Some(Books(Table(map[], map[]), map[n := 2], n + 1, 1, 0))
  {
    var program := TwiceWokenProgram();
    var t := RepollTrace(n);
    var empty := Table(map[], map[]);
    var b0 := Books(empty, map[], n, 0, 0);
    assert t[..2] + [t[2]] == t[..3];
    RepollTraceReplaysToSelfWake(readiness, n);
    assert program.task(n, 1) == Step(Ready(()), []);
    assert TableAfter(empty, [], TaskWaker(n)) == empty && Pushes([], TaskWaker(n), n + 1) == [];
    assert map[n := 1][n := 2] == map[n := 2];
    TaskPollStep(program, readiness, b0, t[..2], Books(empty, map[n := 1], n + 1, 1, 0), n, [], 1, n + 1,
                 Books(empty, map[n := 2], n + 1, 1, 0));
  }

  /**
   * Every step of `RepollTrace` is what the futures say, whatever the readiness
   * source says: task `n` ends up polled three times and no wait happens.
   */
  lemma RepollTraceReplays(readiness: nat -> Result<seq<Event>>, n: nat)
    ensures Replay(TwiceWokenProgram(), readiness, Books(Table(map[], map[]), map[], n, 0, 0), RepollTrace(n)) ==
      Some(Books(Table(map[], map[]), map[n := 3], n + 1, 1, 0))
  {
    var program := TwiceWokenProgram();
    var t := RepollTrace(n);
    var empty := Table(map[], map[]);
    var b0 := Books(empty, map[], n, 0, 0);
    assert t[..3] + [t[3]] == t;
    RepollTraceReplaysToReady(readiness, n);
    // The second queue entry polls the task again, though its poll 1 was ready.
    assert program.task(n, 2) == Step(Ready(()), []);
    assert TableAfter(empty, [], TaskWaker(n)) == empty && Pushes([], TaskWaker(n), n + 1) == [];
    assert map[n := 2][n := 3] == map[n := 3];
    TaskPollStep(program, readiness, b0, t[..3], Books(empty, map[n := 2], n + 1, 1, 0), n, [], 2, n + 1,
                 Books(empty, map[n := 3], n + 1, 1, 0));
  }

  /**
   * The code as written: `block_on` discards what a task's poll returns and
   * never marks a task finished. So a task that wakes itself twice in one poll
   * is queued twice, and once its poll from the first entry is ready it is
   * polled again from the second: from books with no registrations and the
   * task counter at `n`, under any readiness source, the steps of `RepollTrace`
   * follow without a wait, and its last step is task `n`'s poll 2, after its
   * ready poll 1.
   */
  lemma ReadyTaskPolledAgain(readiness: nat -> Result<seq<Event>>, n: nat)
    ensures var t := RepollTrace(n);
      && Run({}, Config([], Polling), t) == Some(Config([], Draining))
      && Replay(TwiceWokenProgram(), readiness, Books(Table(map[], map[]), map[], n, 0, 0), t).Some?
      && (forall i :: 0 <= i < |t| ==> !t[i].Waited?)
      && t[2] == TaskPolled(n, [], 1, n + 1) && TwiceWokenProgram().task(n, 1).poll.Ready?
      && t[3] == TaskPolled(n, [], 2, n + 1)
  {
    RepollTraceRuns(n);
    RepollTraceReplays(readiness, n);
  }

  /** One poll made by the corrected inner loop: the task, which of its polls it was, and whether it was ready. */
  datatype TaskPoll = TaskPoll(task: TaskId, index: nat, ready: bool)

  /**
   * The inner loop's state in the corrected version: the queue, the poll counts,
   * the tasks known to be finished, the next fresh id, and the polls so far.
   */
  datatype DrainState = DrainState(queue: seq<TaskId>, polls: map<TaskId, nat>, done: set<TaskId>, next: nat,
                                   polled: seq<TaskPoll>)

  /** No task is polled again after one of its polls was ready. */
  predicate NoPollAfterReady(polled: seq<TaskPoll>) {
    forall i, j :: 0 <= i < j < |polled| && polled[i].task == polled[j].task ==> !polled[i].ready
  }

  /** Every task with a ready poll is marked finished. */
  predicate FinishedMarked(s: DrainState) {
    forall i :: 0 <= i < |s.polled| && s.polled[i].ready ==> s.polled[i].task in s.done
  }

  /**
   * One pass of the inner loop as evidently intended: a popped task already
   * marked finished is dropped unpolled; any other is polled as `block_on`
   * polls it (its next poll, with its own waker, pushing what its effects push)
   * and marked finished when that poll is ready.
   */
  function FixedDrainStep<T>(program: Program<T>, s: DrainState): (s': DrainState)
    requires s.queue != []
    ensures s.queue[0] in s.done ==> s'.polled == s.polled && s'.queue == s.queue[1..]
    ensures s.queue[0] !in s.done ==> |s'.polled| == |s.polled| + 1 && s'.polled[|s.polled|].task == s.queue[0]
    ensures s'.polled[..|s.polled|] == s.polled
    ensures s.done <= s'.done
  {
    var id := s.queue[0];
    if id in s.done then s.(queue := s.queue[1..])
    else
      var k := PollsOf(s.polls, id);
      var step := program.task(id, k);
      DrainState(s.queue[1..] + Pushes(step.effects, TaskWaker(id), s.next), s.polls[id := k + 1],
                 if step.poll.Ready? then s.done + {id} else s.done, s.next + SpawnCount(step.effects),
                 s.polled + [TaskPoll(id, k, step.poll.Ready?)])
  }

  /** The corrected pass keeps finished tasks marked, so it never polls a task after a ready poll. */
  lemma FixedDrainStepNeverRepolls<T>(program: Program<T>, s: DrainState)
    requires s.queue != [] && FinishedMarked(s) && NoPollAfterReady(s.polled)
    ensures FinishedMarked(FixedDrainStep(program, s)) && NoPollAfterReady(FixedDrainStep(program, s).polled)
  {
    var s' := FixedDrainStep(program, s);
    if s.queue[0] !in s.done {
      assert s'.polled == s.polled + [s'.polled[|s.polled|]];
      forall i, j | 0 <= i < j < |s'.polled| && s'.polled[i].task == s'.polled[j].task
        ensures !s'.polled[i].ready
      {
        if j == |s.polled| {
          assert s'.polled[i] == s.polled[i];
        } else {
          assert s'.polled[i] == s.polled[i] && s'.polled[j] == s.polled[j];
        }
      }
    }
  }

  /**
   * The corrected inner loop, for at most `fuel` passes or until the queue is
   * empty: over the whole drain no task is polled after one of its polls was
   * ready, and the polls made before the drain are kept.
   */
  function FixedDrain<T>(program: Program<T>, s: DrainState, fuel: nat): (s': DrainState)
    requires FinishedMarked(s) && NoPollAfterReady(s.polled)
    ensures FinishedMarked(s') && NoPollAfterReady(s'.polled)
    ensures |s.polled| <= |s'.polled| && s'.polled[..|s.polled|] == s.polled
    decreases fuel
  {
    if s.queue == [] || fuel == 0 then s
    else
      FixedDrainStepNeverRepolls(program, s);
      var m := FixedDrainStep(program, s);
      var r := FixedDrain(program, m, fuel - 1);
      assert r.polled[..|s.polled|] == r.polled[..|m.polled|][..|s.polled|] == m.polled[..|s.polled|];
      r
  }

  // ---------------------------------------------------------------------------
  // The executor object

  class Executor {
    const tasks: TaskQueue
    const reactor: Reactor
    /** The tasks whose future lock (`Mutex`) is held. */
    var locked: set<TaskId>
    /** How many tasks were created; the next spawned task gets this id. */
    var taskCount: nat
    /** How often each task's future has been polled (absent: never). */
    var polls: map<TaskId, nat>

    /** A fresh task's lock is free: every held lock belongs to an existing task. */
    ghost predicate Valid()
      reads this
    {
      forall id :: id in locked ==> id < taskCount
    }

    /** The books as they stand, after `entries` entry polls and `waits` waits. */
    ghost function Current(entries: nat, waits: nat): Books
      reads this, reactor, reactor.poll
    {
      Books(reactor.Snapshot(), polls, taskCount, entries, waits)
    }

    /** `Executor::new`. */
    constructor ()
      ensures Valid()
      ensures fresh(tasks) && fresh(reactor) && fresh(reactor.poll)
      ensures tasks.queue == [] && reactor.Snapshot() == Table(map[], map[])
      ensures locked == {} && taskCount == 0 && polls == map[]
    {
      tasks := new TaskQueue();
      reactor := new Reactor();
      locked := {};
      taskCount := 0;
      polls := map[];
    }

    /** `spawn`: wrap a new future in a task with a free lock and push it onto the queue. */
    method Spawn() returns (id: TaskId)
      requires Valid()
      modifies this, tasks
      ensures Valid()
      ensures id == old(taskCount) && taskCount == id + 1 && id !in locked
      ensures tasks.queue == old(tasks.queue) + [id]
      ensures locked == old(locked) && polls == old(polls)
    {
      id := taskCount;
      taskCount := taskCount + 1;
      tasks.Push(id);
    }

    /** One effect of a poll whose context carries the waker `w`. */
    method Perform(e: Effect, w: Waker)
      requires Valid()
      modifies this, tasks, reactor, reactor.poll
      ensures Valid() && locked == old(locked) && polls == old(polls)
      ensures taskCount == old(taskCount) + (if e.Spawn? then 1 else 0)
      ensures tasks.queue == old(tasks.queue) + EffectPushes(e, w, old(taskCount))
      ensures reactor.Snapshot() == EffectTable(old(reactor.Snapshot()), e, w)
    {
      match e {
        case Spawn =>
          var _ := Spawn();
        case WakeSelf =>
          Wake(w, tasks);
        case Register(fd, interest) =>
          reactor.Modify(fd, interest, w);
        case Open(fd) =>
          reactor.Add(fd);
        case Close(fd) =>
          reactor.Delete(fd);
      }
    }

    /** The effects of one poll, in order. */
    method PerformAll(effects: seq<Effect>, w: Waker) returns (pushed: seq<TaskId>)
      requires Valid()
      modifies this, tasks, reactor, reactor.poll
      ensures Valid() && locked == old(locked) && polls == old(polls)
      ensures pushed == Pushes(effects, w, old(taskCount))
      ensures tasks.queue == old(tasks.queue) + pushed
      ensures taskCount == old(taskCount) + SpawnCount(effects)
      ensures reactor.Snapshot() == TableAfter(old(reactor.Snapshot()), effects, w)
      decreases |effects|
    {
      if effects == [] {
        return [];
      }
      var front := effects[..|effects| - 1];
      var before := PerformAll(front, w);
      var now := EffectPushes(effects[|effects| - 1], w, taskCount);
      Perform(effects[|effects| - 1], w);
      pushed := before + now;
    }

    /**
     * The inner loop of `block_on`: pop and poll queued tasks, each with its own
     * waker, until the queue is empty; a task whose lock is held ends the call
     * with "Cannot lock". `stop` is what `block_on` then returns, if anything;
     * it is `OutOfFuel` only when the budget is spent with tasks still queued.
     * The books (tables, poll counts, task counter) end as the steps taken say.
     */
    method Drain<T>(program: Program<T>, ghost readiness: nat -> Result<seq<Event>>, ghost c0: Config, ghost b0: Books,
                    trace0: seq<Action<T>>, ghost ne: nat, ghost nw: nat, fuel: nat)
      returns (stop: Option<Outcome<T>>, trace: seq<Action<T>>, fuelLeft: nat)
      requires Valid()
      requires Run(locked, c0, trace0) == Some(Config(tasks.queue, Draining))
      requires Replay(program, readiness, b0, trace0) == Some(Current(ne, nw))
      modifies this, tasks, reactor, reactor.poll
      ensures Valid() && locked == old(locked) && fuelLeft <= fuel
      ensures |PolledIds(trace)| + fuelLeft == |PolledIds(trace0)| + fuel
      ensures Replay(program, readiness, b0, trace) == Some(Current(ne, nw))
      ensures stop.None? ==> tasks.queue == [] && Run(locked, c0, trace) == Some(Config([], Draining))
      ensures stop == Some(OutOfFuel) ==>
        && fuelLeft == 0 && tasks.queue != []
        && Run(locked, c0, trace) == Some(Config(tasks.queue, Draining))
      ensures stop.Some? && stop.value.Done? ==>
        && Run(locked, c0, trace) == Some(Config(tasks.queue, Finished))
        && trace != [] && Verdict(trace[|trace| - 1]) == Some(stop.value.result)
    {
      trace := trace0;
      fuelLeft := fuel;
      while true
        invariant Valid() && locked == old(locked) && fuelLeft <= fuel
        invariant |PolledIds(trace)| + fuelLeft == |PolledIds(trace0)| + fuel
        invariant Run(locked, c0, trace) == Some(Config(tasks.queue, Draining))
        invariant Replay(program, readiness, b0, trace) == Some(Current(ne, nw))
        decreases fuelLeft
      {
        if fuelLeft == 0 && tasks.queue != [] {
          return Some(OutOfFuel), trace, fuelLeft;
        }
        var t := tasks.Pop();
        if t.None? {
          return None, trace, fuelLeft;
        }
        var id := t.value;
        if id in locked {
          RunAppend(locked, c0, trace, LockFailed(id));
          LockFailedStep(program, readiness, b0, trace, Current(ne, nw), id);
          trace := trace + [LockFailed(id)];
          return Some(Done(Err(CannotLockError))), trace, fuelLeft;
        }
        fuelLeft := fuelLeft - 1;
        trace := PollTask(program, readiness, c0, b0, trace, ne, nw, id);
      }
    }

    /** One pass of the inner loop: poll the popped task `id`, whose lock is free, with its own waker. */
    method PollTask<T>(program: Program<T>, ghost readiness: nat -> Result<seq<Event>>, ghost c0: Config, ghost b0: Books,
                       trace0: seq<Action<T>>, ghost ne: nat, ghost nw: nat, id: TaskId)
      returns (trace: seq<Action<T>>)
      requires Valid() && id !in locked
      requires Run(locked, c0, trace0) == Some(Config([id] + tasks.queue, Draining))
      requires Replay(program, readiness, b0, trace0) == Some(Current(ne, nw))
      modifies this, tasks, reactor, reactor.poll
      ensures Valid() && locked == old(locked)
      ensures PolledIds(trace) == PolledIds(trace0) + [id]
      ensures Run(locked, c0, trace) == Some(Config(tasks.queue, Draining))
      ensures Replay(program, readiness, b0, trace) == Some(Current(ne, nw))
    {
      ghost var b := Current(ne, nw);
      var k := PollsOf(polls, id);
      var taskStep := program.task(id, k);
      polls := polls[id := k + 1];
      var firstId := taskCount;
      var taskPushed := PerformAll(taskStep.effects, TaskWaker(id));
      var a := TaskPolled(id, taskPushed, k, firstId);
      RunAppend(locked, c0, trace0, a);
      TaskPollStep(program, readiness, b0, trace0, b, id, taskPushed, k, firstId, Current(ne, nw));
      trace := trace0 + [a];
    }

    /**
     * The first half of a round of `block_on`: poll the entry future once, with
     * the no-op waker, and perform what that poll does.
     */
    method PollEntry<T>(program: Program<T>, ghost readiness: nat -> Result<seq<Event>>, ghost c0: Config, ghost b0: Books,
                        trace0: seq<Action<T>>, ne: nat, ghost nw: nat)
      returns (poll: Poll<T>, trace: seq<Action<T>>)
      requires Valid()
      requires Run(locked, c0, trace0) == Some(Config(tasks.queue, Polling))
      requires Replay(program, readiness, b0, trace0) == Some(Current(ne, nw))
      modifies this, tasks, reactor, reactor.poll
      ensures Valid() && locked == old(locked) && polls == old(polls)
      ensures var step := program.entry(ne);
        && poll == step.poll
        && tasks.queue == old(tasks.queue) + Pushes(step.effects, Noop, old(taskCount))
        && taskCount == old(taskCount) + SpawnCount(step.effects)
        && reactor.Snapshot() == TableAfter(old(reactor.Snapshot()), step.effects, Noop)
        && trace == trace0 + [EntryPolled(poll, Pushes(step.effects, Noop, old(taskCount)), old(taskCount))]
      ensures Replay(program, readiness, b0, trace) == Some(Current(ne + 1, nw))
      ensures Run(locked, c0, trace) == Some(Config(tasks.queue, if poll.Ready? then Finished else Draining))
      ensures Verdict(trace[|trace| - 1]) == if poll.Ready? then Some(Ok(poll.value)) else None
    {
      ghost var b := Current(ne, nw);
      var step := program.entry(ne);
      var firstId := taskCount;
      var pushed := PerformAll(step.effects, Noop);
      poll := step.poll;
      var a := EntryPolled(poll, pushed, firstId);
      RunAppend(locked, c0, trace0, a);
      EntryPollStep(program, readiness, b0, trace0, b, poll, pushed, firstId, Current(ne + 1, nw));
      trace := trace0 + [a];
    }

    /**
     * The last part of a round of `block_on`: with the queue empty, wait on the
     * reactor for the `nw`-th answer of the readiness source.
     */
    method AwaitReactor<T>(program: Program<T>, readiness: nat -> Result<seq<Event>>, ghost c0: Config, ghost b0: Books,
                           trace0: seq<Action<T>>, ghost ne: nat, nw: nat)
      returns (res: Result<()>, trace: seq<Action<T>>)
      requires Valid() && tasks.queue == []
      requires Run(locked, c0, trace0) == Some(Config([], Draining))
      requires Replay(program, readiness, b0, trace0) == Some(Current(ne, nw))
      modifies tasks, reactor
      ensures reactor.poll.subs == old(reactor.poll.subs)
      ensures readiness(nw).Err? ==>
        res == Err(readiness(nw).error) && reactor.wakersMap == old(reactor.wakersMap) && tasks.queue == []
      ensures readiness(nw).Ok? ==>
        var d := Dispatch(old(reactor.wakersMap), readiness(nw).value);
        res == d.result && reactor.wakersMap == d.wakers && tasks.queue == WokenTasks(d.woken)
      ensures trace == trace0 + [Waited(res, tasks.queue, old(reactor.wakersMap))]
      ensures Replay(program, readiness, b0, trace) == Some(Current(ne, nw + 1))
      ensures Run(locked, c0, trace) == Some(Config(tasks.queue, if res.Ok? then Polling else Finished))
      ensures Verdict(trace[|trace| - 1]) == if res.Err? then Some(Err(res.error)) else None
    {
      ghost var b := Current(ne, nw);
      var before := reactor.wakersMap;
      res := reactor.Wait(readiness(nw), tasks);
      var a := Waited(res, tasks.queue, before);
      RunAppend(locked, c0, trace0, a);
      assert b.table.wakers == before && b.waits == nw;
      WaitStep(program, readiness, b0, trace0, b, res, tasks.queue);
      trace := trace0 + [a];
    }

    /**
     * The rest of a round of `block_on`, after an entry poll that was pending:
     * drain the queue, then wait on the reactor for the `nw`-th answer of the
     * readiness source. `stop` is what `block_on` returns when this ends it.
     */
    method DrainThenWait<T>(program: Program<T>, readiness: nat -> Result<seq<Event>>, ghost c0: Config, ghost b0: Books,
                            trace0: seq<Action<T>>, ghost ne: nat, nw: nat, fuel: nat)
      returns (stop: Option<Outcome<T>>, trace: seq<Action<T>>, fuelLeft: nat, waits: nat)
      requires Valid()
      requires Run(locked, c0, trace0) == Some(Config(tasks.queue, Draining))
      requires Replay(program, readiness, b0, trace0) == Some(Current(ne, nw))
      modifies this, tasks, reactor, reactor.poll
      ensures Valid() && locked == old(locked)
      ensures Replay(program, readiness, b0, trace) == Some(Current(ne, waits))
      ensures stop.None? ==> waits == nw + 1
      ensures fuelLeft <= fuel && |PolledIds(trace)| + fuelLeft == |PolledIds(trace0)| + fuel
      ensures stop.None? ==> Run(locked, c0, trace) == Some(Config(tasks.queue, Polling))
      ensures stop == Some(OutOfFuel) ==>
        fuelLeft == 0 && Run(locked, c0, trace) == Some(Config(tasks.queue, Draining))
      ensures stop.Some? && stop.value.Done? ==>
        && Run(locked, c0, trace) == Some(Config(tasks.queue, Finished))
        && trace != [] && Verdict(trace[|trace| - 1]) == Some(stop.value.result)
    {
      stop, trace, fuelLeft := Drain(program, readiness, c0, b0, trace0, ne, nw, fuel);
      if stop.Some? {
        return stop, trace, fuelLeft, nw;
      }
      waits := nw + 1;
      var res;
      res, trace := AwaitReactor(program, readiness, c0, b0, trace, ne, nw);
      if res.Err? {
        return Some(Done(Err(res.error))), trace, fuelLeft, waits;
      }
    }

    /**
     * One round of `block_on`, which costs one unit of fuel for the entry poll
     * and one for each task poll: poll the entry future, drain the queue, then
     * wait on the reactor. `stop` is what `block_on` returns when the round
     * ends it; `None` means the next round starts, back in the polling phase.
     * The books end as the steps taken say.
     */
    method Round<T>(program: Program<T>, readiness: nat -> Result<seq<Event>>, ghost c0: Config, ghost b0: Books,
                    trace0: seq<Action<T>>, ne: nat, nw: nat, fuel: nat)
      returns (stop: Option<Outcome<T>>, trace: seq<Action<T>>, fuelLeft: nat, waits: nat)
      requires Valid() && fuel > 0
      requires Run(locked, c0, trace0) == Some(Config(tasks.queue, Polling))
      requires Replay(program, readiness, b0, trace0) == Some(Current(ne, nw))
      modifies this, tasks, reactor, reactor.poll
      ensures Valid() && locked == old(locked)
      ensures Replay(program, readiness, b0, trace) == Some(Current(ne + 1, waits))
      ensures stop.None? ==> waits == nw + 1
      ensures fuelLeft < fuel && |PolledIds(trace)| + fuelLeft + 1 == |PolledIds(trace0)| + fuel
      ensures stop.None? ==> Run(locked, c0, trace) == Some(Config(tasks.queue, Polling))
      ensures stop == Some(OutOfFuel) ==>
        fuelLeft == 0 && Run(locked, c0, trace) == Some(Config(tasks.queue, Draining))
      ensures stop.Some? && stop.value.Done? ==>
        && Run(locked, c0, trace) == Some(Config(tasks.queue, Finished))
        && trace != [] && Verdict(trace[|trace| - 1]) == Some(stop.value.result)
    {
      var poll;
      poll, trace := PollEntry(program, readiness, c0, b0, trace0, ne, nw);
      if poll.Ready? {
        return Some(Done(Ok(poll.value))), trace, fuel - 1, nw;
      }
      stop, trace, fuelLeft, waits := DrainThenWait(program, readiness, c0, b0, trace, ne + 1, nw, fuel - 1);
    }

    /**
     * `block_on`. Each round polls the entry future with the no-op waker and
     * returns its value once ready; otherwise it pops and polls queued tasks
     * (each with its own waker) until the queue is empty, failing with
     * "Cannot lock" on a task whose lock is held; then it waits on the reactor,
     * which may wake tasks, and any error from that wait ends the call.
     *
     * The returned trace records every step: it is accepted by `RunLoop.Run`,
     * its last step determines the result, it replays (`Replay`): every step in
     * it is what the oracle and the readiness source say on the books the
     * earlier steps left, and the books end as the replay says; and `OutOfFuel`
     * comes only once exactly `fuel` polls were made.
     */
    method BlockOn<T>(program: Program<T>, readiness: nat -> Result<seq<Event>>, fuel: nat)
      returns (r: Outcome<T>, trace: seq<Action<T>>)
      requires Valid()
      modifies this, tasks, reactor, reactor.poll
      ensures Valid() && locked == old(locked)
      ensures var c := Run(locked, Config(old(tasks.queue), Polling), trace);
        c.Some? && c.value.queue == tasks.queue && (c.value.phase == Finished <==> r.Done?)
      ensures r.Done? ==> trace != [] && Verdict(trace[|trace| - 1]) == Some(r.result)
      ensures var b0 := Books(old(reactor.Snapshot()), old(polls), old(taskCount), 0, 0);
        Replay(program, readiness, b0, trace) ==
          Some(Books(reactor.Snapshot(), polls, taskCount, |EntryPolls(trace)|, |Waits(trace)|))
      ensures |EntryPolls(trace)| + |PolledIds(trace)| <= fuel
      ensures r.OutOfFuel? ==> |EntryPolls(trace)| + |PolledIds(trace)| == fuel
    {
      ghost var c0 := Config(tasks.queue, Polling);
      ghost var b0 := Current(0, 0);
      assert b0 == Books(old(reactor.Snapshot()), old(polls), old(taskCount), 0, 0);
      var entryPolls: nat := 0;
      var waits: nat := 0;
      var fuelLeft := fuel;
      trace := [];
      while true
        invariant Valid() && locked == old(locked)
        invariant Run(locked, c0, trace) == Some(Config(tasks.queue, Polling))
        invariant Replay(program, readiness, b0, trace) == Some(Current(entryPolls, waits))
        invariant |EntryPolls(trace)| == entryPolls && |Waits(trace)| == waits
        invariant entryPolls + |PolledIds(trace)| + fuelLeft == fuel
        decreases fuelLeft
      {
        if fuelLeft == 0 {
          assert Current(entryPolls, waits) == Books(reactor.Snapshot(), polls, taskCount, |EntryPolls(trace)|, |Waits(trace)|);
          return OutOfFuel, trace;
        }
        var stop;
        stop, trace, fuelLeft, waits := Round(program, readiness, c0, b0, trace, entryPolls, waits, fuelLeft);
        entryPolls := entryPolls + 1;
        ReplayCounts(program, readiness, b0, trace);
        assert Current(entryPolls, waits) == Books(reactor.Snapshot(), polls, taskCount, |EntryPolls(trace)|, |Waits(trace)|);
        if stop.Some? {
          ghost var c := Run(locked, c0, trace);
          assert c.Some? && c.value.queue == tasks.queue && (c.value.phase == Finished <==> stop.value.Done?) by {
            if stop.value.Done? {
              assert c == Some(Config(tasks.queue, Finished));
            } else {
              assert c == Some(Config(tasks.queue, Draining));
            }
          }
          return stop.value, trace;
        }
      }
    }
  }
}
