/**
 * The subagent scheduler (runtime/subagents/scheduler.py) as interleaved segments: each event is what one
 * coroutine runs between two awaits. Child tasks, spawners, follow-ups, cancellers and closers interleave freely.
 */
module Scheduler {
  import opened Messages
  import B = Budgets

  datatype Status = Created | Queued | Running | Idle | Cancelling | Cancelled | Failed | Closed

  /** Where a child task stands: not yet started, at the semaphore, inside it, in its final cleanup, gone. */
  datatype Phase = Fresh | Waiting | Holding | Cleaning | Gone

  datatype Task = Task(agent: nat, phase: Phase, cancelled: bool)

  /** `dropped` records that the first task was cancelled before it ever started. */
  datatype Thread = Thread(status: Status, turns: nat, mailbox: nat, task: Option<nat>, dropped: bool)

  /** A caller inside `cancel`, or inside the `cancel` that `close` makes, then at the condition's lock. */
  datatype Caller = Awaiting(agent: nat, task: nat, closing: bool) | Locking(agent: nat)

  datatype Config = Config(maxConcurrent: nat, maxTotal: nat, maxTurns: nat, maxChars: nat)

  datatype State = State(
    cfg: Config,
    threads: seq<Thread>,
    tasks: seq<Task>,
    callers: map<nat, Caller>,
    keys: map<string, nat>,
    free: int,
    running: nat,
    budget: B.State)

  datatype Event =
    | Spawn(key: Option<string>, allowed: bool, local: B.Limits)
    | Begin(task: nat, queue: bool)
    | Wake(task: nat)
    | Finish(task: nat, success: bool, usedModel: nat, usedTools: nat)
    | Deliver(task: nat)
    | Cleaned(task: nat)
    | Send(agent: nat, chars: nat)
    | CallCancel(caller: nat, agent: nat)
    | CallClose(caller: nat, agent: nat, force: bool)
    | Resume(caller: nat)
    | Interrupt(caller: nat)

  function Initial(cfg: Config, limits: B.Limits): State {
    State(cfg, [], [], map[], map[], cfg.maxConcurrent, 0, B.Initial(limits))
  }

  function SetThread(s: State, a: nat, t: Thread): State
    requires a < |s.threads|
  {
    s.(threads := s.threads[a := t])
  }

  function SetTask(s: State, k: nat, t: Task): State
    requires k < |s.tasks|
  {
    s.(tasks := s.tasks[k := t])
  }

  function AddTask(s: State, a: nat): State
    requires a < |s.threads|
  {
    s.(threads := s.threads[a := s.threads[a].(status := Queued, task := Some(|s.tasks|))],
       tasks := s.tasks + [Task(a, Fresh, false)])
  }

  function SpawnChild(s: State, key: Option<string>, allowed: bool, local: B.Limits): State {
    if key.Some? && key.value in s.keys then s
    else if |s.threads| >= s.cfg.maxTotal || !allowed then s
    else
      var a := |s.threads|;
      var created := s.(threads := s.threads + [Thread(Created, 0, 0, None, false)]);
      if B.Breaks(s.budget, local).Some? then created
      else AddTask(created.(budget := B.Reserve(s.budget, a, local), keys := if key.Some? then s.keys[key.value := a] else s.keys), a)
  }

  function Acquire(s: State, k: nat): State
    requires k < |s.tasks| && s.tasks[k].agent < |s.threads|
  {
    var t := s.tasks[k];
    var th := s.threads[t.agent];
    SetThread(SetTask(s, k, t.(phase := Holding)), t.agent, th.(status := Running, turns := th.turns + 1))
      .(free := s.free - 1, running := s.running + 1)
  }

  /** A child leaves its work: final status, lease released once, permit and count given back if it had them. */
  function Leave(s: State, k: nat, status: Status, usedModel: nat, usedTools: nat): State
    requires k < |s.tasks| && s.tasks[k].agent < |s.threads|
  {
    var t := s.tasks[k];
    var left := SetThread(SetTask(s, k, t.(phase := Cleaning, cancelled := false)), t.agent, s.threads[t.agent].(status := status))
                .(budget := B.Release(s.budget, t.agent, usedModel, usedTools));
    if t.phase == Holding then left.(free := s.free + 1, running := if s.running > 0 then s.running - 1 else 0) else left
  }

  function BeginTask(s: State, k: nat, queue: bool): State
    requires k < |s.tasks| && s.tasks[k].agent < |s.threads|
  {
    var t := s.tasks[k];
    if t.phase != Fresh then s
    else if t.cancelled then
      var th := s.threads[t.agent];
      SetThread(SetTask(s, k, t.(phase := Gone)), t.agent, th.(dropped := th.dropped || th.turns == 0))
    else if s.free > 0 && !queue then Acquire(s, k)
    else SetTask(s, k, t.(phase := Waiting))
  }

  function DeliverTo(s: State, k: nat): State
    requires k < |s.tasks| && s.tasks[k].agent < |s.threads|
  {
    var t := s.tasks[k];
    if !t.cancelled then s
    else if t.phase in {Waiting, Holding} then Leave(s, k, Cancelled, 0, 0)
    else if t.phase == Cleaning then SetTask(s, k, t.(phase := Gone))
    else s
  }

  function SendTo(s: State, a: nat, chars: nat): State
    requires a < |s.threads|
  {
    var th := s.threads[a];
    if th.status in {Closed, Cancelled, Failed} || chars > s.cfg.maxChars || th.turns >= s.cfg.maxTurns then s
    else
      var told := SetThread(s, a, th.(mailbox := th.mailbox + 1));
      if th.status == Idle then AddTask(told, a) else told
  }

  predicate Active(status: Status) { status in {Created, Queued, Running, Cancelling} }

  /** What `cancel` runs before it waits for the child, or all of it when there is nothing to wait for. */
  function CancelFor(s: State, c: nat, a: nat, closing: bool): State
    requires a < |s.threads|
  {
    var th := s.threads[a];
    if th.task.Some? && th.task.value < |s.tasks| && s.tasks[th.task.value].phase != Gone then
      var k := th.task.value;
      SetThread(SetTask(s, k, s.tasks[k].(cancelled := true)), a, th.(status := Cancelling))
        .(callers := s.callers[c := Awaiting(a, k, closing)])
    else
      SetThread(s, a, th.(status := Cancelled)).(callers := if closing then s.callers[c := Locking(a)] else s.callers)
  }

  function Forget(s: State, c: nat): State { s.(callers := s.callers - {c}) }

  /** What `cancel` runs once its wait is over. */
  function AfterWait(s: State, c: nat): State
    requires c in s.callers && s.callers[c].agent < |s.threads|
  {
    var a, th := s.callers[c].agent, s.threads[s.callers[c].agent];
    match s.callers[c]
    case Locking(_) => Forget(SetThread(s, a, th.(status := Closed)), c)
    case Awaiting(_, _, closing) =>
      var marked := if th.status == Cancelling then SetThread(s, a, th.(status := Cancelled)) else s;
      if closing then marked.(callers := s.callers[c := Locking(a)]) else Forget(marked, c)
  }

  /**
   * A caller is itself cancelled. While it waits for the child, the cancellation goes on to the child's task
   * and the caller stays where it is; once that one is gone it is swallowed; at the lock it ends the caller.
   */
  function InterruptCaller(s: State, c: nat): State
    requires c in s.callers && s.callers[c].agent < |s.threads|
  {
    match s.callers[c]
    case Locking(_) => Forget(s, c)
    case Awaiting(_, k, _) =>
      if k >= |s.tasks| then s
      else if s.tasks[k].phase == Gone then AfterWait(s, c)
      else SetTask(s, k, s.tasks[k].(cancelled := true))
  }

  function Step(s: State, e: Event): State {
    match e
    case Spawn(key, allowed, local) => SpawnChild(s, key, allowed, local)
    case Begin(k, queue) => if k < |s.tasks| && s.tasks[k].agent < |s.threads| then BeginTask(s, k, queue) else s
    case Wake(k) =>
      if k < |s.tasks| && s.tasks[k].agent < |s.threads| && s.tasks[k].phase == Waiting && !s.tasks[k].cancelled && s.free > 0
      then Acquire(s, k) else s
    case Finish(k, success, m, t) =>
      if k < |s.tasks| && s.tasks[k].agent < |s.threads| && s.tasks[k].phase == Holding && !s.tasks[k].cancelled
      then Leave(s, k, if success then Idle else Failed, m, t) else s
    case Deliver(k) => if k < |s.tasks| && s.tasks[k].agent < |s.threads| then DeliverTo(s, k) else s
    case Cleaned(k) =>
      if k < |s.tasks| && s.tasks[k].phase == Cleaning then SetTask(s, k, s.tasks[k].(phase := Gone)) else s
    case Send(a, chars) => if a < |s.threads| then SendTo(s, a, chars) else s
    case CallCancel(c, a) =>
      if a >= |s.threads| || c in s.callers || s.threads[a].status in {Cancelled, Closed, Failed} then s
      else CancelFor(s, c, a, false)
    case CallClose(c, a, force) =>
      if a >= |s.threads| || c in s.callers then s
      else if !Active(s.threads[a].status) then SetThread(s, a, s.threads[a].(status := Closed))
      else if force then CancelFor(s, c, a, true) else s
    case Resume(c) =>
      if c !in s.callers || s.callers[c].agent >= |s.threads| then s
      else if s.callers[c].Awaiting? && (s.callers[c].task >= |s.tasks| || s.tasks[s.callers[c].task].phase != Gone) then s
      else AfterWait(s, c)
    case Interrupt(c) =>
      if c !in s.callers || s.callers[c].agent >= |s.threads| then s else InterruptCaller(s, c)
  }

  function Run(s: State, events: seq<Event>): State {
    if events == [] then s else Step(Run(s, events[..|events| - 1]), events[|events| - 1])
  }

  // ----- The invariant -----

  function Held(tasks: seq<Task>): nat {
    if tasks == [] then 0
    else Held(tasks[..|tasks| - 1]) + if tasks[|tasks| - 1].phase == Holding then 1 else 0
  }

  predicate Live(p: Phase) { p in {Fresh, Waiting, Holding} }

  /** The permits in use are those of the children inside the semaphore. */
  predicate Permits(s: State) {
    s.running == Held(s.tasks) && s.free + s.running == s.cfg.maxConcurrent && s.free >= 0
  }

  /** A live task is its thread's current one, and the status says what it is doing. */
  predicate TaskFits(s: State, k: nat)
    requires k < |s.tasks|
  {
    var t := s.tasks[k];
    && t.agent < |s.threads|
    && (Live(t.phase) ==>
          var th := s.threads[t.agent];
          && th.task == Some(k)
          && (if t.cancelled then th.status == Cancelling
              else th.status == if t.phase == Holding then Running else Queued)
          && (t.phase != Holding ==> th.turns == 0 || th.turns < s.cfg.maxTurns)
          && (t.phase == Holding ==> th.turns > 0))
  }

  function TurnLimit(cfg: Config): nat { if cfg.maxTurns > 1 then cfg.maxTurns else 1 }

  predicate LiveFor(s: State, a: nat)
    requires a < |s.threads|
  {
    var k := s.threads[a].task;
    k.Some? && k.value < |s.tasks| && Live(s.tasks[k.value].phase)
  }

  predicate ThreadFits(s: State, a: nat)
    requires a < |s.threads|
  {
    var th := s.threads[a];
    && th.turns <= TurnLimit(s.cfg)
    && (th.status in {Queued, Running} ==> LiveFor(s, a))
    && (th.task.Some? ==> th.task.value < |s.tasks| && s.tasks[th.task.value].agent == a)
  }

  /** A canceller waits for the current task of a thread that nobody can revive. */
  predicate CallerFits(s: State, c: nat)
    requires c in s.callers
  {
    var caller := s.callers[c];
    && caller.agent < |s.threads|
    && (caller.Awaiting? ==> s.threads[caller.agent].task == Some(caller.task) && s.threads[caller.agent].status in {Cancelling, Cancelled, Closed})
    && (caller.Locking? ==> s.threads[caller.agent].status in {Cancelled, Closed})
  }

  predicate Consistent(s: State) {
    && Permits(s)
    && |s.threads| <= s.cfg.maxTotal
    && (forall k :: 0 <= k < |s.tasks| ==> TaskFits(s, k))
    && (forall a :: 0 <= a < |s.threads| ==> ThreadFits(s, a))
    && (forall c :: c in s.callers ==> CallerFits(s, c))
  }

  lemma {:induction false} HeldUpdate(tasks: seq<Task>, k: nat, t: Task)
    requires k < |tasks|
    ensures Held(tasks[k := t]) == Held(tasks) - (if tasks[k].phase == Holding then 1 else 0) + (if t.phase == Holding then 1 else 0)
  {
    var n := |tasks| - 1;
    if k < n {
      assert tasks[k := t][..n] == tasks[..n][k := t];
      HeldUpdate(tasks[..n], k, t);
    } else {
      assert tasks[k := t][..n] == tasks[..n];
    }
  }

  lemma HeldAppend(tasks: seq<Task>, t: Task)
    ensures Held(tasks + [t]) == Held(tasks) + if t.phase == Holding then 1 else 0
  {
    assert (tasks + [t])[..|tasks|] == tasks;
  }

  /** A status may change only forwards for whoever waits on it. */
  predicate Settles(before: Status, after: Status) {
    && (before in {Cancelling, Cancelled, Closed} ==> after in {Cancelling, Cancelled, Closed})
    && (before in {Cancelled, Closed} ==> after in {Cancelled, Closed})
    && (before == Closed ==> after == Closed)
  }

  /** A step on one task and its thread. */
  lemma OneTask(s: State, n: State, k: nat, t: Task, th: Thread)
    requires Consistent(s) && k < |s.tasks| && s.tasks[k].agent < |s.threads|
    requires var a := s.tasks[k].agent;
             && t.agent == a && n.cfg == s.cfg && n.tasks == s.tasks[k := t] && n.threads == s.threads[a := th] && n.callers == s.callers
             && (th == s.threads[a] || (s.threads[a].task == Some(k) && th.task == Some(k)))
             && Settles(s.threads[a].status, th.status)
             && TaskFits(n, k) && ThreadFits(n, a)
    requires Permits(n)
    ensures Consistent(n)
  {
    var a := s.tasks[k].agent;
    forall j | 0 <= j < |n.tasks|
      ensures TaskFits(n, j)
    {
      assert TaskFits(s, j);
    }
    forall b | 0 <= b < |n.threads|
      ensures ThreadFits(n, b)
    {
      assert ThreadFits(s, b);
    }
    forall c | c in n.callers
      ensures CallerFits(n, c)
    {
      assert CallerFits(s, c);
    }
  }

  lemma AcquireFits(s: State, k: nat)
    requires Consistent(s) && k < |s.tasks| && s.tasks[k].phase in {Fresh, Waiting} && !s.tasks[k].cancelled && s.free > 0
    requires TaskFits(s, k) && ThreadFits(s, s.tasks[k].agent)
    ensures Consistent(Acquire(s, k))
  {
    var n := Acquire(s, k);
    HeldUpdate(s.tasks, k, n.tasks[k]);
    OneTask(s, n, k, n.tasks[k], n.threads[s.tasks[k].agent]);
  }

  lemma LeaveFits(s: State, k: nat, status: Status, m: nat, t: nat)
    requires Consistent(s) && k < |s.tasks| && s.tasks[k].phase in {Waiting, Holding}
    requires TaskFits(s, k) && ThreadFits(s, s.tasks[k].agent)
    requires status == Cancelled || (status in {Idle, Failed} && !s.tasks[k].cancelled)
    ensures Consistent(Leave(s, k, status, m, t))
  {
    var n := Leave(s, k, status, m, t);
    HeldUpdate(s.tasks, k, n.tasks[k]);
    HeldBound(s.tasks, k);
    OneTask(s, n, k, n.tasks[k], n.threads[s.tasks[k].agent]);
  }

  lemma {:induction false} HeldBound(tasks: seq<Task>, k: nat)
    requires k < |tasks|
    ensures tasks[k].phase == Holding ==> Held(tasks) > 0
  {
    if k < |tasks| - 1 {
      HeldBound(tasks[..|tasks| - 1], k);
    }
  }

  lemma BeginFits(s: State, k: nat, queue: bool)
    requires Consistent(s) && k < |s.tasks| && TaskFits(s, k) && ThreadFits(s, s.tasks[k].agent)
    ensures Consistent(BeginTask(s, k, queue))
  {
    var t := s.tasks[k];
    if t.phase == Fresh {
      if !t.cancelled && s.free > 0 && !queue {
        AcquireFits(s, k);
      } else {
        var n := BeginTask(s, k, queue);
        HeldUpdate(s.tasks, k, n.tasks[k]);
        OneTask(s, n, k, n.tasks[k], n.threads[t.agent]);
      }
    }
  }

  lemma GoneFits(s: State, k: nat)
    requires Consistent(s) && k < |s.tasks| && TaskFits(s, k) && ThreadFits(s, s.tasks[k].agent)
    requires s.tasks[k].phase == Cleaning
    ensures Consistent(SetTask(s, k, s.tasks[k].(phase := Gone)))
  {
    var n := SetTask(s, k, s.tasks[k].(phase := Gone));
    HeldUpdate(s.tasks, k, n.tasks[k]);
    OneTask(s, n, k, n.tasks[k], s.threads[s.tasks[k].agent]);
  }

  /** A thread gets a new task: no task of it is live, and nobody waits on it. */
  lemma AddedTaskFits(s: State, a: nat)
    requires Consistent(s) && a < |s.threads| && s.threads[a].status in {Idle, Created}
    requires s.threads[a].turns == 0 || s.threads[a].turns < s.cfg.maxTurns
    ensures forall j :: 0 <= j < |AddTask(s, a).tasks| ==> TaskFits(AddTask(s, a), j)
  {
    var n := AddTask(s, a);
    assert ThreadFits(s, a);
    forall j | 0 <= j < |n.tasks|
      ensures TaskFits(n, j)
    {
      if j < |s.tasks| {
        assert TaskFits(s, j);
      }
    }
  }

  lemma AddTaskFits(s: State, a: nat)
    requires Consistent(s) && a < |s.threads| && s.threads[a].status in {Idle, Created}
    requires s.threads[a].turns == 0 || s.threads[a].turns < s.cfg.maxTurns
    ensures Consistent(AddTask(s, a))
  {
    var n := AddTask(s, a);
    HeldAppend(s.tasks, n.tasks[|s.tasks|]);
    assert ThreadFits(s, a);
    AddedTaskFits(s, a);
    forall b | 0 <= b < |n.threads|
      ensures ThreadFits(n, b)
    {
      assert ThreadFits(s, b);
    }
    forall c | c in n.callers
      ensures CallerFits(n, c)
    {
      assert CallerFits(s, c);
    }
  }

  /** Only fields outside the invariant change in one thread. */
  lemma ToldFits(s: State, a: nat, th: Thread)
    requires Consistent(s) && a < |s.threads|
    requires th.status == s.threads[a].status && th.task == s.threads[a].task && th.turns == s.threads[a].turns
    ensures Consistent(SetThread(s, a, th))
  {
    var n := SetThread(s, a, th);
    forall j | 0 <= j < |n.tasks|
      ensures TaskFits(n, j)
    {
      assert TaskFits(s, j);
    }
    forall b | 0 <= b < |n.threads|
      ensures ThreadFits(n, b)
    {
      assert ThreadFits(s, b);
    }
    forall c | c in n.callers
      ensures CallerFits(n, c)
    {
      assert CallerFits(s, c);
    }
  }

  lemma SendFits(s: State, a: nat, chars: nat)
    requires Consistent(s) && a < |s.threads|
    ensures Consistent(SendTo(s, a, chars))
  {
    var th := s.threads[a];
    if !(th.status in {Closed, Cancelled, Failed} || chars > s.cfg.maxChars || th.turns >= s.cfg.maxTurns) {
      var told := SetThread(s, a, th.(mailbox := th.mailbox + 1));
      ToldFits(s, a, th.(mailbox := th.mailbox + 1));
      if th.status == Idle {
        AddTaskFits(told, a);
      }
    }
  }

  lemma NewThreadFits(s: State, n: State)
    requires Consistent(s) && |s.threads| < s.cfg.maxTotal
    requires n.cfg == s.cfg && n.tasks == s.tasks && n.callers == s.callers && n.free == s.free && n.running == s.running
    requires n.threads == s.threads + [Thread(Created, 0, 0, None, false)]
    ensures Consistent(n)
  {
    forall j | 0 <= j < |n.tasks|
      ensures TaskFits(n, j)
    {
      assert TaskFits(s, j);
    }
    forall b | 0 <= b < |n.threads|
      ensures ThreadFits(n, b)
    {
      if b < |s.threads| {
        assert ThreadFits(s, b);
      }
    }
    forall c | c in n.callers
      ensures CallerFits(n, c)
    {
      assert CallerFits(s, c);
    }
  }

  lemma SpawnFits(s: State, key: Option<string>, allowed: bool, local: B.Limits)
    requires Consistent(s)
    ensures Consistent(SpawnChild(s, key, allowed, local))
  {
    if !(key.Some? && key.value in s.keys) && |s.threads| < s.cfg.maxTotal && allowed {
      var a := |s.threads|;
      var created := s.(threads := s.threads + [Thread(Created, 0, 0, None, false)]);
      NewThreadFits(s, created);
      if B.Breaks(s.budget, local).None? {
        var funded := created.(budget := B.Reserve(s.budget, a, local), keys := if key.Some? then s.keys[key.value := a] else s.keys);
        NewThreadFits(s, funded);
        AddTaskFits(funded, a);
      }
    }
  }

  lemma CancelFits(s: State, c: nat, a: nat, closing: bool)
    requires Consistent(s) && a < |s.threads| && c !in s.callers && s.threads[a].status !in {Cancelled, Closed, Failed}
    ensures Consistent(CancelFor(s, c, a, closing))
  {
    var th := s.threads[a];
    assert ThreadFits(s, a);
    if th.task.Some? && s.tasks[th.task.value].phase != Gone {
      var k := th.task.value;
      assert TaskFits(s, k);
      var m := SetThread(SetTask(s, k, s.tasks[k].(cancelled := true)), a, th.(status := Cancelling));
      HeldUpdate(s.tasks, k, m.tasks[k]);
      OneTask(s, m, k, m.tasks[k], m.threads[a]);
      NewCaller(m, c, Awaiting(a, k, closing));
    } else {
      var m := SetThread(s, a, th.(status := Cancelled));
      NothingLive(s, a);
      MarkFits(s, a, Cancelled);
      if closing {
        NewCaller(m, c, Locking(a));
      }
    }
  }

  lemma NewCaller(s: State, c: nat, caller: Caller)
    requires Consistent(s)
    requires CallerFits(s.(callers := s.callers[c := caller]), c)
    ensures Consistent(s.(callers := s.callers[c := caller]))
  {
    var n := s.(callers := s.callers[c := caller]);
    forall d | d in n.callers
      ensures CallerFits(n, d)
    {
      if d != c {
        assert CallerFits(s, d);
      }
    }
    forall j | 0 <= j < |n.tasks|
      ensures TaskFits(n, j)
    {
      assert TaskFits(s, j);
    }
    forall b | 0 <= b < |n.threads|
      ensures ThreadFits(n, b)
    {
      assert ThreadFits(s, b);
    }
  }

  lemma ForgetFits(s: State, c: nat)
    requires Consistent(s)
    ensures Consistent(Forget(s, c))
  {
    var n := Forget(s, c);
    forall d | d in n.callers
      ensures CallerFits(n, d)
    {
      assert CallerFits(s, d);
    }
    forall j | 0 <= j < |n.tasks|
      ensures TaskFits(n, j)
    {
      assert TaskFits(s, j);
    }
    forall b | 0 <= b < |n.threads|
      ensures ThreadFits(n, b)
    {
      assert ThreadFits(s, b);
    }
  }

  /** A thread without a live task takes a final status. */
  lemma MarkFits(s: State, a: nat, status: Status)
    requires Consistent(s) && a < |s.threads| && status in {Cancelled, Closed} && Settles(s.threads[a].status, status)
    requires forall k :: 0 <= k < |s.tasks| && s.tasks[k].agent == a ==> !Live(s.tasks[k].phase)
    ensures Consistent(SetThread(s, a, s.threads[a].(status := status)))
  {
    var n := SetThread(s, a, s.threads[a].(status := status));
    forall j | 0 <= j < |n.tasks|
      ensures TaskFits(n, j)
    {
      assert TaskFits(s, j);
    }
    forall b | 0 <= b < |n.threads|
      ensures ThreadFits(n, b)
    {
      assert ThreadFits(s, b);
    }
    forall c | c in n.callers
      ensures CallerFits(n, c)
    {
      assert CallerFits(s, c);
    }
  }

  /** A thread whose current task is gone, or whose status says so, has no live task. */
  lemma NothingLive(s: State, a: nat)
    requires Consistent(s) && a < |s.threads|
    requires s.threads[a].status in {Created, Idle, Cancelled, Failed, Closed} || !LiveFor(s, a)
    ensures forall k :: 0 <= k < |s.tasks| && s.tasks[k].agent == a ==> !Live(s.tasks[k].phase)
  {
    forall k | 0 <= k < |s.tasks| && s.tasks[k].agent == a
      ensures !Live(s.tasks[k].phase)
    {
      assert TaskFits(s, k);
    }
  }

  lemma CloseFits(s: State, c: nat, a: nat, force: bool)
    requires Consistent(s)
    ensures Consistent(Step(s, CallClose(c, a, force)))
  {
    if a < |s.threads| && c !in s.callers {
      if !Active(s.threads[a].status) {
        assert s.threads[a].status.Idle? || s.threads[a].status.Cancelled? || s.threads[a].status.Failed? || s.threads[a].status.Closed?;
        NothingLive(s, a);
        MarkFits(s, a, Closed);
      } else if force {
        CancelFits(s, c, a, true);
      }
    }
  }

  lemma ResumeFits(s: State, c: nat)
    requires Consistent(s)
    ensures Consistent(Step(s, Resume(c)))
  {
    if c in s.callers {
      assert CallerFits(s, c);
      var a := s.callers[c].agent;
      assert ThreadFits(s, a);
      if s.callers[c].Locking? {
        NothingLive(s, a);
        MarkFits(s, a, Closed);
        ForgetFits(SetThread(s, a, s.threads[a].(status := Closed)), c);
      } else if s.tasks[s.callers[c].task].phase == Gone {
        NothingLive(s, a);
        AfterWaitFits(s, c);
      }
    }
  }

  lemma InterruptFits(s: State, c: nat)
    requires Consistent(s)
    ensures Consistent(Step(s, Interrupt(c)))
  {
    if c in s.callers {
      assert CallerFits(s, c);
      var a := s.callers[c].agent;
      assert ThreadFits(s, a);
      if s.callers[c].Locking? {
        ForgetFits(s, c);
      } else if s.tasks[s.callers[c].task].phase == Gone {
        NothingLive(s, a);
        AfterWaitFits(s, c);
      } else {
        ForwardFits(s, s.callers[c].task);
      }
    }
  }

  /** Cancelling a task whose thread is already being cancelled, or beyond. */
  lemma ForwardFits(s: State, k: nat)
    requires Consistent(s) && k < |s.tasks| && s.tasks[k].agent < |s.threads|
    requires s.threads[s.tasks[k].agent].status in {Cancelling, Cancelled, Closed}
    ensures Consistent(SetTask(s, k, s.tasks[k].(cancelled := true)))
  {
    var n := SetTask(s, k, s.tasks[k].(cancelled := true));
    assert TaskFits(s, k) && ThreadFits(s, s.tasks[k].agent);
    HeldUpdate(s.tasks, k, n.tasks[k]);
    OneTask(s, n, k, n.tasks[k], s.threads[s.tasks[k].agent]);
  }

  lemma AfterWaitFits(s: State, c: nat)
    requires Consistent(s) && c in s.callers && s.callers[c].Awaiting? && CallerFits(s, c)
    requires forall k :: 0 <= k < |s.tasks| && s.tasks[k].agent == s.callers[c].agent ==> !Live(s.tasks[k].phase)
    ensures Consistent(AfterWait(s, c))
  {
    var a, th := s.callers[c].agent, s.threads[s.callers[c].agent];
    var marked := s;
    if th.status == Cancelling {
      MarkFits(s, a, Cancelled);
      marked := SetThread(s, a, th.(status := Cancelled));
    }
    if s.callers[c].closing {
      NewCaller(marked, c, Locking(a));
    } else {
      ForgetFits(marked, c);
    }
  }

  lemma TaskStepFits(s: State, e: Event)
    requires Consistent(s) && (e.Begin? || e.Wake? || e.Finish? || e.Deliver? || e.Cleaned?)
    ensures Consistent(Step(s, e))
  {
    var k := e.task;
    if k < |s.tasks| {
      assert TaskFits(s, k) && ThreadFits(s, s.tasks[k].agent);
      match e
      case Begin(_, queue) => BeginFits(s, k, queue);
      case Wake(_) =>
        if s.tasks[k].phase == Waiting && !s.tasks[k].cancelled && s.free > 0 {
          AcquireFits(s, k);
        }
      case Finish(_, success, m, t) =>
        if s.tasks[k].phase == Holding && !s.tasks[k].cancelled {
          LeaveFits(s, k, if success then Idle else Failed, m, t);
        }
      case Deliver(_) =>
        if s.tasks[k].cancelled {
          if s.tasks[k].phase in {Waiting, Holding} {
            LeaveFits(s, k, Cancelled, 0, 0);
          } else if s.tasks[k].phase == Cleaning {
            GoneFits(s, k);
          }
        }
      case Cleaned(_) =>
        if s.tasks[k].phase == Cleaning {
          GoneFits(s, k);
        }
    }
  }

  lemma StepFits(s: State, e: Event)
    requires Consistent(s)
    ensures Consistent(Step(s, e))
  {
    match e
    case Spawn(key, allowed, local) => SpawnFits(s, key, allowed, local);
    case Send(a, chars) =>
      if a < |s.threads| {
        SendFits(s, a, chars);
      }
    case CallCancel(c, a) =>
      if a < |s.threads| && c !in s.callers && s.threads[a].status !in {Cancelled, Closed, Failed} {
        CancelFits(s, c, a, false);
      }
    case CallClose(c, a, force) => CloseFits(s, c, a, force);
    case Resume(c) => ResumeFits(s, c);
    case Interrupt(c) => InterruptFits(s, c);
    case _ => TaskStepFits(s, e);
  }

  lemma {:induction false} RunFits(cfg: Config, limits: B.Limits, events: seq<Event>)
    ensures Consistent(Run(Initial(cfg, limits), events))
  {
    if events != [] {
      var n := |events| - 1;
      RunFits(cfg, limits, events[..n]);
      StepFits(Run(Initial(cfg, limits), events[..n]), events[n]);
    }
  }

  /** How many tasks of one thread hold a permit. */
  function HeldBy(tasks: seq<Task>, a: nat): nat {
    if tasks == [] then 0
    else HeldBy(tasks[..|tasks| - 1], a) + if tasks[|tasks| - 1].phase == Holding && tasks[|tasks| - 1].agent == a then 1 else 0
  }

  lemma {:induction false} HeldByOne(tasks: seq<Task>, a: nat, k: nat)
    requires forall j :: 0 <= j < |tasks| && tasks[j].phase == Holding && tasks[j].agent == a ==> j == k
    ensures HeldBy(tasks, a) == if k < |tasks| && tasks[k].phase == Holding && tasks[k].agent == a then 1 else 0
  {
    if tasks != [] {
      HeldByOne(tasks[..|tasks| - 1], a, k);
    }
  }

  /**
   * Over every interleaving of spawning, running, follow-ups, cancelling and closing: the running count is
   * the number of children inside the semaphore and never exceeds the limit; a RUNNING thread holds exactly
   * one permit and an IDLE, FAILED, CANCELLED or CLOSED one none; there are never too many threads, and no
   * thread takes more turns than allowed (a first turn is always allowed).
   */
  lemma SchedulerSafety(cfg: Config, limits: B.Limits, events: seq<Event>)
    ensures var s := Run(Initial(cfg, limits), events);
            && s.running == Held(s.tasks) <= cfg.maxConcurrent
            && |s.threads| <= cfg.maxTotal
            && forall a :: 0 <= a < |s.threads| ==>
                 && (s.threads[a].status == Running ==> HeldBy(s.tasks, a) == 1)
                 && (s.threads[a].status in {Created, Queued, Idle, Failed, Cancelled, Closed} ==> HeldBy(s.tasks, a) == 0)
                 && s.threads[a].turns <= (if cfg.maxTurns > 1 then cfg.maxTurns else 1)
  {
    RunFits(cfg, limits, events);
    RunConfig(cfg, limits, events);
    var s := Run(Initial(cfg, limits), events);
    forall a | 0 <= a < |s.threads|
      ensures && (s.threads[a].status == Running ==> HeldBy(s.tasks, a) == 1)
              && (s.threads[a].status in {Created, Queued, Idle, Failed, Cancelled, Closed} ==> HeldBy(s.tasks, a) == 0)
              && s.threads[a].turns <= (if cfg.maxTurns > 1 then cfg.maxTurns else 1)
    {
      PermitsOf(s, a);
    }
  }

  lemma PermitsOf(s: State, a: nat)
    requires Consistent(s) && a < |s.threads|
    ensures s.threads[a].status == Running ==> HeldBy(s.tasks, a) == 1
    ensures s.threads[a].status in {Created, Queued, Idle, Failed, Cancelled, Closed} ==> HeldBy(s.tasks, a) == 0
    ensures ThreadFits(s, a)
  {
    assert ThreadFits(s, a);
    var k := if s.threads[a].task.Some? then s.threads[a].task.value else |s.tasks|;
    forall j | 0 <= j < |s.tasks| && s.tasks[j].phase == Holding && s.tasks[j].agent == a
      ensures j == k
    {
      assert TaskFits(s, j);
    }
    HeldByOne(s.tasks, a, k);
    if k < |s.tasks| {
      assert TaskFits(s, k);
    }
  }

  lemma {:induction false} RunConfig(cfg: Config, limits: B.Limits, events: seq<Event>)
    ensures Run(Initial(cfg, limits), events).cfg == cfg
  {
    if events != [] {
      RunConfig(cfg, limits, events[..|events| - 1]);
      StepConfig(Run(Initial(cfg, limits), events[..|events| - 1]), events[|events| - 1]);
    }
  }

  lemma StepConfig(s: State, e: Event)
    ensures Step(s, e).cfg == s.cfg
  {
  }

  // ----- CLOSED is final -----

  lemma ClosedStep(s: State, e: Event, a: nat)
    requires Consistent(s) && a < |s.threads| && s.threads[a].status == Closed
    ensures var n := Step(s, e); a < |n.threads| && n.threads[a].status == Closed
  {
    NothingLive(s, a);
    if (e.Resume? || e.Interrupt?) && e.caller in s.callers {
      assert CallerFits(s, e.caller);
    }
  }

  lemma {:induction false} ClosedLasts(s: State, events: seq<Event>, a: nat)
    requires Consistent(s) && a < |s.threads| && s.threads[a].status == Closed
    ensures var t := Run(s, events); Consistent(t) && a < |t.threads| && t.threads[a].status == Closed
  {
    if events != [] {
      var n := |events| - 1;
      ClosedLasts(s, events[..n], a);
      var t := Run(s, events[..n]);
      StepFits(t, events[n]);
      ClosedStep(t, events[n], a);
    }
  }

  lemma {:induction false} RunFrom(s: State, before: seq<Event>, after: seq<Event>)
    ensures Run(s, before + after) == Run(Run(s, before), after)
  {
    if after == [] {
      assert before + after == before;
    } else {
      RunFrom(s, before, after[..|after| - 1]);
      assert (before + after)[..|before + after| - 1] == before + after[..|after| - 1];
    }
  }

  /** Nothing that happens later brings a closed child back. */
  lemma ClosedForever(cfg: Config, limits: B.Limits, before: seq<Event>, after: seq<Event>, a: nat)
    requires var s := Run(Initial(cfg, limits), before); a < |s.threads| && s.threads[a].status == Closed
    ensures var t := Run(Initial(cfg, limits), before + after); a < |t.threads| && t.threads[a].status == Closed
  {
    RunFits(cfg, limits, before);
    ClosedLasts(Run(Initial(cfg, limits), before), after, a);
    RunFrom(Initial(cfg, limits), before, after);
  }

  // ----- Leases -----

  predicate Unreleased(s: State, a: nat) { a in s.budget.leases && !s.budget.leases[a].released }

  /** The first task of a thread is still on its way. */
  predicate FirstTaskLive(s: State, a: nat)
    requires a < |s.threads|
  {
    LiveFor(s, a) && s.threads[a].turns == if s.tasks[s.threads[a].task.value].phase == Holding then 1 else 0
  }

  predicate LeaseFits(s: State, a: nat)
    requires a < |s.threads|
  {
    && (Unreleased(s, a) <==> FirstTaskLive(s, a) || s.threads[a].dropped)
    && (s.threads[a].dropped ==> s.threads[a].status in {Cancelling, Cancelled, Closed} && !LiveFor(s, a))
    && (s.threads[a].status == Idle ==> s.threads[a].turns > 0)
  }

  /** Every unreleased lease belongs to a first task on its way, or to one dropped before it started. */
  ghost predicate Leased(s: State) {
    && B.Conserved(s.budget)
    && (forall a :: a in s.budget.leases ==> a < |s.threads|)
    && (forall a :: 0 <= a < |s.threads| ==> LeaseFits(s, a))
  }

  lemma ReleaseLeases(b: B.State, a: nat, m: nat, t: nat)
    ensures var r := B.Release(b, a, m, t);
            && r.leases.Keys == b.leases.Keys
            && (forall x :: x in b.leases && x != a ==> r.leases[x] == b.leases[x])
            && (a in r.leases ==> r.leases[a].released)
  {
  }

  /** A step on one thread and one of its tasks keeps the leases of all the others. */
  lemma OneLease(s: State, n: State, a: nat)
    requires Consistent(s) && Consistent(n) && Leased(s) && a < |s.threads| == |n.threads|
    requires B.Conserved(n.budget) && n.budget.leases.Keys == s.budget.leases.Keys
    requires forall x :: x in s.budget.leases && x != a ==> n.budget.leases[x] == s.budget.leases[x]
    requires forall b :: 0 <= b < |s.threads| && b != a ==> n.threads[b] == s.threads[b]
    requires |n.tasks| >= |s.tasks| && forall k :: 0 <= k < |s.tasks| && s.tasks[k].agent != a ==> n.tasks[k] == s.tasks[k]
    requires LeaseFits(n, a)
    ensures Leased(n)
  {
    forall b | 0 <= b < |n.threads|
      ensures LeaseFits(n, b)
    {
      assert LeaseFits(s, b) && ThreadFits(s, b) && ThreadFits(n, b);
    }
  }

  lemma AcquireLease(s: State, k: nat, n: State)
    requires Consistent(s) && Leased(s) && k < |s.tasks| && s.tasks[k].agent < |s.threads|
    requires s.tasks[k].phase in {Fresh, Waiting} && !s.tasks[k].cancelled && n == Acquire(s, k) && Consistent(n)
    ensures Leased(n)
  {
    var a := s.tasks[k].agent;
    assert TaskFits(s, k) && LeaseFits(s, a);
    OneLease(s, n, a);
  }

  lemma LeaveLease(s: State, k: nat, status: Status, m: nat, t: nat, n: State)
    requires Consistent(s) && Leased(s) && k < |s.tasks| && s.tasks[k].agent < |s.threads|
    requires s.tasks[k].phase in {Waiting, Holding} && (status == Cancelled || (status in {Idle, Failed} && !s.tasks[k].cancelled && s.tasks[k].phase == Holding))
    requires n == Leave(s, k, status, m, t) && Consistent(n)
    ensures Leased(n)
  {
    var a := s.tasks[k].agent;
    assert TaskFits(s, k) && LeaseFits(s, a);
    ReleaseLeases(s.budget, a, m, t);
    B.ReleaseConserves(s.budget, a, m, t);
    OneLease(s, n, a);
  }

  /** A task that leaves no work behind: queued, dropped, or cleaned up. */
  lemma QuietLease(s: State, k: nat, n: State)
    requires Consistent(s) && Leased(s) && k < |s.tasks| && s.tasks[k].agent < |s.threads| && Consistent(n)
    requires || (s.tasks[k].phase == Fresh && !s.tasks[k].cancelled && n == SetTask(s, k, s.tasks[k].(phase := Waiting)))
             || (s.tasks[k].phase == Fresh && s.tasks[k].cancelled && n == BeginTask(s, k, false))
             || (s.tasks[k].phase == Cleaning && n == SetTask(s, k, s.tasks[k].(phase := Gone)))
    ensures Leased(n)
  {
    var a := s.tasks[k].agent;
    assert TaskFits(s, k) && ThreadFits(s, a) && LeaseFits(s, a);
    OneLease(s, n, a);
  }

  lemma TaskLease(s: State, e: Event)
    requires Consistent(s) && Leased(s) && (e.Begin? || e.Wake? || e.Finish? || e.Deliver? || e.Cleaned?)
    ensures Leased(Step(s, e))
  {
    var k, n := e.task, Step(s, e);
    TaskStepFits(s, e);
    if n != s {
      var t := s.tasks[k];
      assert TaskFits(s, k);
      match e
      case Begin(_, queue) =>
        if !t.cancelled && s.free > 0 && !queue {
          AcquireLease(s, k, n);
        } else {
          QuietLease(s, k, n);
        }
      case Wake(_) => AcquireLease(s, k, n);
      case Finish(_, success, m, u) => LeaveLease(s, k, if success then Idle else Failed, m, u, n);
      case Deliver(_) =>
        if t.phase in {Waiting, Holding} {
          LeaveLease(s, k, Cancelled, 0, 0, n);
        } else {
          QuietLease(s, k, n);
        }
      case Cleaned(_) => QuietLease(s, k, n);
    }
  }

  lemma SendLease(s: State, a: nat, chars: nat)
    requires Consistent(s) && Leased(s) && a < |s.threads|
    ensures Leased(SendTo(s, a, chars))
  {
    var n := SendTo(s, a, chars);
    SendFits(s, a, chars);
    assert ThreadFits(s, a) && LeaseFits(s, a) && ThreadFits(n, a);
    if s.threads[a].task.Some? {
      assert TaskFits(s, s.threads[a].task.value);
    }
    OneLease(s, n, a);
  }

  lemma CancelLease(s: State, c: nat, a: nat, closing: bool)
    requires Consistent(s) && Leased(s) && a < |s.threads| && c !in s.callers && s.threads[a].status !in {Cancelled, Closed, Failed}
    ensures Leased(CancelFor(s, c, a, closing))
  {
    var n := CancelFor(s, c, a, closing);
    CancelFits(s, c, a, closing);
    assert ThreadFits(s, a) && LeaseFits(s, a) && ThreadFits(n, a);
    OneLease(s, n, a);
  }

  lemma CloseLease(s: State, c: nat, a: nat, force: bool)
    requires Consistent(s) && Leased(s)
    ensures Leased(Step(s, CallClose(c, a, force)))
  {
    var n := Step(s, CallClose(c, a, force));
    CloseFits(s, c, a, force);
    if n != s {
      if Active(s.threads[a].status) {
        CancelLease(s, c, a, true);
      } else {
        assert ThreadFits(s, a) && LeaseFits(s, a) && ThreadFits(n, a);
        OneLease(s, n, a);
      }
    }
  }

  lemma ResumeLease(s: State, c: nat)
    requires Consistent(s) && Leased(s)
    ensures Leased(Step(s, Resume(c)))
  {
    var n := Step(s, Resume(c));
    ResumeFits(s, c);
    if n != s {
      assert CallerFits(s, c);
      ResumedLease(s, n, s.callers[c].agent);
    }
  }

  lemma InterruptLease(s: State, c: nat)
    requires Consistent(s) && Leased(s)
    ensures Leased(Step(s, Interrupt(c)))
  {
    var n := Step(s, Interrupt(c));
    InterruptFits(s, c);
    if n != s {
      assert CallerFits(s, c);
      var a := s.callers[c].agent;
      if s.callers[c].Awaiting? && s.tasks[s.callers[c].task].phase != Gone {
        assert ThreadFits(s, a) && LeaseFits(s, a) && ThreadFits(n, a);
        OneLease(s, n, a);
      } else {
        ResumedLease(s, n, a);
      }
    }
  }

  /** A returning caller changes at most the status of its child. */
  lemma ResumedLease(s: State, n: State, a: nat)
    requires Consistent(s) && Consistent(n) && Leased(s) && a < |s.threads| == |n.threads|
    requires n.budget == s.budget && n.tasks == s.tasks
    requires n.threads == s.threads[a := s.threads[a].(status := n.threads[a].status)]
    requires n.threads[a].status in {Cancelled, Closed} || n.threads[a] == s.threads[a]
    ensures Leased(n)
  {
    assert ThreadFits(s, a) && LeaseFits(s, a) && ThreadFits(n, a);
    OneLease(s, n, a);
  }

  lemma SpawnLease(s: State, key: Option<string>, allowed: bool, local: B.Limits)
    requires Consistent(s) && Leased(s)
    ensures Leased(Step(s, Spawn(key, allowed, local)))
  {
    var n := SpawnChild(s, key, allowed, local);
    SpawnFits(s, key, allowed, local);
    if n != s {
      var a := |s.threads|;
      assert a !in s.budget.leases;
      if B.Breaks(s.budget, local).None? {
        B.ReserveConserves(s.budget, a, local);
      }
      forall b | 0 <= b < |n.threads|
        ensures LeaseFits(n, b)
      {
        if b < a {
          assert LeaseFits(s, b) && ThreadFits(s, b);
        }
      }
    }
  }

  lemma {:induction false} RunLeases(cfg: Config, limits: B.Limits, events: seq<Event>)
    ensures Consistent(Run(Initial(cfg, limits), events)) && Leased(Run(Initial(cfg, limits), events))
  {
    if events != [] {
      var n := |events| - 1;
      RunLeases(cfg, limits, events[..n]);
      RunFits(cfg, limits, events);
      var s, e := Run(Initial(cfg, limits), events[..n]), events[n];
      match e
      case Spawn(key, allowed, local) => SpawnLease(s, key, allowed, local);
      case Resume(c) => ResumeLease(s, c);
      case Interrupt(c) => InterruptLease(s, c);
      case Send(a, chars) =>
        if a < |s.threads| {
          SendLease(s, a, chars);
        }
      case CallCancel(c, a) =>
        if a < |s.threads| && c !in s.callers && s.threads[a].status !in {Cancelled, Closed, Failed} {
          CancelLease(s, c, a, false);
        }
      case CallClose(c, a, force) => CloseLease(s, c, a, force);
      case _ => TaskLease(s, e);
    }
  }

  predicate Quiet(s: State) { forall k :: 0 <= k < |s.tasks| ==> !Live(s.tasks[k].phase) }

  /**
   * Reserved budget is the sum of the unreleased leases and within the run's limits, always. Once no child
   * task is on its way, the leases that are still held are exactly those of children cancelled before they
   * ever started: that cancellation never reaches the code that releases.
   */
  lemma LeasesReturn(cfg: Config, limits: B.Limits, events: seq<Event>)
    ensures var s := Run(Initial(cfg, limits), events);
            && B.Conserved(s.budget)
            && (Quiet(s) ==> forall a :: 0 <= a < |s.threads| ==> (Unreleased(s, a) <==> s.threads[a].dropped))
  {
    RunLeases(cfg, limits, events);
    var s := Run(Initial(cfg, limits), events);
    forall a | 0 <= a < |s.threads|
      ensures Quiet(s) ==> (Unreleased(s, a) <==> s.threads[a].dropped)
    {
      assert LeaseFits(s, a);
    }
  }

  // ----- What a run can leave behind -----

  lemma RunSnoc(s: State, events: seq<Event>, e: Event)
    ensures Run(s, events + [e]) == Step(Run(s, events), e)
  {
    assert (events + [e])[..|events|] == events;
  }

  lemma Spawned(cfg: Config, limits: B.Limits, local: B.Limits)
    requires cfg.maxTotal > 0 && local.modelCalls <= limits.modelCalls && local.toolCalls <= limits.toolCalls
    ensures Run(Initial(cfg, limits), [Spawn(None, true, local)])
            == Initial(cfg, limits).(threads := [Thread(Queued, 0, 0, Some(0), false)], tasks := [Task(0, Fresh, false)],
                                     budget := B.Reserve(B.Initial(limits), 0, local))
  {
    RunSnoc(Initial(cfg, limits), [], Spawn(None, true, local));
    assert [] + [Spawn(None, true, local)] == [Spawn(None, true, local)];
  }

  /** A child cancelled before its first step keeps its lease for good. */
  lemma DroppedChildKeepsLease(cfg: Config, limits: B.Limits, local: B.Limits) returns (events: seq<Event>)
    requires cfg.maxTotal > 0 && local.modelCalls <= limits.modelCalls && local.toolCalls <= limits.toolCalls
    ensures var s := Run(Initial(cfg, limits), events);
            && |s.threads| == 1 && s.threads[0].status == Cancelled && s.callers == map[] && Quiet(s)
            && Unreleased(s, 0) && s.budget.reservedModel == local.modelCalls
  {
    var s0 := Initial(cfg, limits);
    var e1 := [Spawn(None, true, local)];
    var e2 := e1 + [CallCancel(0, 0)];
    var e3 := e2 + [Begin(0, false)];
    events := e3 + [Resume(0)];
    Spawned(cfg, limits, local);
    RunSnoc(s0, e1, CallCancel(0, 0));
    RunSnoc(s0, e2, Begin(0, false));
    RunSnoc(s0, e3, Resume(0));
    var s1 := Run(s0, e1);
    var s2 := CancelFor(s1, 0, 0, false);
    assert Run(s0, e2) == s2;
    assert s2.callers - {0} == map[];
  }

  /** A thread without a task and without a lease. */
  predicate Abandoned(s: State, a: nat) {
    && a < |s.threads| && a !in s.budget.leases
    && s.threads[a].task == None && s.threads[a].turns == 0 && s.threads[a].status in {Created, Cancelled, Closed}
  }

  /** Nobody has asked to cancel or close it either. */
  predicate Untouched(s: State, a: nat) {
    Abandoned(s, a) && s.threads[a].status == Created && forall c :: c in s.callers ==> s.callers[c].agent != a
  }

  predicate Ends(e: Event, a: nat) { (e.CallCancel? || e.CallClose?) && e.agent == a }

  lemma AbandonedStep(s: State, e: Event, a: nat)
    requires Consistent(s) && Abandoned(s, a)
    ensures Abandoned(Step(s, e), a)
    ensures Untouched(s, a) && !Ends(e, a) ==> Untouched(Step(s, e), a)
  {
    if e.Begin? || e.Wake? || e.Finish? || e.Deliver? || e.Cleaned? {
      AbandonedTask(s, e, a);
    } else if e.Resume? || e.Interrupt? {
      if e.caller in s.callers {
        assert CallerFits(s, e.caller);
      }
    } else if e.CallCancel? || e.CallClose? {
      AbandonedCall(s, e, a);
    } else {
      AbandonedRest(s, e, a);
    }
  }

  /** What child tasks do concerns other threads. */
  lemma AbandonedTask(s: State, e: Event, a: nat)
    requires Consistent(s) && Abandoned(s, a) && (e.Begin? || e.Wake? || e.Finish? || e.Deliver? || e.Cleaned?)
    ensures Abandoned(Step(s, e), a) && Step(s, e).threads[a] == s.threads[a] && Step(s, e).callers == s.callers
  {
    if e.task < |s.tasks| {
      assert TaskFits(s, e.task);
      NothingLive(s, a);
      if Live(s.tasks[e.task].phase) {
        OtherTask(s, e, a);
      }
    }
  }

  lemma OtherTask(s: State, e: Event, a: nat)
    requires Abandoned(s, a) && (e.Begin? || e.Wake? || e.Finish? || e.Deliver? || e.Cleaned?)
    requires e.task < |s.tasks| && s.tasks[e.task].agent < |s.threads| && s.tasks[e.task].agent != a
    ensures Abandoned(Step(s, e), a) && Step(s, e).threads[a] == s.threads[a] && Step(s, e).callers == s.callers
  {
  }

  lemma AbandonedCall(s: State, e: Event, a: nat)
    requires Abandoned(s, a) && (e.CallCancel? || e.CallClose?)
    ensures Abandoned(Step(s, e), a)
    ensures Untouched(s, a) && !Ends(e, a) ==> Untouched(Step(s, e), a)
  {
  }

  lemma AbandonedRest(s: State, e: Event, a: nat)
    requires Abandoned(s, a) && (e.Spawn? || e.Send?)
    ensures Abandoned(Step(s, e), a)
    ensures Untouched(s, a) ==> Untouched(Step(s, e), a)
  {
  }

  lemma {:induction false} AbandonedLasts(s: State, events: seq<Event>, a: nat)
    requires Consistent(s) && Abandoned(s, a)
    ensures Consistent(Run(s, events)) && Abandoned(Run(s, events), a)
    ensures Untouched(s, a) && (forall e :: e in events ==> !Ends(e, a)) ==> Untouched(Run(s, events), a)
  {
    if events != [] {
      var n := |events| - 1;
      AbandonedLasts(s, events[..n], a);
      StepFits(Run(s, events[..n]), events[n]);
      AbandonedStep(Run(s, events[..n]), events[n], a);
    }
  }

  /**
   * A spawn whose reservation is refused leaves a thread behind that counts against the total and that
   * never runs, whatever happens later: no task, no turn, no lease. It stays CREATED unless it is cancelled
   * or closed.
   */
  lemma RefusedChildNeverRuns(cfg: Config, limits: B.Limits, before: seq<Event>, key: Option<string>, local: B.Limits, after: seq<Event>)
    requires var s := Run(Initial(cfg, limits), before);
             |s.threads| < s.cfg.maxTotal && B.Breaks(s.budget, local).Some? && (key.Some? ==> key.value !in s.keys)
    ensures var a := |Run(Initial(cfg, limits), before).threads|;
            var t := Run(Initial(cfg, limits), before + [Spawn(key, true, local)] + after);
            && Abandoned(t, a)
            && ((forall e :: e in after ==> !Ends(e, a)) ==> t.threads[a].status == Created)
  {
    var s := Run(Initial(cfg, limits), before);
    var a := |s.threads|;
    RunLeases(cfg, limits, before);
    RunSnoc(Initial(cfg, limits), before, Spawn(key, true, local));
    var n := Step(s, Spawn(key, true, local));
    StepFits(s, Spawn(key, true, local));
    forall c | c in s.callers
      ensures s.callers[c].agent != a
    {
      assert CallerFits(s, c);
    }
    AbandonedLasts(n, after, a);
    RunFrom(Initial(cfg, limits), before + [Spawn(key, true, local)], after);
  }

  // ----- How a child's turn ends, and what follows -----

  /** This event is the regular end of a turn of this child: it holds a permit and is not being cancelled. */
  predicate Finishes(s: State, e: Event, a: nat) {
    && e.Finish? && e.task < |s.tasks| && s.tasks[e.task].agent == a
    && s.tasks[e.task].phase == Holding && !s.tasks[e.task].cancelled
  }

  /** Whether the last such end in a run was a success. */
  function LastFinish(s: State, events: seq<Event>, a: nat): Option<bool> {
    if events == [] then None
    else
      var n := |events| - 1;
      if Finishes(Run(s, events[..n]), events[n], a) then Some(events[n].success) else LastFinish(s, events[..n], a)
  }

  /** The resting statuses, and what each says of the last turn. */
  predicate EndsAs(status: Status, last: Option<bool>) {
    && (status == Idle ==> last == Some(true))
    && (status == Failed ==> last == Some(false))
  }

  lemma FinishEnds(s: State, e: Event, a: nat)
    requires Consistent(s) && Finishes(s, e, a)
    ensures var n := Step(s, e);
            a < |n.threads| && n.threads[a].status == if e.success then Idle else Failed
  {
    assert TaskFits(s, e.task);
  }

  lemma OtherEnds(s: State, e: Event, a: nat)
    requires Consistent(s) && !Finishes(s, e, a) && a < |Step(s, e).threads|
    ensures Step(s, e).threads[a].status in {Idle, Failed} ==>
              a < |s.threads| && s.threads[a].status == Step(s, e).threads[a].status
  {
    if e.Begin? || e.Wake? || e.Finish? || e.Deliver? || e.Cleaned? {
      TaskEnds(s, e, a);
    } else if e.Spawn? || e.Send? {
      AddedEnds(s, e, a);
    } else {
      CallEnds(s, e, a);
    }
  }

  lemma TaskEnds(s: State, e: Event, a: nat)
    requires Consistent(s) && !Finishes(s, e, a) && a < |Step(s, e).threads|
    requires e.Begin? || e.Wake? || e.Finish? || e.Deliver? || e.Cleaned?
    ensures Step(s, e).threads[a].status in {Idle, Failed} ==>
              a < |s.threads| && s.threads[a].status == Step(s, e).threads[a].status
  {
    if e.task < |s.tasks| {
      assert TaskFits(s, e.task);
    }
  }

  lemma AddedEnds(s: State, e: Event, a: nat)
    requires (e.Spawn? || e.Send?) && a < |Step(s, e).threads|
    ensures Step(s, e).threads[a].status in {Idle, Failed} ==>
              a < |s.threads| && s.threads[a].status == Step(s, e).threads[a].status
  {
  }

  lemma CallEnds(s: State, e: Event, a: nat)
    requires (e.CallCancel? || e.CallClose? || e.Resume? || e.Interrupt?) && a < |Step(s, e).threads|
    ensures Step(s, e).threads[a].status in {Idle, Failed} ==>
              a < |s.threads| && s.threads[a].status == Step(s, e).threads[a].status
  {
  }

  /**
   * The status of a child at rest is honest: over every interleaving it is IDLE only if its last finished turn
   * was a success, and FAILED only if that turn was not.
   */
  lemma {:induction false} StatusSaysHowItEnded(cfg: Config, limits: B.Limits, events: seq<Event>, a: nat)
    requires a < |Run(Initial(cfg, limits), events).threads|
    ensures EndsAs(Run(Initial(cfg, limits), events).threads[a].status, LastFinish(Initial(cfg, limits), events, a))
  {
    if events != [] {
      var n := |events| - 1;
      var p := Run(Initial(cfg, limits), events[..n]);
      RunFits(cfg, limits, events[..n]);
      if a < |p.threads| {
        StatusSaysHowItEnded(cfg, limits, events[..n], a);
      }
      LastEnds(Initial(cfg, limits), events, a);
    }
  }

  lemma LastEnds(s: State, events: seq<Event>, a: nat)
    requires events != [] && Consistent(Run(s, events[..|events| - 1])) && a < |Run(s, events).threads|
    requires var p := Run(s, events[..|events| - 1]);
             a < |p.threads| ==> EndsAs(p.threads[a].status, LastFinish(s, events[..|events| - 1], a))
    ensures EndsAs(Run(s, events).threads[a].status, LastFinish(s, events, a))
  {
    var n := |events| - 1;
    var p := Run(s, events[..n]);
    if Finishes(p, events[n], a) {
      FinishEnds(p, events[n], a);
    } else {
      OtherEnds(p, events[n], a);
    }
  }

  lemma FailedStep(s: State, e: Event, a: nat)
    requires Consistent(s) && a < |s.threads| && s.threads[a].status in {Failed, Closed}
    ensures var n := Step(s, e); a < |n.threads| && n.threads[a].status in {Failed, Closed}
  {
    NothingLive(s, a);
    if (e.Resume? || e.Interrupt?) && e.caller in s.callers {
      assert CallerFits(s, e.caller);
    }
    if (e.Begin? || e.Wake? || e.Finish? || e.Deliver?) && e.task < |s.tasks| {
      assert TaskFits(s, e.task);
    }
  }

  lemma {:induction false} FailedLasts(s: State, events: seq<Event>, a: nat)
    requires Consistent(s) && a < |s.threads| && s.threads[a].status in {Failed, Closed}
    ensures var t := Run(s, events); Consistent(t) && a < |t.threads| && t.threads[a].status in {Failed, Closed}
  {
    if events != [] {
      var n := |events| - 1;
      FailedLasts(s, events[..n], a);
      StepFits(Run(s, events[..n]), events[n]);
      FailedStep(Run(s, events[..n]), events[n], a);
    }
  }

  /** After a failed turn every follow-up is refused, in every continuation. */
  lemma FailureRefusesFollowUps(cfg: Config, limits: B.Limits, before: seq<Event>, e: Event, after: seq<Event>, a: nat, chars: nat)
    requires Finishes(Run(Initial(cfg, limits), before), e, a) && !e.success
    ensures var t := Run(Initial(cfg, limits), before + [e] + after);
            a < |t.threads| && t.threads[a].status in {Failed, Closed} && Step(t, Send(a, chars)) == t
  {
    var s := Run(Initial(cfg, limits), before);
    RunFits(cfg, limits, before);
    FinishEnds(s, e, a);
    StepFits(s, e);
    RunSnoc(Initial(cfg, limits), before, e);
    FailedLasts(Step(s, e), after, a);
    RunFrom(Initial(cfg, limits), before + [e], after);
  }

  /** This event concerns the child from outside. */
  predicate Disturbs(e: Event, a: nat) { (e.Send? || e.CallCancel? || e.CallClose?) && e.agent == a }

  lemma IdleStep(s: State, e: Event, a: nat)
    requires Consistent(s) && a < |s.threads| && s.threads[a].status == Idle && !Disturbs(e, a)
    ensures var n := Step(s, e); a < |n.threads| && n.threads[a] == s.threads[a]
  {
    NothingLive(s, a);
    if (e.Resume? || e.Interrupt?) && e.caller in s.callers {
      assert CallerFits(s, e.caller);
    }
    if (e.Begin? || e.Wake? || e.Finish? || e.Deliver?) && e.task < |s.tasks| {
      assert TaskFits(s, e.task);
    }
  }

  lemma {:induction false} IdleLasts(s: State, events: seq<Event>, a: nat)
    requires Consistent(s) && a < |s.threads| && s.threads[a].status == Idle
    requires forall e :: e in events ==> !Disturbs(e, a)
    ensures var t := Run(s, events); Consistent(t) && a < |t.threads| && t.threads[a] == s.threads[a]
  {
    if events != [] {
      var n := |events| - 1;
      assert events[n] in events && forall e :: e in events[..n] ==> e in events;
      IdleLasts(s, events[..n], a);
      StepFits(Run(s, events[..n]), events[n]);
      IdleStep(Run(s, events[..n]), events[n], a);
    }
  }

  /**
   * After a successful turn the child waits for a follow-up: as long as nobody cancels, closes or writes to it,
   * it is IDLE, and a message within the limits is put in its mailbox and queues it again.
   */
  lemma SuccessInvitesFollowUps(cfg: Config, limits: B.Limits, before: seq<Event>, e: Event, between: seq<Event>, a: nat, chars: nat)
    requires Finishes(Run(Initial(cfg, limits), before), e, a) && e.success
    requires forall x :: x in between ==> !Disturbs(x, a)
    ensures var t := Run(Initial(cfg, limits), before + [e] + between);
            && a < |t.threads| && t.threads[a].status == Idle
            && (chars <= cfg.maxChars && t.threads[a].turns < cfg.maxTurns ==>
                  var n := Step(t, Send(a, chars));
                  && n.threads[a].status == Queued && n.threads[a].mailbox == t.threads[a].mailbox + 1
                  && n.threads[a].task == Some(|t.tasks|) && n.tasks == t.tasks + [Task(a, Fresh, false)])
  {
    var s := Run(Initial(cfg, limits), before);
    RunFits(cfg, limits, before);
    FinishEnds(s, e, a);
    StepFits(s, e);
    RunSnoc(Initial(cfg, limits), before, e);
    IdleLasts(Step(s, e), between, a);
    RunFrom(Initial(cfg, limits), before + [e], between);
    RunConfig(cfg, limits, before + [e] + between);
  }

  /** A free permit starts a queued child. */
  lemma QueuedChildStarts(cfg: Config, limits: B.Limits, events: seq<Event>, k: nat)
    requires var s := Run(Initial(cfg, limits), events);
             k < |s.tasks| && s.tasks[k].phase in {Fresh, Waiting} && !s.tasks[k].cancelled && s.running < cfg.maxConcurrent
    ensures var s := Run(Initial(cfg, limits), events);
            var n := Step(s, if s.tasks[k].phase == Fresh then Begin(k, false) else Wake(k));
            var a := s.tasks[k].agent;
            && a < |s.threads| == |n.threads| && s.threads[a].status == Queued
            && n.threads[a].status == Running && n.threads[a].turns == s.threads[a].turns + 1 && n.running == s.running + 1
  {
    RunFits(cfg, limits, events);
    RunConfig(cfg, limits, events);
    assert TaskFits(Run(Initial(cfg, limits), events), k);
  }

  /** A whole life: spawned, run to success, asked again and running again, with its usage counted and its lease back. */
  lemma ChildRunsTwice(cfg: Config, limits: B.Limits, local: B.Limits, m: nat, t: nat, chars: nat) returns (events: seq<Event>)
    requires cfg.maxTotal > 0 && cfg.maxConcurrent > 0 && cfg.maxTurns >= 2 && chars <= cfg.maxChars
    requires local.modelCalls <= limits.modelCalls && local.toolCalls <= limits.toolCalls
    ensures var s := Run(Initial(cfg, limits), events);
            && s.threads == [Thread(Running, 2, 1, Some(1), false)] && s.running == 1
            && s.budget.usedModel == m && s.budget.usedTools == t && s.budget.reservedModel == 0 && s.budget.reservedTools == 0
  {
    var s0 := Initial(cfg, limits);
    var e1 := [Spawn(None, true, local)];
    var e2 := e1 + [Begin(0, false)];
    var e3 := e2 + [Finish(0, true, m, t)];
    var e4 := e3 + [Send(0, chars)];
    events := e4 + [Begin(1, false)];
    Spawned(cfg, limits, local);
    RunSnoc(s0, e1, Begin(0, false));
    RunSnoc(s0, e2, Finish(0, true, m, t));
    RunSnoc(s0, e3, Send(0, chars));
    RunSnoc(s0, e4, Begin(1, false));
    var s2 := Acquire(Run(s0, e1), 0);
    assert Run(s0, e2) == s2;
    var s3 := Leave(s2, 0, Idle, m, t);
    assert Run(s0, e3) == s3 && s3.threads == [Thread(Idle, 1, 0, Some(0), false)];
    var s4 := SendTo(s3, 0, chars);
    assert Run(s0, e4) == s4 && s4.threads == [Thread(Queued, 1, 1, Some(1), false)];
    assert s4.tasks == [Task(0, Cleaning, false), Task(0, Fresh, false)];
  }
}
