/** The scheduler object: each method is one segment between awaits and changes the fields the source changes. */
module SubagentScheduler {
  import opened Messages
  import B = Budgets
  import S = Scheduler

  class SubagentScheduler {
    const cfg: S.Config
    const budget: B.RunBudgetManager
    var threads: seq<S.Thread>
    var tasks: seq<S.Task>
    var callers: map<nat, S.Caller>
    var keys: map<string, nat>
    var permits: int
    var runningCount: nat

    ghost function View(): S.State
      reads this, budget
    {
      S.State(cfg, threads, tasks, callers, keys, permits, runningCount, budget.View())
    }

    constructor (cfg: S.Config, limits: B.Limits)
      ensures View() == S.Initial(cfg, limits) && fresh(budget)
    {
      this.cfg := cfg;
      budget := new B.RunBudgetManager(limits);
      threads, tasks, callers, keys := [], [], map[], map[];
      permits, runningCount := cfg.maxConcurrent, 0;
    }

    method CreateTask(a: nat)
      requires a < |threads|
      modifies this`threads, this`tasks
      ensures View() == S.AddTask(old(View()), a)
    {
      threads := threads[a := threads[a].(status := S.Queued, task := Some(|tasks|))];
      tasks := tasks + [S.Task(a, S.Fresh, false)];
    }

    /** None when the request is refused. A refused reservation comes after the thread was added. */
    method Spawn(key: Option<string>, allowed: bool, local: B.Limits) returns (agent: Option<nat>)
      modifies this`threads, this`tasks, this`keys, budget
      ensures View() == S.Step(old(View()), S.Spawn(key, allowed, local))
      ensures agent.Some? && !(key.Some? && key.value in old(keys)) ==> agent == Some(old(|threads|)) && agent.value < |threads| && threads[agent.value].status == S.Queued
    {
      if key.Some? && key.value in keys {
        return Some(keys[key.value]);
      }
      if |threads| >= cfg.maxTotal || !allowed {
        return None;
      }
      var a := |threads|;
      threads := threads + [S.Thread(S.Created, 0, 0, None, false)];
      var exceeded := budget.ReserveChild(a, local);
      if exceeded.Some? {
        return None;
      }
      if key.Some? {
        keys := keys[key.value := a];
      }
      CreateTask(a);
      return Some(a);
    }

    /** Enters the semaphore: the count, the status and the turn go up together. */
    method EnterWork(k: nat)
      requires k < |tasks| && tasks[k].agent < |threads| && tasks[k].phase in {S.Fresh, S.Waiting} && permits > 0
      modifies this`threads, this`tasks, this`permits, this`runningCount
      ensures View() == S.Acquire(old(View()), k)
    {
      var a := tasks[k].agent;
      tasks := tasks[k := tasks[k].(phase := S.Holding)];
      permits := permits - 1;
      runningCount := runningCount + 1;
      threads := threads[a := threads[a].(status := S.Running, turns := threads[a].turns + 1)];
    }

    /** The first step of a child task, which may not find a permit; a task cancelled before it runs no code at all. */
    method BeginChild(k: nat, queue: bool)
      requires k < |tasks| && tasks[k].agent < |threads|
      modifies this`threads, this`tasks, this`permits, this`runningCount
      ensures View() == S.Step(old(View()), S.Begin(k, queue))
    {
      if tasks[k].phase != S.Fresh {
        return;
      }
      if tasks[k].cancelled {
        var a := tasks[k].agent;
        tasks := tasks[k := tasks[k].(phase := S.Gone)];
        threads := threads[a := threads[a].(dropped := threads[a].dropped || threads[a].turns == 0)];
      } else if permits > 0 && !queue {
        EnterWork(k);
      } else {
        tasks := tasks[k := tasks[k].(phase := S.Waiting)];
      }
    }

    /** The end of a child's work: status, lease, permit and count, up to the wait for the condition. */
    method LeaveWork(k: nat, status: S.Status, usedModel: nat, usedTools: nat)
      requires k < |tasks| && tasks[k].agent < |threads|
      modifies this`threads, this`tasks, this`permits, this`runningCount, budget
      ensures View() == S.Leave(old(View()), k, status, usedModel, usedTools)
    {
      var a, acquired := tasks[k].agent, tasks[k].phase == S.Holding;
      threads := threads[a := threads[a].(status := status)];
      budget.ReleaseChild(a, usedModel, usedTools);
      if acquired {
        permits := permits + 1;
      }
      if acquired && runningCount > 0 {
        runningCount := runningCount - 1;
      }
      tasks := tasks[k := tasks[k].(phase := S.Cleaning, cancelled := false)];
    }

    /**
     * The loop of a child has ended: a completed run with valid structured output leaves the child IDLE; invalid
     * output raises past the accounting; anything else is a failure. True when the child succeeded.
     */
    method EndTurn(k: nat, completed: bool, output: string, valid: bool, usedModel: nat, usedTools: nat) returns (ok: bool)
      requires k < |tasks| && tasks[k].agent < |threads| && tasks[k].phase == S.Holding && !tasks[k].cancelled
      modifies this`threads, this`tasks, this`permits, this`runningCount, budget
      ensures ok <==> completed && output != "" && valid
      ensures var raised := completed && output != "" && !valid;
              View() == S.Step(old(View()), S.Finish(k, ok, if raised then 0 else usedModel, if raised then 0 else usedTools))
    {
      if completed && output != "" {
        if !valid {
          LeaveWork(k, S.Failed, 0, 0);
          return false;
        }
        LeaveWork(k, S.Idle, usedModel, usedTools);
        return true;
      }
      LeaveWork(k, S.Failed, usedModel, usedTools);
      return false;
    }

    /** Asyncio delivers a requested cancellation to a waiting, working or cleaning task. */
    method DeliverCancellation(k: nat)
      requires k < |tasks| && tasks[k].agent < |threads|
      modifies this`threads, this`tasks, this`permits, this`runningCount, budget
      ensures View() == S.Step(old(View()), S.Deliver(k))
    {
      if !tasks[k].cancelled {
        return;
      }
      if tasks[k].phase in {S.Waiting, S.Holding} {
        LeaveWork(k, S.Cancelled, 0, 0);
      } else if tasks[k].phase == S.Cleaning {
        tasks := tasks[k := tasks[k].(phase := S.Gone)];
      }
    }

    /** False when the thread is inactive, the message too long, or the turns are used up. */
    method SendMessage(a: nat, chars: nat) returns (ok: bool)
      requires a < |threads|
      modifies this`threads, this`tasks
      ensures View() == S.Step(old(View()), S.Send(a, chars))
      ensures ok <==> old(threads[a].status) !in {S.Closed, S.Cancelled, S.Failed} && chars <= cfg.maxChars && old(threads[a].turns) < cfg.maxTurns
    {
      var th := threads[a];
      if th.status in {S.Closed, S.Cancelled, S.Failed} || chars > cfg.maxChars || th.turns >= cfg.maxTurns {
        return false;
      }
      threads := threads[a := th.(mailbox := th.mailbox + 1)];
      if th.status == S.Idle {
        CreateTask(a);
      }
      return true;
    }

    /** `cancel` up to its wait; true when there is a task to wait for. */
    method RequestCancel(c: nat, a: nat, closing: bool) returns (waiting: bool)
      requires a < |threads| && c !in callers
      modifies this`threads, this`tasks, this`callers
      ensures View() == S.CancelFor(old(View()), c, a, closing)
    {
      var th := threads[a];
      threads := threads[a := th.(status := S.Cancelling)];
      if th.task.Some? && th.task.value < |tasks| && tasks[th.task.value].phase != S.Gone {
        var k := th.task.value;
        tasks := tasks[k := tasks[k].(cancelled := true)];
        callers := callers[c := S.Awaiting(a, k, closing)];
        return true;
      }
      threads := threads[a := th.(status := S.Cancelled)];
      if closing {
        callers := callers[c := S.Locking(a)];
      }
      return false;
    }

    method Cancel(c: nat, a: nat)
      requires a < |threads| && c !in callers
      modifies this`threads, this`tasks, this`callers
      ensures View() == S.Step(old(View()), S.CallCancel(c, a))
    {
      if threads[a].status in {S.Cancelled, S.Closed, S.Failed} {
        return;
      }
      var waiting := RequestCancel(c, a, false);
    }

    /** False when the child is active and the close is not forced. */
    method Close(c: nat, a: nat, force: bool) returns (ok: bool)
      requires a < |threads| && c !in callers
      modifies this`threads, this`tasks, this`callers
      ensures View() == S.Step(old(View()), S.CallClose(c, a, force))
      ensures ok <==> force || !S.Active(old(threads[a].status))
    {
      if S.Active(threads[a].status) && !force {
        return false;
      }
      if S.Active(threads[a].status) {
        var waiting := RequestCancel(c, a, true);
      } else {
        threads := threads[a := threads[a].(status := S.Closed)];
      }
      return true;
    }

    /** What a canceller does when its wait is over, and a closer behind the condition's lock. */
    method ResumeCaller(c: nat)
      requires c in callers && callers[c].agent < |threads|
      requires callers[c].Awaiting? ==> callers[c].task < |tasks| && tasks[callers[c].task].phase == S.Gone
      modifies this`threads, this`callers
      ensures View() == S.Step(old(View()), S.Resume(c))
    {
      match callers[c]
      case Locking(a) =>
        threads := threads[a := threads[a].(status := S.Closed)];
        callers := callers - {c};
      case Awaiting(a, _, closing) =>
        if threads[a].status == S.Cancelling {
          threads := threads[a := threads[a].(status := S.Cancelled)];
        }
        callers := if closing then callers[c := S.Locking(a)] else callers - {c};
    }

    /** The ids of the children that can still consume work, in creation order. */
    method ActiveAgentIds() returns (ids: seq<nat>)
      ensures forall a :: a in ids <==> 0 <= a < |threads| && S.Active(threads[a].status)
      ensures forall i, j :: 0 <= i < j < |ids| ==> ids[i] < ids[j]
    {
      ids := [];
      for a := 0 to |threads|
        invariant forall b :: b in ids <==> 0 <= b < a && S.Active(threads[b].status)
        invariant forall i, j :: 0 <= i < j < |ids| ==> ids[i] < ids[j]
      {
        if S.Active(threads[a].status) {
          assert forall i :: 0 <= i < |ids| ==> ids[i] in ids;
          ids := ids + [a];
        }
      }
    }
  }
}
