/** The worker pool: every client id hashes to one bounded queue that one worker serves. */
module WorkerPools {
  import opened Prelude

  const CAPACITY := 1024

  /** A submitted closure: whose packet it handles, and which one. */
  datatype Task = Task(uid: string, packet: nat)

  /** `running` is what each worker is executing; `done` and `submitted` are the histories of
      finished tasks and of completed sends. */
  datatype Pool = Pool(queues: seq<seq<Task>>, running: seq<Option<Task>>, done: seq<Task>, submitted: seq<Task>)

  /** The queue of a client id, under any hash function. */
  function Index(hash: string -> nat, uid: string, workers: nat): (i: nat)
    requires workers > 0
    ensures i < workers
  { hash(uid) % workers }

  datatype Step = Submit(task: Task) | Take(worker: nat) | Finish(worker: nat)

  predicate Shaped(p: Pool) { |p.queues| > 0 && |p.queues| == |p.running| }

  /** A send on a full channel waits; a worker takes a task when it is idle and there is one. */
  predicate Enabled(hash: string -> nat, p: Pool, step: Step)
    requires Shaped(p)
  {
    match step
    case Submit(t) => |p.queues[Index(hash, t.uid, |p.queues|)]| < CAPACITY
    case Take(w) => w < |p.queues| && p.running[w].None? && p.queues[w] != []
    case Finish(w) => w < |p.queues| && p.running[w].Some?
  }

  function Do(hash: string -> nat, p: Pool, step: Step): (r: Pool)
    requires Shaped(p) && Enabled(hash, p, step)
    ensures Shaped(r)
  {
    match step
    case Submit(t) =>
      var i := Index(hash, t.uid, |p.queues|);
      p.(queues := p.queues[i := p.queues[i] + [t]], submitted := p.submitted + [t])
    case Take(w) => p.(queues := p.queues[w := p.queues[w][1..]], running := p.running[w := Some(p.queues[w][0])])
    case Finish(w) => p.(running := p.running[w := None], done := p.done + [p.running[w].value])
  }

  function New(maxWorkers: int): Pool {
    var n := if maxWorkers < 1 then 1 else maxWorkers;
    Pool(seq(n, i => []), seq(n, i => None), [], [])
  }

  ghost predicate IsRun(hash: string -> nat, states: seq<Pool>, steps: seq<Step>) {
    && |states| == |steps| + 1
    && forall i :: 0 <= i < |steps| ==>
         Shaped(states[i]) && Enabled(hash, states[i], steps[i]) && states[i + 1] == Do(hash, states[i], steps[i])
  }

  // ---------------------------------------------------------------- the tasks of one client

  function Of(tasks: seq<Task>, uid: string): seq<Task> {
    if tasks == [] then []
    else Of(tasks[..|tasks| - 1], uid) + (if tasks[|tasks| - 1].uid == uid then [tasks[|tasks| - 1]] else [])
  }

  function InHand(o: Option<Task>, uid: string): seq<Task> {
    if o.Some? && o.value.uid == uid then [o.value] else []
  }

  lemma OfAppend(tasks: seq<Task>, t: Task, uid: string)
    ensures Of(tasks + [t], uid) == Of(tasks, uid) + InHand(Some(t), uid)
  {}

  lemma {:induction false} OfPrepend(tasks: seq<Task>, uid: string)
    requires tasks != []
    ensures Of(tasks, uid) == InHand(Some(tasks[0]), uid) + Of(tasks[1..], uid)
  {
    var init, last := tasks[..|tasks| - 1], tasks[|tasks| - 1];
    if init == [] {
      assert tasks[1..] == [];
    } else {
      OfPrepend(init, uid);
      assert tasks[1..] == init[1..] + [last];
      OfAppend(init[1..], last, uid);
    }
  }

  // ---------------------------------------------------------------- the invariant

  /** Queue and worker `i` only ever hold tasks of clients that hash to `i`. */
  ghost predicate Home(hash: string -> nat, p: Pool, i: nat)
    requires i < |p.queues| == |p.running|
  {
    && |p.queues[i]| <= CAPACITY
    && (forall t :: t in p.queues[i] ==> Index(hash, t.uid, |p.queues|) == i)
    && (p.running[i].Some? ==> Index(hash, p.running[i].value.uid, |p.queues|) == i)
  }

  /** A client's finished, running and queued tasks, in this order, are its submissions. */
  ghost predicate InOrder(hash: string -> nat, p: Pool, uid: string)
    requires Shaped(p)
  {
    var i := Index(hash, uid, |p.queues|);
    Of(p.done, uid) + InHand(p.running[i], uid) + Of(p.queues[i], uid) == Of(p.submitted, uid)
  }

  ghost predicate Inv(hash: string -> nat, p: Pool) {
    && Shaped(p)
    && (forall i :: 0 <= i < |p.queues| ==> Home(hash, p, i))
    && (forall uid :: InOrder(hash, p, uid))
  }

  lemma StepKeepsHome(hash: string -> nat, p: Pool, step: Step, i: nat)
    requires Inv(hash, p) && Enabled(hash, p, step) && i < |p.queues|
    ensures Home(hash, Do(hash, p, step), i)
  {
    assert Home(hash, p, i);
    if step.Take? && step.worker == i {
      assert p.queues[i][0] in p.queues[i];
    }
  }

  lemma Regroup(a: seq<Task>, b: seq<Task>, c: seq<Task>)
    ensures a + (b + c) == (a + b) + c
  {}

  lemma SubmitKeepsOrder(hash: string -> nat, p: Pool, t: Task, uid: string)
    requires Inv(hash, p) && Enabled(hash, p, Submit(t))
    ensures InOrder(hash, Do(hash, p, Submit(t)), uid)
  {
    assert InOrder(hash, p, uid);
    var i := Index(hash, uid, |p.queues|);
    OfAppend(p.submitted, t, uid);
    OfAppend(p.queues[i], t, uid);
    if Index(hash, t.uid, |p.queues|) == i {
      Regroup(Of(p.done, uid) + InHand(p.running[i], uid), Of(p.queues[i], uid), InHand(Some(t), uid));
    } else {
      assert InHand(Some(t), uid) == [];
    }
  }

  lemma TakeKeepsOrder(hash: string -> nat, p: Pool, w: nat, uid: string)
    requires Inv(hash, p) && Enabled(hash, p, Take(w))
    ensures InOrder(hash, Do(hash, p, Take(w)), uid)
  {
    assert InOrder(hash, p, uid);
    if w == Index(hash, uid, |p.queues|) {
      OfPrepend(p.queues[w], uid);
      var a, b := InHand(Some(p.queues[w][0]), uid), Of(p.queues[w][1..], uid);
      assert Of(p.done, uid) + a + b == Of(p.done, uid) + [] + (a + b);
    }
  }

  lemma FinishKeepsOrder(hash: string -> nat, p: Pool, w: nat, uid: string)
    requires Inv(hash, p) && Enabled(hash, p, Finish(w))
    ensures InOrder(hash, Do(hash, p, Finish(w)), uid)
  {
    assert InOrder(hash, p, uid) && Home(hash, p, w);
    var t := p.running[w].value;
    OfAppend(p.done, t, uid);
    if t.uid == uid {
      assert w == Index(hash, uid, |p.queues|);
      assert Of(p.done, uid) + [t] + [] == Of(p.done, uid) + [t];
    } else if w == Index(hash, uid, |p.queues|) {
      assert InHand(p.running[w], uid) == InHand(None, uid);
    }
  }

  lemma StepKeepsInv(hash: string -> nat, p: Pool, step: Step)
    requires Inv(hash, p) && Enabled(hash, p, step)
    ensures Inv(hash, Do(hash, p, step))
  {
    var r := Do(hash, p, step);
    forall i | 0 <= i < |r.queues| ensures Home(hash, r, i) { StepKeepsHome(hash, p, step, i); }
    forall uid ensures InOrder(hash, r, uid) {
      match step
      case Submit(t) => SubmitKeepsOrder(hash, p, t, uid);
      case Take(w) => TakeKeepsOrder(hash, p, w, uid);
      case Finish(w) => FinishKeepsOrder(hash, p, w, uid);
    }
  }

  lemma {:induction false} RunKeepsInv(hash: string -> nat, states: seq<Pool>, steps: seq<Step>, i: nat)
    requires IsRun(hash, states, steps) && i <= |steps| && Inv(hash, states[0])
    ensures Inv(hash, states[i])
  {
    if i > 0 {
      RunKeepsInv(hash, states, steps, i - 1);
      StepKeepsInv(hash, states[i - 1], steps[i - 1]);
    }
  }

  /** For every interleaving of submitters and workers: a client's tasks finish, run and wait
      in submission order, at most one of them runs at a time, and no queue exceeds 1024. */
  lemma ClientsAreServedInOrder(hash: string -> nat, states: seq<Pool>, steps: seq<Step>, maxWorkers: int, i: nat, uid: string)
    requires IsRun(hash, states, steps) && states[0] == New(maxWorkers) && i <= |steps|
    ensures Shaped(states[i]) && InOrder(hash, states[i], uid)
    ensures Of(states[i].done, uid) <= Of(states[i].submitted, uid)
    ensures forall q :: q in states[i].queues ==> |q| <= 1024
    ensures forall v, w | 0 <= v < |states[i].running| && 0 <= w < |states[i].running| ::
      InHand(states[i].running[v], uid) != [] && InHand(states[i].running[w], uid) != [] ==> v == w
  {
    RunKeepsInv(hash, states, steps, i);
    var p := states[i];
    assert InOrder(hash, p, uid);
    forall q | q in p.queues ensures |q| <= 1024 {
      var j :| 0 <= j < |p.queues| && p.queues[j] == q;
      assert Home(hash, p, j);
    }
    forall w | 0 <= w < |p.running| && InHand(p.running[w], uid) != [] ensures w == Index(hash, uid, |p.queues|) {
      assert Home(hash, p, w);
    }
  }

  lemma {:induction false} WorkersStay(hash: string -> nat, states: seq<Pool>, steps: seq<Step>, i: nat)
    requires IsRun(hash, states, steps) && i <= |steps|
    ensures |states[i].queues| == |states[0].queues|
  {
    if i > 0 { WorkersStay(hash, states, steps, i - 1); }
  }

  /** In every run there are as many queues as workers were asked for, and one if that was less
      than one; a queued or running task is with the worker whose number is the hash of its
      client id modulo their number; and submitting waits while that queue holds 1024 tasks,
      and appends to that queue alone. */
  lemma TasksAreAtHome(hash: string -> nat, states: seq<Pool>, steps: seq<Step>, maxWorkers: int, i: nat, w: nat, t: Task)
    requires IsRun(hash, states, steps) && states[0] == New(maxWorkers) && i <= |steps|
    ensures var p, n := states[i], if maxWorkers <= 0 then 1 else maxWorkers;
      && |p.queues| == n && |p.running| == n
      && (w < n && (t in p.queues[w] || p.running[w] == Some(t)) ==> w == hash(t.uid) % n)
      && (Enabled(hash, p, Submit(t)) <==> |p.queues[hash(t.uid) % n]| < 1024)
      && (i < |steps| && steps[i] == Submit(t) ==>
            forall v :: 0 <= v < n ==> states[i + 1].queues[v] == if v == hash(t.uid) % n then p.queues[v] + [t] else p.queues[v])
  {
    RunKeepsInv(hash, states, steps, i);
    WorkersStay(hash, states, steps, i);
    if w < |states[i].queues| { assert Home(hash, states[i], w); }
  }

  // ---------------------------------------------------------------- the pool object

  class WorkerPool {
    const hash: string -> nat
    const taskQueue: array<seq<Task>>
    const current: array<Option<Task>>
    var done: seq<Task>
    var submitted: seq<Task>

    ghost predicate Valid()
      reads this, taskQueue, current
    {
      Inv(hash, View())
    }

    ghost function View(): Pool
      reads this, taskQueue, current
    { Pool(taskQueue[..], current[..], done, submitted) }

    /** `New`: at least one worker, and `dispatch` gives each a queue of its own. */
    constructor (maxWorkers: int, hash: string -> nat)
      ensures View() == New(maxWorkers) && Valid() && fresh(taskQueue) && fresh(current) && this.hash == hash
    {
      var n := if maxWorkers < 1 then 1 else maxWorkers;
      this.hash := hash;
      taskQueue := new seq<Task>[n];
      current := new Option<Task>[n];
      done, submitted := [], [];
      new;
      for i := 0 to n
        invariant taskQueue.Length == current.Length == n && done == submitted == []
        invariant forall j :: 0 <= j < i ==> taskQueue[j] == [] && current[j] == None
      {
        taskQueue[i], current[i] := [], None;
      }
      assert taskQueue[..] == New(maxWorkers).queues;
      assert current[..] == New(maxWorkers).running;
    }

    /** `Submit`; no task is the source's nil closure, and `sent` is false while the send waits. */
    method Submit(uid: string, task: Option<nat>) returns (sent: bool)
      requires Valid()
      modifies this, taskQueue
      ensures Valid()
      ensures sent <==> task.Some? && Enabled(hash, old(View()), Step.Submit(Task(uid, task.value)))
      ensures View() == if sent then Do(hash, old(View()), Step.Submit(Task(uid, task.value))) else old(View())
    {
      var idx := hash(uid) % taskQueue.Length;
      if task.None? || |taskQueue[idx]| >= CAPACITY {
        return false;
      }
      StepKeepsInv(hash, View(), Step.Submit(Task(uid, task.value)));
      var t := Task(uid, task.value);
      taskQueue[idx] := taskQueue[idx] + [t];
      submitted := submitted + [t];
      return true;
    }

    /** One receive of the loop in `startWorker`. */
    method TakeTask(w: nat) returns (got: bool)
      requires Valid() && w < taskQueue.Length && current[w].None?
      modifies taskQueue, current
      ensures Valid() && got == (old(taskQueue[w]) != [])
      ensures View() == if got then Do(hash, old(View()), Take(w)) else old(View())
    {
      if taskQueue[w] == [] {
        return false;
      }
      StepKeepsInv(hash, View(), Take(w));
      current[w] := Some(taskQueue[w][0]);
      taskQueue[w] := taskQueue[w][1..];
      return true;
    }

    method FinishTask(w: nat)
      requires Valid() && w < taskQueue.Length && current[w].Some?
      modifies this, current
      ensures Valid() && View() == Do(hash, old(View()), Finish(w))
    {
      StepKeepsInv(hash, View(), Finish(w));
      done := done + [current[w].value];
      current[w] := None;
    }
  }
}
