/** `PromiseQueue`: asynchronous tasks, one at a time, in push order. */
module PromiseQueues {

  datatype Result = Resolved | Rejected
  datatype Settled<T> = Settled(task: T, result: Result)

  datatype State<T> = State(
    queue: seq<T>,
    running: bool,
    active: seq<T>,            // tasks that were started and have not settled
    pushed: seq<T>,            // history
    settled: seq<Settled<T>>)  // history: what the callers were told, in order

  /** Pushes come at any time, also from inside a task; any active task may settle. */
  datatype Step<T> = Push(task: T) | Settle(i: nat, result: Result)

  /** `run`, up to the `await` of the task. */
  function RunNext<T>(s: State<T>): State<T>
  {
    if s.queue != []
    then s.(queue := s.queue[1..], running := true, active := s.active + [s.queue[0]])
    else s.(running := false)
  }

  function PushStep<T>(s: State<T>, task: T): State<T>
  {
    var s := s.(queue := s.queue + [task], pushed := s.pushed + [task]);
    if s.running then s else RunNext(s)
  }

  function SettleStep<T>(s: State<T>, i: nat, result: Result): State<T>
  {
    if i >= |s.active| then s else
    RunNext(s.(active := s.active[..i] + s.active[i + 1..],
               settled := s.settled + [Settled(s.active[i], result)]))
  }

  function Next<T>(s: State<T>, step: Step<T>): State<T>
  {
    match step
    case Push(task) => PushStep(s, task)
    case Settle(i, result) => SettleStep(s, i, result)
  }

  function Run<T>(steps: seq<Step<T>>): State<T>
    decreases |steps|
  {
    if steps == [] then State([], false, [], [], [])
    else Next(Run(steps[..|steps| - 1]), steps[|steps| - 1])
  }

  function Tasks<T>(settled: seq<Settled<T>>): seq<T>
  {
    seq(|settled|, i requires 0 <= i < |settled| => settled[i].task)
  }

  /**
   At most one task is active, the flag says whether one is, a task that waits has an active one
   ahead of it, and settled, active and waiting tasks together are the pushed ones in push order.
   */
  ghost predicate Inv<T>(s: State<T>)
  {
    && |s.active| <= 1
    && (s.running <==> s.active != [])
    && (s.queue != [] ==> s.running)
    && Tasks(s.settled) + s.active + s.queue == s.pushed
  }

  lemma StepInv<T>(s: State<T>, step: Step<T>)
    requires Inv(s)
    ensures Inv(Next(s, step))
  {
    var t := Next(s, step);
    match step
    case Push(task) =>
      assert Tasks(s.settled) + s.active + (s.queue + [task]) == s.pushed + [task];
      if !s.running {
        assert s.queue + [task] == [task];
      }
    case Settle(i, result) =>
      if i < |s.active| {
        assert s.active == [s.active[0]];
        assert Tasks(t.settled) == Tasks(s.settled) + [s.active[0]];
        if s.queue != [] {
          assert s.queue == [s.queue[0]] + s.queue[1..];
        }
      }
  }

  /** In every interleaving of pushes and settlements. */
  lemma {:induction false} OneAtATimeInOrder<T>(steps: seq<Step<T>>)
    ensures Inv(Run(steps))
    decreases |steps|
  {
    if steps != [] {
      OneAtATimeInOrder(steps[..|steps| - 1]);
      StepInv(Run(steps[..|steps| - 1]), steps[|steps| - 1]);
    }
  }

  /** Whether a task fails or not, settling it starts the next one, and each caller is told once. */
  lemma FailureBlocksNothing<T>(steps: seq<Step<T>>, result: Result)
    requires Run(steps).active != []
    ensures var s, t := Run(steps), SettleStep(Run(steps), 0, result);
            && t.active == (if s.queue == [] then [] else [s.queue[0]])
            && |s.settled| < |s.pushed|
            && t.settled == s.settled + [Settled(s.pushed[|s.settled|], result)]
            && |t.queue| + |t.active| + 1 == |s.queue| + |s.active|
  {
    OneAtATimeInOrder(steps);
    var s := Run(steps);
    assert s.active[..0] + s.active[1..] == [];
    assert s.pushed[|s.settled|] == s.active[0];
  }

  class PromiseQueue<T> {
    var queue: seq<T>
    var running: bool
    var active: seq<T>
    ghost var pushed: seq<T>
    var settled: seq<Settled<T>>

    ghost function Model(): State<T>
      reads this
    {
      State(queue, running, active, pushed, settled)
    }

    constructor ()
      ensures Model() == Run<T>([]) && Inv(Model())
    {
      queue, running, active, pushed, settled := [], false, [], [], [];
    }

    method Push(task: T)
      requires Inv(Model())
      modifies this
      ensures Inv(Model()) && Model() == PushStep(old(Model()), task)
    {
      StepInv(Model(), Step.Push(task));
      queue, pushed := queue + [task], pushed + [task];
      if !running {
        RunTask();
      }
    }

    method RunTask()
      modifies this`queue, this`running, this`active
      ensures Model() == RunNext(old(Model()))
    {
      if queue != [] {
        var task := queue[0];
        queue := queue[1..];
        running := true;
        active := active + [task];
      } else {
        running := false;
      }
    }

    /** The active task settles: its caller is told, then `run` goes on. */
    method Settle(result: Result)
      requires Inv(Model()) && active != []
      modifies this
      ensures Inv(Model()) && Model() == SettleStep(old(Model()), 0, result)
    {
      StepInv(Model(), Step.Settle(0, result));
      assert active[..0] + active[1..] == active[1..];
      settled := settled + [Settled(active[0], result)];
      active := active[1..];
      RunTask();
    }
  }
}
