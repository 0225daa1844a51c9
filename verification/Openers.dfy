/**
 Deduplication of opener tasks: the `opening` dictionary of `Sessions`.

 A task is started for a model only when the dictionary has no entry for it, by a borrower or by the
 periodic tick.  Its entry is removed by its completion callback or by a waiter, whichever comes first, and
 either may run after a newer task has taken the entry.
 */
module Openers {
  type Model = nat
  type Task = nat

  /** A task that was created: whether it finished, and whether its completion callback already ran. */
  datatype TaskInfo = TaskInfo(model: Model, done: bool, notified: bool)

  datatype Pool = Pool(opening: map<Model, Task>, tasks: map<Task, TaskInfo>)

  datatype Step =
    | Request(model: Model, task: Task)   // a borrower or the tick wants a session; `task` is a new object
    | Finish(task: Task)                  // its coroutine returned or raised
    | Callback(task: Task)                // its completion callback is delivered
    | Wake(model: Model, task: Task)      // a waiter on `task` leaves its `try` block

  predicate Enabled(p: Pool, step: Step) {
    match step
    case Request(_, task) => task !in p.tasks
    case Finish(task) => task in p.tasks && !p.tasks[task].done
    case Callback(task) => task in p.tasks && p.tasks[task].done && !p.tasks[task].notified
    case Wake(_, task) => task in p.tasks
  }

  function Apply(p: Pool, step: Step): Pool
    requires Enabled(p, step)
  {
    match step
    case Request(model, task) =>
      if model in p.opening then p
      else Pool(p.opening[model := task], p.tasks[task := TaskInfo(model, false, false)])
    case Finish(task) => p.(tasks := p.tasks[task := p.tasks[task].(done := true)])
    case Callback(task) =>
      Pool(Drop(p.opening, p.tasks[task].model, task), p.tasks[task := p.tasks[task].(notified := true)])
    case Wake(model, task) => if p.tasks[task].done then p.(opening := Drop(p.opening, model, task)) else p
  }

  /** Removes the entry of `model` only if it is this very task. */
  function Drop(opening: map<Model, Task>, model: Model, task: Task): map<Model, Task> {
    if model in opening && opening[model] == task then opening - {model} else opening
  }

  ghost predicate Run(p: Pool, steps: seq<Step>, q: Pool)
    decreases |steps|
  {
    if steps == [] then p == q else Enabled(p, steps[0]) && Run(Apply(p, steps[0]), steps[1..], q)
  }

  /** The entries are tasks of their own model not yet notified, and no unfinished task lacks its entry. */
  ghost predicate Inv(p: Pool) {
    && (forall m :: m in p.opening ==>
          p.opening[m] in p.tasks && p.tasks[p.opening[m]].model == m && !p.tasks[p.opening[m]].notified)
    && (forall t :: t in p.tasks && !p.tasks[t].done ==>
          p.tasks[t].model in p.opening && p.opening[p.tasks[t].model] == t)
    && (forall t :: t in p.tasks && p.tasks[t].notified ==> p.tasks[t].done)
  }

  lemma StepKeepsInv(p: Pool, step: Step)
    requires Inv(p) && Enabled(p, step)
    ensures Inv(Apply(p, step))
  {
  }

  lemma {:induction false} RunKeepsInv(p: Pool, steps: seq<Step>, q: Pool)
    requires Inv(p) && Run(p, steps, q)
    ensures Inv(q)
    decreases |steps|
  {
    if steps != [] {
      StepKeepsInv(p, steps[0]);
      RunKeepsInv(Apply(p, steps[0]), steps[1..], q);
    }
  }

  const EMPTY := Pool(map[], map[])

  /** In every run, two unfinished openers of one model are the same task, and it is the registered one. */
  lemma AtMostOneOpener(steps: seq<Step>, p: Pool, t: Task, u: Task)
    requires Run(EMPTY, steps, p)
    requires t in p.tasks && u in p.tasks && !p.tasks[t].done && !p.tasks[u].done
    requires p.tasks[t].model == p.tasks[u].model
    ensures t == u && p.tasks[t].model in p.opening && p.opening[p.tasks[t].model] == t
  {
    RunKeepsInv(EMPTY, steps, p);
  }

  /** Entries do not leak: once every callback was delivered, the entries are exactly the unfinished tasks. */
  lemma NoStaleEntry(steps: seq<Step>, p: Pool, m: Model, t: Task)
    requires Run(EMPTY, steps, p)
    requires forall x :: x in p.tasks && p.tasks[x].done ==> p.tasks[x].notified
    ensures m in p.opening && p.opening[m] == t <==> t in p.tasks && p.tasks[t].model == m && !p.tasks[t].done
  {
    RunKeepsInv(EMPTY, steps, p);
  }

  /** An entry is taken away only from a finished task. */
  lemma OnlyFinishedLeave(p: Pool, step: Step, m: Model)
    requires Inv(p) && Enabled(p, step) && m in p.opening
    ensures var q := Apply(p, step);
            (m !in q.opening || q.opening[m] != p.opening[m]) ==> m !in q.opening && p.tasks[p.opening[m]].done
  {
  }

  /** The identity test matters: an opener can be replaced before its own callback is delivered. */
  lemma CallbackAfterReplacement() returns (steps: seq<Step>, p: Pool)
    ensures Run(EMPTY, steps, p)
    ensures p.opening == map[7 := 2] && Enabled(p, Callback(1)) && p.tasks[1].model == 7 && 2 in p.tasks && !p.tasks[2].done
    ensures Apply(p, Callback(1)).opening == map[7 := 2]
  {
    steps := [Request(7, 1), Finish(1), Wake(7, 1), Request(7, 2)];
    var p1 := Apply(EMPTY, steps[0]);
    var p2 := Apply(p1, steps[1]);
    var p3 := Apply(p2, steps[2]);
    p := Apply(p3, steps[3]);
    assert p3.opening == map[];
    assert Run(p, steps[3..][1..], p);
    assert Run(p3, steps[2..][1..], p);
    assert Run(p2, steps[1..][1..], p);
  }

  /** The dictionary and its four writers. */
  class Opener {
    var opening: map<Model, Task>
    var tasks: map<Task, TaskInfo>

    ghost function View(): Pool
      reads this
    {
      Pool(opening, tasks)
    }

    constructor ()
      ensures View() == EMPTY
    {
      opening, tasks := map[], map[];
    }

    /** Start site of `acquire` and of the tick: `task` is what the model's callers wait for. */
    method StartOpen(model: Model, created: Task) returns (task: Task)
      requires Enabled(View(), Request(model, created))
      modifies this
      ensures View() == Apply(old(View()), Request(model, created))
      ensures model in opening && task == opening[model]
    {
      if model in opening {
        return opening[model];
      }
      tasks := tasks[created := TaskInfo(model, false, false)];
      opening := opening[model := created];
      task := created;
    }

    method Complete(task: Task)
      requires Enabled(View(), Finish(task))
      modifies `tasks
      ensures View() == Apply(old(View()), Finish(task))
    {
      tasks := tasks[task := tasks[task].(done := true)];
    }

    method Finished(completed: Task)
      requires Enabled(View(), Callback(completed))
      modifies this
      ensures View() == Apply(old(View()), Callback(completed))
    {
      var model := tasks[completed].model;
      tasks := tasks[completed := tasks[completed].(notified := true)];
      if model in opening && opening[model] == completed {
        opening := opening - {model};
      }
    }

    method LeaveWait(model: Model, task: Task)
      requires Enabled(View(), Wake(model, task))
      modifies `opening
      ensures View() == Apply(old(View()), Wake(model, task))
    {
      if tasks[task].done && model in opening && opening[model] == task {
        opening := opening - {model};
      }
    }
  }
}
