/**
 The cancel functions of one process: which execution's context a committed cancellation ends, over any history of
 executions that start and end and of cancellations.
 */
module GateContexts {
  import opened Sequences
  import opened GateModel

  /** Every execution started, in order; the one whose context each task's cancellation ends; the contexts ended. */
  datatype Contexts = Contexts(executions: seq<Task>, cancels: map<TaskID, nat>, cancelled: set<nat>)

  const NONE := Contexts([], map[], {})

  datatype Event =
    | Launch(task: Task)         // an execution is started and its cancel function registered
    | Return(execution: nat)       // an execution returns, and deletes whatever its task has registered
    | Revoke(id: TaskID)        // a cancellation has committed

  function Step(c: Contexts, e: Event): Contexts
  {
    match e
    case Launch(task) => c.(executions := c.executions + [task], cancels := c.cancels[task.id := |c.executions|])
    case Return(k) => if k < |c.executions| then c.(cancels := c.cancels - {c.executions[k].id}) else c
    case Revoke(id) =>
      c.(cancels := c.cancels - {id},
         cancelled := if id in c.cancels then c.cancelled + {c.cancels[id]} else c.cancelled)
  }

  function Run(history: seq<Event>): Contexts
  {
    if history == [] then NONE else Step(Run(history[..|history| - 1]), history[|history| - 1])
  }

  /** The event after this history is about the task: one of its executions starts or returns, or it is cancelled. */
  predicate Concerns(history: seq<Event>, e: Event, id: TaskID)
  {
    match e
    case Launch(task) => task.id == id
    case Return(k) => k < |Run(history).executions| && Run(history).executions[k].id == id
    case Revoke(other) => other == id
  }

  /** Execution k of the task was started at p, and nothing has concerned the task since. */
  predicate LeftAlone(history: seq<Event>, id: TaskID, k: nat, p: nat)
    requires p < |history|
  {
    && history[p].Launch? && history[p].task.id == id && |Run(history[..p]).executions| == k
    && forall q :: p < q < |history| ==> !Concerns(history[..q], history[q], id)
  }

  lemma LeftAloneNext(history: seq<Event>, id: TaskID, k: nat, p: nat)
    requires history != [] && p < |history| - 1
    ensures var n := |history| - 1;
      LeftAlone(history, id, k, p) <==> LeftAlone(history[..n], id, k, p) && !Concerns(history[..n], history[n], id)
  {
    var n := |history| - 1;
    assert history[..n][..p] == history[..p];
    assert forall q :: 0 <= q < n ==> history[..n][..q] == history[..q] && history[..n][q] == history[q];
    hide Concerns;
    hide Run;
  }

  /**
   A committed cancellation ends the context of execution k if and only if, since k was started, no execution of its
   task has started or returned and no cancellation of it has committed.
   */
  lemma {:induction false} CancelEndsIff(history: seq<Event>, id: TaskID, k: nat)
    ensures id in Run(history).cancels && Run(history).cancels[id] == k
            <==> exists p :: 0 <= p < |history| && LeftAlone(history, id, k, p)
  {
    if history != [] {
      var n := |history| - 1;
      CancelEndsIff(history[..n], id, k);
      var before, e := Run(history[..n]), history[n];
      if Concerns(history[..n], e, id) {
        forall p | 0 <= p < n ensures !LeftAlone(history, id, k, p) {
          LeftAloneNext(history, id, k, p);
        }
        assert LeftAlone(history, id, k, n) <==> e.Launch? && |before.executions| == k;
      } else {
        forall p | 0 <= p < n ensures LeftAlone(history, id, k, p) <==> LeftAlone(history[..n], id, k, p) {
          LeftAloneNext(history, id, k, p);
        }
        assert !LeftAlone(history, id, k, n);
      }
    }
  }

  /** An execution that returns late takes the registration of the one that was started after it. */
  lemma LateReturnHidesContext(task: Task)
    ensures var history := [Launch(task), Launch(task), Return(0)];
      Step(Run(history), Revoke(task.id)).cancelled == {}
  {
    var history := [Launch(task), Launch(task), Return(0)];
    assert history[..2][..1] == history[..1] && history[..1][..0] == [];
    assert Run(history[..1]) == Contexts([task], map[task.id := 0], {});
    assert Run(history[..2]).executions == [task, task];
  }
}
