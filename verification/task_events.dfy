/** The event vocabulary AgentCore publishes and GateCore projects. */
module TaskEvents {
  import opened Sequences
  import opened Text

  datatype EventState = Running | Queued | Progress | Final | Failed | Other(name: string)

  predicate IsTerminalEvent(state: EventState)
  {
    state == Final || state == Failed
  }

  datatype TaskEvent = TaskEvent(
    taskID: string,
    eventID: string,
    sequence: int,
    state: EventState,
    content: string,
    error: string,
    progress: Option<(string, string)>)

  /** The id both event stores give the event with this sequence. */
  function EventID(taskID: string, sequence: nat): string
  {
    taskID + "-" + Decimal(sequence)
  }

  /** Within one task, an event id names one sequence. */
  lemma EventIDInjective(taskID: string, m: nat, n: nat)
    requires EventID(taskID, m) == EventID(taskID, n)
    ensures m == n
  {
    var prefix := taskID + "-";
    assert EventID(taskID, m)[|prefix|..] == Decimal(m);
    assert EventID(taskID, n)[|prefix|..] == Decimal(n);
    DecimalInjective(m, n);
  }
}
