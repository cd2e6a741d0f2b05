/** One LoopCore run: a list of steps that its worker advances, and the shape the steps keep. */
module LoopRun {
  import opened Text

  /** The states of a step and of a run. */
  datatype State = Queued | Running | Final | Failed | Cancelled

  datatype Step = Step(id: string, kind: string, name: string, state: State, iteration: int,
                       maxIterations: int, output: string, error: string)

  datatype Run = Run(taskID: string, channelID: string, targetID: string, input: string, metadata: map<string, string>,
                     state: State, currentStepID: string, iteration: int, output: string, error: string,
                     steps: seq<Step>)

  datatype StepDefinition = StepDefinition(id: string, kind: string, name: string, maxIterations: int)

  datatype StartRequest = StartRequest(taskID: string, channelID: string, targetID: string, input: string,
                                       metadata: map<string, string>, steps: seq<StepDefinition>)

  /** A request about a run that exists. */
  datatype Move =
    | Advance(stepID: string, requested: string, iteration: int, output: string, error: string)
    | Cancel(reason: string)

  predicate Terminal(state: State)
  {
    state in {Final, Failed, Cancelled}
  }

  // ---------- What the handlers do to a run ----------

  function QueuedStep(d: StepDefinition): Step
  {
    Step(d.id, d.kind, d.name, Queued, 0, d.maxIterations, "", "")
  }

  function QueuedSteps(definitions: seq<StepDefinition>): (steps: seq<Step>)
    ensures |steps| == |definitions|
    ensures forall i :: 0 <= i < |steps| ==> steps[i] == QueuedStep(definitions[i])
  {
    seq(|definitions|, i requires 0 <= i < |definitions| => QueuedStep(definitions[i]))
  }

  /** A new run: its first step runs; a run without steps is final at once. */
  function Started(request: StartRequest): Run
  {
    var steps := QueuedSteps(request.steps);
    var run := Run(request.taskID, request.channelID, request.targetID, request.input, request.metadata,
                   Final, "", 0, "", "", steps);
    if steps == [] then run
    else run.(state := Running, currentStepID := steps[0].id, steps := steps[0 := steps[0].(state := Running)])
  }

  /** The first step with the given id, or the number of steps. */
  function FirstAt(steps: seq<Step>, id: string): (k: nat)
    ensures k <= |steps|
    ensures forall i :: 0 <= i < k ==> steps[i].id != id
    ensures k < |steps| ==> steps[k].id == id
  {
    if steps == [] || steps[0].id == id then 0 else FirstAt(steps[1..], id) + 1
  }

  predicate Supported(requested: string)
  {
    requested in {"running", "final", "failed"}
  }

  function StateOf(requested: string): State
    requires Supported(requested)
  {
    if requested == "running" then Running else if requested == "final" then Final else Failed
  }

  predicate Exceeds(step: Step, iteration: int)
  {
    step.maxIterations > 0 && iteration > step.maxIterations
  }

  /** Step k takes the reported state; a finished step hands over to the next one. */
  function Advanced(run: Run, k: nat, move: Move): Run
    requires k < |run.steps| && move.Advance? && Supported(move.requested)
  {
    var step := run.steps[k];
    if Exceeds(step, move.iteration) then
      var failed := step.(state := Failed, error := "maximum iterations exceeded");
      run.(steps := run.steps[k := failed], state := Failed, error := failed.error, iteration := move.iteration)
    else
      var next := step.(state := StateOf(move.requested), output := move.output, error := move.error,
                        iteration := move.iteration);
      var moved := run.(steps := run.steps[k := next], iteration := move.iteration);
      match next.state
      case Failed => moved.(state := Failed, error := next.error)
      case Final =>
        if k + 1 < |run.steps| then
          moved.(output := next.output, currentStepID := run.steps[k + 1].id,
          steps := moved.steps[k + 1 := run.steps[k + 1].(state := Running)])
        else
          moved.(output := next.output, state := Final, currentStepID := "")
      case _ => moved
  }

  predicate ValidMove(move: Move)
  {
    move.Advance? ==> !IsBlank(move.stepID) && move.iteration >= 0
  }

  /** The move changes the run rather than being refused or ignored. */
  predicate Applies(run: Run, move: Move)
  {
    && ValidMove(move) && !Terminal(run.state)
    && (move.Advance? ==> FirstAt(run.steps, move.stepID) < |run.steps| && Supported(move.requested))
  }

  function CancelError(reason: string): string
  {
    if IsBlank(reason) then "cancelled by operator" else TrimSpace(reason)
  }

  function Moved(run: Run, move: Move): Run
  {
    if !Applies(run, move) then run
    else match move
      case Advance(_, _, _, _, _) => Advanced(run, FirstAt(run.steps, move.stepID), move)
      case Cancel(reason) => run.(state := Cancelled, error := CancelError(reason))
  }

  // ---------- The shape of a run ----------

  predicate AllFinal(steps: seq<Step>)
  {
    forall step <- steps :: step.state == Final
  }

  /** The output of the last of the first c steps. */
  function OutputBefore(steps: seq<Step>, c: nat): string
    requires c <= |steps|
  {
    if c == 0 then "" else steps[c - 1].output
  }

  /** The steps read final* s queued*, with the current step and the output to match. */
  predicate IsAt(run: Run, c: nat, s: State)
  {
    && c < |run.steps|
    && (forall i :: 0 <= i < c ==> run.steps[i].state == Final)
    && run.steps[c].state == s
    && (forall i :: c < i < |run.steps| ==> run.steps[i].state == Queued)
    && run.currentStepID == run.steps[c].id
    && run.output == OutputBefore(run.steps, c)
  }

  predicate FailedAt(run: Run, c: nat)
  {
    IsAt(run, c, Failed) && run.error == run.steps[c].error
  }

  ghost predicate InShape(run: Run)
  {
    match run.state
    case Queued => false
    case Running => run.error == "" && exists c: nat :: IsAt(run, c, Running)
    case Final =>
      run.error == "" && AllFinal(run.steps) && run.currentStepID == ""
        && run.output == OutputBefore(run.steps, |run.steps|)
    case Failed => exists c: nat :: FailedAt(run, c)
    case Cancelled => run.error != "" && exists c: nat :: IsAt(run, c, Running)
  }

  /** A run in shape is final exactly when all of its steps are. */
  lemma FinalIffStepsAre(run: Run)
    requires InShape(run)
    ensures run.state == Final <==> AllFinal(run.steps)
  {
    if run.state == Failed {
      var c: nat :| FailedAt(run, c);
      assert run.steps[c] in run.steps;
    } else if run.state != Final {
      var c: nat :| IsAt(run, c, Running);
      assert run.steps[c] in run.steps;
    }
  }

  lemma StartIsInShape(request: StartRequest)
    ensures InShape(Started(request))
  {
    var run := Started(request);
    if request.steps != [] {
      assert IsAt(run, 0, Running);
    }
  }

  // ---------- When one advance keeps the shape ----------

  /** Step c itself, or the step before it reported final once more. */
  predicate InTurn(run: Run, c: nat, k: nat, move: Move)
    requires k < |run.steps| && move.Advance?
  {
    || k == c
    || (k + 1 == c && move.requested == "final" && !Exceeds(run.steps[k], move.iteration))
  }

  lemma InTurnKeepsShape(run: Run, c: nat, k: nat, move: Move)
    requires run.state == Running && run.error == "" && IsAt(run, c, Running)
    requires k < |run.steps| && move.Advance? && Supported(move.requested)
    requires InTurn(run, c, k, move)
    ensures InShape(Advanced(run, k, move))
  {
    var after := Advanced(run, k, move);
    if after.state == Failed {
      assert FailedAt(after, c);
    } else if after.state == Running {
      assert IsAt(after, if k == c && move.requested == "final" then c + 1 else c, Running);
    }
  }

  lemma OutOfTurnBreaksShape(run: Run, c: nat, k: nat, move: Move)
    requires run.state == Running && IsAt(run, c, Running)
    requires k < |run.steps| && move.Advance? && Supported(move.requested)
    requires !InTurn(run, c, k, move)
    ensures !InShape(Advanced(run, k, move))
  {
    var after := Advanced(run, k, move);
    assert k != c;
    if after.state == Failed {
      assert after.steps[k].state == Failed && after.steps[c].state == Running;
    } else if move.requested == "running" {
      assert after.steps[k].state == Running && after.steps[c].state == Running;
    } else if k < c {
      assert after.steps[k + 1].state == Running && after.steps[c].state == Running;
    } else {
      assert after.steps[c].state == Running && after.steps[k].state == Final;
      assert after.steps[c] in after.steps;
    }
  }

  /** Exactly which advances of a running run keep its shape. */
  lemma AdvanceKeepsShapeIff(run: Run, c: nat, k: nat, move: Move)
    requires run.state == Running && run.error == "" && IsAt(run, c, Running)
    requires k < |run.steps| && move.Advance? && Supported(move.requested)
    ensures InShape(Advanced(run, k, move)) <==> InTurn(run, c, k, move)
  {
    if InTurn(run, c, k, move) {
      InTurnKeepsShape(run, c, k, move);
    } else {
      OutOfTurnBreaksShape(run, c, k, move);
    }
  }

  // ---------- Whole runs ----------

  predicate DistinctUpTo(definitions: seq<StepDefinition>, n: nat)
  {
    forall i, j :: 0 <= i < j < n && j < |definitions| ==> definitions[i].id != definitions[j].id
  }

  predicate Distinct(definitions: seq<StepDefinition>)
  {
    DistinctUpTo(definitions, |definitions|)
  }

  /** The run executes these definitions: their ids and their limits, in order. */
  predicate Executes(run: Run, definitions: seq<StepDefinition>)
  {
    && |run.steps| == |definitions|
    && forall i :: 0 <= i < |definitions| ==>
         run.steps[i].id == definitions[i].id && run.steps[i].maxIterations == definitions[i].maxIterations
  }

  lemma MovedExecutes(run: Run, move: Move, definitions: seq<StepDefinition>)
    requires Executes(run, definitions)
    ensures Executes(Moved(run, move), definitions)
  {
    hide FirstAt;
    hide IsBlank;
    hide TrimSpace;
  }

  predicate NamesCurrent(run: Run, move: Move)
  {
    move.Advance? && run.state == Running ==> move.stepID == run.currentStepID
  }

  lemma CurrentKeepsShape(run: Run, move: Move, definitions: seq<StepDefinition>)
    requires InShape(run) && Executes(run, definitions) && Distinct(definitions)
    requires NamesCurrent(run, move)
    ensures InShape(Moved(run, move))
  {
    if Applies(run, move) {
      var c: nat :| IsAt(run, c, Running);
      if move.Advance? {
        var k := FirstAt(run.steps, move.stepID);
        assert k == c by {
          assert k <= c;
          assert definitions[k].id == definitions[c].id;
        }
        InTurnKeepsShape(run, c, k, move);
      } else {
        assert IsAt(Moved(run, move), c, Running);
      }
    }
  }

  function Played(run: Run, moves: seq<Move>): Run
  {
    if moves == [] then run else Moved(Played(run, moves[..|moves| - 1]), moves[|moves| - 1])
  }

  predicate AlwaysNamesCurrent(run: Run, moves: seq<Move>)
  {
    moves != [] ==>
      var n := |moves| - 1;
      AlwaysNamesCurrent(run, moves[..n]) && NamesCurrent(Played(run, moves[..n]), moves[n])
  }

  lemma {:induction false} PlayedKeepsShape(request: StartRequest, moves: seq<Move>)
    requires Distinct(request.steps) && AlwaysNamesCurrent(Started(request), moves)
    ensures InShape(Played(Started(request), moves)) && Executes(Played(Started(request), moves), request.steps)
  {
    if moves == [] {
      StartIsInShape(request);
    } else {
      var n := |moves| - 1;
      PlayedKeepsShape(request, moves[..n]);
      var run := Played(Started(request), moves[..n]);
      CurrentKeepsShape(run, moves[n], request.steps);
      MovedExecutes(run, moves[n], request.steps);
    }
  }

  /** The moves that report the first n steps final, in order. */
  function FinishFirst(definitions: seq<StepDefinition>, n: nat): seq<Move>
    requires n <= |definitions|
  {
    if n == 0 then [] else FinishFirst(definitions, n - 1) + [Finish(definitions[n - 1])]
  }

  function Finish(d: StepDefinition): Move
  {
    Advance(d.id, "final", 0, "", "")
  }

  lemma {:induction false} FirstAtIs(run: Run, definitions: seq<StepDefinition>, n: nat)
    requires Executes(run, definitions) && n < |definitions| && DistinctUpTo(definitions, n + 1)
    ensures FirstAt(run.steps, definitions[n].id) == n
  {
    assert run.steps[n].id == definitions[n].id;
    assert forall i :: 0 <= i < n ==> run.steps[i].id != definitions[n].id;
  }

  lemma FinishAdvances(run: Run, definitions: seq<StepDefinition>, n: nat)
    requires Executes(run, definitions) && n + 1 < |definitions| && DistinctUpTo(definitions, n + 1)
    requires !IsBlank(definitions[n].id)
    requires run.state == Running && run.error == "" && IsAt(run, n, Running)
    ensures var after := Moved(run, Finish(definitions[n]));
            after.state == Running && after.error == "" && IsAt(after, n + 1, Running)
    ensures NamesCurrent(run, Finish(definitions[n]))
  {
    FirstAtIs(run, definitions, n);
    var move := Finish(definitions[n]);
    assert Supported(move.requested) && StateOf(move.requested) == Final;
    assert Moved(run, move) == Advanced(run, n, move);
  }

  /** Reporting the first n steps final, in order, brings the run to step n. */
  lemma {:induction false} FinishFirstArrives(request: StartRequest, n: nat)
    requires n < |request.steps| && DistinctUpTo(request.steps, n)
    requires forall d <- request.steps :: !IsBlank(d.id)
    ensures var run := Played(Started(request), FinishFirst(request.steps, n));
            Executes(run, request.steps) && run.state == Running && run.error == "" && IsAt(run, n, Running)
    ensures AlwaysNamesCurrent(Started(request), FinishFirst(request.steps, n))
  {
    if n == 0 {
      assert IsAt(Started(request), 0, Running);
    } else {
      FinishFirstArrives(request, n - 1);
      var before := FinishFirst(request.steps, n - 1);
      var run := Played(Started(request), before);
      var d := request.steps[n - 1];
      assert d in request.steps;
      FinishAdvances(run, request.steps, n - 1);
      MovedExecutes(run, Finish(d), request.steps);
      PlayedAppend(Started(request), before, Finish(d));
    }
  }

  lemma PlayedAppend(run: Run, moves: seq<Move>, move: Move)
    ensures Played(run, moves + [move]) == Moved(Played(run, moves), move)
    ensures AlwaysNamesCurrent(run, moves + [move])
            <==> AlwaysNamesCurrent(run, moves) && NamesCurrent(Played(run, moves), move)
  {
    assert (moves + [move])[..|moves|] == moves;
  }

  lemma {:induction false} FirstRepeat(definitions: seq<StepDefinition>, n: nat) returns (j: nat)
    requires n <= |definitions| && !DistinctUpTo(definitions, n)
    ensures j < n && DistinctUpTo(definitions, j)
    ensures exists i :: 0 <= i < j && definitions[i].id == definitions[j].id
  {
    if DistinctUpTo(definitions, n - 1) {
      j := n - 1;
    } else {
      j := FirstRepeat(definitions, n - 1);
    }
  }

  lemma RepeatIsOutOfTurn(run: Run, definitions: seq<StepDefinition>, j: nat)
    requires Executes(run, definitions) && j < |definitions| && !IsBlank(definitions[j].id)
    requires run.state == Running && IsAt(run, j, Running)
    requires exists i :: 0 <= i < j && definitions[i].id == definitions[j].id
    ensures var again := Advance(definitions[j].id, "running", 0, "", "");
            NamesCurrent(run, again) && !InShape(Moved(run, again))
  {
    var i :| 0 <= i < j && definitions[i].id == definitions[j].id;
    var again := Advance(definitions[j].id, "running", 0, "", "");
    var k := FirstAt(run.steps, again.stepID);
    assert k <= i by {
      assert run.steps[i].id == again.stepID;
    }
    assert Supported(again.requested);
    OutOfTurnBreaksShape(run, j, k, again);
  }

  lemma RepeatBreaksShape(request: StartRequest) returns (moves: seq<Move>)
    requires !Distinct(request.steps)
    requires forall d <- request.steps :: !IsBlank(d.id)
    ensures AlwaysNamesCurrent(Started(request), moves) && !InShape(Played(Started(request), moves))
  {
    var j := FirstRepeat(request.steps, |request.steps|);
    FinishFirstArrives(request, j);
    var before := FinishFirst(request.steps, j);
    var d := request.steps[j];
    assert d in request.steps;
    RepeatIsOutOfTurn(Played(Started(request), before), request.steps, j);
    var again := Advance(d.id, "running", 0, "", "");
    PlayedAppend(Started(request), before, again);
    moves := before + [again];
  }

  ghost predicate KeepsShape(request: StartRequest)
  {
    forall moves: seq<Move> | AlwaysNamesCurrent(Started(request), moves) :: InShape(Played(Started(request), moves))
  }

  /** Callers that always name the current step keep the shape exactly when the step ids are distinct. */
  lemma ShapeHoldsIff(request: StartRequest)
    requires forall d <- request.steps :: !IsBlank(d.id)
    ensures KeepsShape(request) <==> Distinct(request.steps)
  {
    if Distinct(request.steps) {
      forall moves: seq<Move> | AlwaysNamesCurrent(Started(request), moves)
        ensures InShape(Played(Started(request), moves))
      {
        PlayedKeepsShape(request, moves);
      }
    } else {
      var moves := RepeatBreaksShape(request);
      assert AlwaysNamesCurrent(Started(request), moves);
    }
  }

  // ---------- For any caller ----------

  /** A run that has ended never changes. */
  lemma {:induction false} EndedRunStays(run: Run, moves: seq<Move>)
    requires Terminal(run.state)
    ensures Played(run, moves) == run
  {
    if moves != [] {
      EndedRunStays(run, moves[..|moves| - 1]);
    }
  }

  predicate WithinLimits(run: Run)
  {
    forall step <- run.steps :: step.iteration >= 0 && (step.maxIterations > 0 ==> step.iteration <= step.maxIterations)
  }

  lemma StartIsWithinLimits(request: StartRequest)
    ensures WithinLimits(Started(request))
  {
  }

  lemma MovedIsWithinLimits(run: Run, move: Move)
    requires WithinLimits(run)
    ensures WithinLimits(Moved(run, move))
  {
    if Applies(run, move) && move.Advance? {
      var k := FirstAt(run.steps, move.stepID);
      var after := Moved(run, move);
      forall i | 0 <= i < |run.steps|
        ensures after.steps[i].iteration >= 0
        ensures after.steps[i].maxIterations > 0 ==> after.steps[i].iteration <= after.steps[i].maxIterations
      {
        assert run.steps[i] in run.steps;
      }
    }
  }

  /** No step's iteration ever passes its positive limit, and the limits stay those of the request. */
  lemma {:induction false} IterationsAreBounded(request: StartRequest, moves: seq<Move>)
    ensures WithinLimits(Played(Started(request), moves)) && Executes(Played(Started(request), moves), request.steps)
  {
    if moves == [] {
      StartIsWithinLimits(request);
    } else {
      var n := |moves| - 1;
      IterationsAreBounded(request, moves[..n]);
      MovedIsWithinLimits(Played(Started(request), moves[..n]), moves[n]);
      MovedExecutes(Played(Started(request), moves[..n]), moves[n], request.steps);
    }
  }
}
