/** LoopCore's service over its stored runs, and what every sequence of requests keeps. */
module LoopService {
  import opened Sequences
  import opened Text
  import opened LoopRun

  /** What the run store does for one request: it serves it, or a read or a write fails. */
  datatype Fault = Healthy | GetFails | PutFails

  datatype Reply = Replied(run: Run) | InvalidRequest | RunNotFound | StoreFailed

  datatype Call = Start(id: string, request: StartRequest, fault: Fault) | On(id: string, move: Move, fault: Fault)

  predicate ValidStart(id: string, request: StartRequest)
  {
    && !IsBlank(id) && !IsBlank(request.taskID) && !IsBlank(request.input)
    && forall d <- request.steps :: !IsBlank(d.id)
  }

  /** The answer to one call, by the runs it finds. */
  function Answer(runs: map<string, Run>, call: Call): Reply
  {
    match call
    case Start(id, request, fault) =>
      if !ValidStart(id, request) then InvalidRequest
      else if fault.GetFails? then StoreFailed
      else if id in runs then InvalidRequest
      else if fault.PutFails? then StoreFailed
      else Replied(Started(request))
    case On(id, move, fault) =>
      if IsBlank(id) || !ValidMove(move) then InvalidRequest
      else if fault.GetFails? then StoreFailed
      else if id !in runs then RunNotFound
      else if Terminal(runs[id].state) then Replied(runs[id])
      else if !Applies(runs[id], move) then InvalidRequest
      else if fault.PutFails? then StoreFailed
      else Replied(Moved(runs[id], move))
  }

  /** What is stored afterwards: the run replied with, and otherwise what was stored before. */
  function After(runs: map<string, Run>, call: Call): map<string, Run>
  {
    if Answer(runs, call).Replied? then runs[call.id := Answer(runs, call).run] else runs
  }

  class Service {
    var runs: map<string, Run>

    constructor ()
      ensures runs == map[]
    {
      runs := map[];
    }

    method StartRun(id: string, request: StartRequest, fault: Fault) returns (reply: Reply)
      modifies this
      ensures reply == Answer(old(runs), Start(id, request, fault))
      ensures runs == After(old(runs), Start(id, request, fault))
    {
      if IsBlank(id) || IsBlank(request.taskID) || IsBlank(request.input) {
        return InvalidRequest;
      }
      var steps: seq<Step> := [];
      for i := 0 to |request.steps|
        invariant steps == QueuedSteps(request.steps)[..i]
        invariant forall j :: 0 <= j < i ==> !IsBlank(request.steps[j].id)
      {
        var d := request.steps[i];
        if IsBlank(d.id) {
          assert d in request.steps;
          return InvalidRequest;
        }
        steps := steps + [Step(d.id, d.kind, d.name, Queued, 0, d.maxIterations, "", "")];
      }
      var state, current := Final, "";
      if |steps| > 0 {
        state, current := Running, steps[0].id;
        steps := steps[0 := steps[0].(state := Running)];
      }
      var run := Run(request.taskID, request.channelID, request.targetID, request.input, request.metadata,
                     state, current, 0, "", "", steps);
      if fault.GetFails? {
        return StoreFailed;
      }
      if id in runs {
        return InvalidRequest;
      }
      if fault.PutFails? {
        return StoreFailed;
      }
      runs := runs[id := run];
      reply := Replied(run);
    }

    method AdvanceStep(id: string, stepID: string, requested: string, iteration: int, output: string, error: string,
                       fault: Fault)
      returns (reply: Reply)
      modifies this
      ensures reply == Answer(old(runs), On(id, Advance(stepID, requested, iteration, output, error), fault))
      ensures runs == After(old(runs), On(id, Advance(stepID, requested, iteration, output, error), fault))
    {
      if IsBlank(id) || IsBlank(stepID) || iteration < 0 {
        return InvalidRequest;
      }
      if fault.GetFails? {
        return StoreFailed;
      }
      if id !in runs {
        return RunNotFound;
      }
      var run := runs[id];
      if run.state == Final || run.state == Failed || run.state == Cancelled {
        return Replied(run);
      }
      var index := 0;
      while index < |run.steps| && run.steps[index].id != stepID
        invariant index <= |run.steps|
        invariant forall i :: 0 <= i < index ==> run.steps[i].id != stepID
      {
        index := index + 1;
      }
      assert index == FirstAt(run.steps, stepID);
      if index == |run.steps| || !Supported(requested) {
        return InvalidRequest;
      }
      var step := run.steps[index];
      if step.maxIterations > 0 && iteration > step.maxIterations {
        step := step.(state := Failed, error := "maximum iterations exceeded");
        run := run.(steps := run.steps[index := step], state := Failed, error := step.error, iteration := iteration);
      } else {
        step := step.(state := StateOf(requested), output := output, error := error, iteration := iteration);
        run := run.(steps := run.steps[index := step]);
        if step.state == Failed {
          run := run.(state := Failed, error := step.error);
        } else if step.state == Final {
          run := run.(output := step.output);
          if index + 1 < |run.steps| {
            var next := run.steps[index + 1];
            run := run.(currentStepID := next.id, steps := run.steps[index + 1 := next.(state := Running)]);
          } else {
            run := run.(state := Final, currentStepID := "");
          }
        }
        run := run.(iteration := iteration);
      }
      if fault.PutFails? {
        return StoreFailed;
      }
      runs := runs[id := run];
      reply := Replied(run);
    }

    method CancelRun(id: string, reason: string, fault: Fault) returns (reply: Reply)
      modifies this
      ensures reply == Answer(old(runs), On(id, Cancel(reason), fault))
      ensures runs == After(old(runs), On(id, Cancel(reason), fault))
    {
      if IsBlank(id) {
        return InvalidRequest;
      }
      if fault.GetFails? {
        return StoreFailed;
      }
      if id !in runs {
        return RunNotFound;
      }
      var run := runs[id];
      if run.state != Final && run.state != Failed && run.state != Cancelled {
        var error := TrimSpace(reason);
        if error == "" {
          error := "cancelled by operator";
        }
        run := run.(state := Cancelled, error := error);
        if fault.PutFails? {
          return StoreFailed;
        }
        runs := runs[id := run];
      }
      reply := Replied(run);
    }
  }

  // ---------- What a request does to its run, field by field ----------

  /** A new run is stored as requested, its first step running and the others queued; without steps it is final. */
  lemma StartTells(runs: map<string, Run>, id: string, request: StartRequest)
    requires id !in runs && !IsBlank(id) && !IsBlank(request.taskID) && !IsBlank(request.input)
    requires forall d <- request.steps :: !IsBlank(d.id)
    ensures var after := After(runs, Start(id, request, Healthy));
      id in after && after == runs[id := after[id]] && Answer(runs, Start(id, request, Healthy)) == Replied(after[id])
    ensures var run := After(runs, Start(id, request, Healthy))[id];
      && run.taskID == request.taskID && run.channelID == request.channelID && run.targetID == request.targetID
      && run.input == request.input && run.metadata == request.metadata
      && run.iteration == 0 && run.output == run.error == ""
      && run.state == (if request.steps == [] then Final else Running)
      && run.currentStepID == (if request.steps == [] then "" else request.steps[0].id)
      && |run.steps| == |request.steps|
      && forall i :: 0 <= i < |run.steps| ==>
           var step, d := run.steps[i], request.steps[i];
           && step.id == d.id && step.kind == d.kind && step.name == d.name && step.maxIterations == d.maxIterations
           && step.state == (if i == 0 then Running else Queued) && step.iteration == 0
           && step.output == step.error == ""
  {
  }

  /** The report is one that a running run takes, about step k, the first one of that id. */
  predicate IsReport(runs: map<string, Run>, id: string, k: nat, stepID: string, requested: string, iteration: int)
  {
    && id in runs && !IsBlank(id) && !IsBlank(stepID) && iteration >= 0
    && (runs[id].state == Queued || runs[id].state == Running)
    && k < |runs[id].steps| && runs[id].steps[k].id == stepID
    && (forall i :: 0 <= i < k ==> runs[id].steps[i].id != stepID)
    && (requested == "running" || requested == "final" || requested == "failed")
  }

  /**
   A report about step k: within the step's limit it takes the reported state, output, error and iteration, and a
   final step hands its output and the turn on; beyond the limit the step fails, and the run with it.
   */
  lemma AdvanceTells(runs: map<string, Run>, id: string, k: nat, stepID: string, requested: string, iteration: int,
                     output: string, error: string)
    requires IsReport(runs, id, k, stepID, requested, iteration)
    ensures var call := On(id, Advance(stepID, requested, iteration, output, error), Healthy);
      id in After(runs, call) && After(runs, call) == runs[id := After(runs, call)[id]]
      && Answer(runs, call) == Replied(After(runs, call)[id])
    ensures var run := runs[id];
      var after := After(runs, On(id, Advance(stepID, requested, iteration, output, error), Healthy))[id];
      var step, last := run.steps[k], k + 1 == |run.steps|;
      var over := step.maxIterations > 0 && iteration > step.maxIterations;
      var fails, ends := over || requested == "failed", !over && requested == "final";
      var text := if over then "maximum iterations exceeded" else error;
      && |after.steps| == |run.steps| && after.iteration == iteration
      && after.steps[k] == (if over then step.(state := Failed, error := text)
                            else step.(state := if requested == "running" then Running
                                                else if requested == "final" then Final else Failed,
                                       output := output, error := error, iteration := iteration))
      && (ends && !last ==> after.steps[k + 1] == run.steps[k + 1].(state := Running))
      && (forall i :: 0 <= i < |run.steps| && i != k && !(ends && i == k + 1) ==> after.steps[i] == run.steps[i])
      && after.state == (if fails then Failed else if ends && last then Final else run.state)
      && after.error == (if fails then text else run.error)
      && after.output == (if ends then output else run.output)
      && after.currentStepID == (if !ends then run.currentStepID else if last then "" else run.steps[k + 1].id)
      && after.(steps := run.steps, iteration := run.iteration, state := run.state, error := run.error,
                output := run.output, currentStepID := run.currentStepID) == run
  {
    assert FirstAt(runs[id].steps, stepID) == k;
    hide FirstAt;
    hide IsBlank;
  }

  /** A cancellation takes effect exactly on a run that has not ended, with its trimmed reason. */
  lemma CancelTells(runs: map<string, Run>, id: string, reason: string)
    requires id in runs && !IsBlank(id)
    ensures var call := On(id, Cancel(reason), Healthy);
      After(runs, call) ==
        if runs[id].state == Queued || runs[id].state == Running then
          runs[id := runs[id].(state := Cancelled,
                               error := if TrimSpace(reason) == "" then "cancelled by operator"
                                        else TrimSpace(reason))]
        else runs
  {
    assert IsBlank(reason) <==> TrimSpace(reason) == "";
    assert runs[id := runs[id]] == runs;
    hide TrimSpace;
  }

  /** Which requests are refused, and with what; a refused one changes nothing. */
  lemma RefusalTells(runs: map<string, Run>, call: Call)
    ensures !Answer(runs, call).Replied? ==> After(runs, call) == runs
    ensures call.Start? ==>
      var malformed := IsBlank(call.id) || IsBlank(call.request.taskID) || IsBlank(call.request.input)
                       || exists d <- call.request.steps :: IsBlank(d.id);
      Answer(runs, call) ==
        if malformed then InvalidRequest
        else if call.fault.GetFails? then StoreFailed
        else if call.id in runs then InvalidRequest
        else if call.fault.PutFails? then StoreFailed
        else Replied(After(runs, call)[call.id])
    ensures call.On? && !IsBlank(call.id) && !call.fault.GetFails? ==>
      (Answer(runs, call) == RunNotFound <==>
         call.id !in runs && (call.move.Advance? ==> !IsBlank(call.move.stepID) && call.move.iteration >= 0))
    ensures call.On? && call.id in runs && !IsBlank(call.id) && runs[call.id].state in {Final, Failed, Cancelled} ==>
      && After(runs, call) == runs
      && (!call.fault.GetFails? && (call.move.Advance? ==> !IsBlank(call.move.stepID) && call.move.iteration >= 0) ==>
            Answer(runs, call) == Replied(runs[call.id]))
  {
    if call.On? && call.id in runs {
      assert runs[call.id := runs[call.id]] == runs;
    }
    hide IsBlank;
    hide Moved;
    hide Started;
  }

  // ---------- Every sequence of requests ----------

  function Served(calls: seq<Call>): map<string, Run>
  {
    if calls == [] then map[] else After(Served(calls[..|calls| - 1]), calls[|calls| - 1])
  }

  /** The history of one stored run: the request that started it and the moves made since. */
  datatype History = History(request: StartRequest, moves: seq<Move>)

  ghost predicate Tells(h: History, id: string, run: Run)
  {
    ValidStart(id, h.request) && run == Played(Started(h.request), h.moves)
  }

  /** The caller gives distinct step ids and advances the current step of the run it finds. */
  predicate Orderly(runs: map<string, Run>, call: Call)
  {
    match call
    case Start(_, request, _) => Distinct(request.steps)
    case On(id, move, _) => id in runs ==> NamesCurrent(runs[id], move)
  }

  predicate AlwaysOrderly(calls: seq<Call>)
  {
    calls != [] ==>
      var n := |calls| - 1;
      AlwaysOrderly(calls[..n]) && Orderly(Served(calls[..n]), calls[n])
  }

  /** Each stored run is a start followed by moves, orderly ones when the callers were. */
  ghost predicate HasHistory(id: string, run: Run, orderly: bool)
  {
    exists h: History :: Tells(h, id, run) && (orderly ==> IsOrderly(h))
  }

  predicate IsOrderly(h: History)
  {
    Distinct(h.request.steps) && AlwaysNamesCurrent(Started(h.request), h.moves)
  }

  lemma StartHasHistory(id: string, request: StartRequest, orderly: bool)
    requires ValidStart(id, request)
    requires orderly ==> Distinct(request.steps)
    ensures HasHistory(id, Started(request), orderly)
  {
    var h := History(request, []);
    assert Tells(h, id, Started(request)) && (orderly ==> IsOrderly(h));
  }

  lemma MoveHasHistory(id: string, run: Run, move: Move, orderly: bool)
    requires HasHistory(id, run, orderly)
    requires orderly ==> NamesCurrent(run, move)
    ensures HasHistory(id, Moved(run, move), orderly)
  {
    var h: History :| Tells(h, id, run) && (orderly ==> IsOrderly(h));
    PlayedAppend(Started(h.request), h.moves, move);
    var longer := History(h.request, h.moves + [move]);
    assert Tells(longer, id, Moved(run, move)) && (orderly ==> IsOrderly(longer));
  }

  lemma AfterHasHistory(runs: map<string, Run>, call: Call, orderly: bool)
    requires forall id <- runs :: HasHistory(id, runs[id], orderly)
    requires orderly ==> Orderly(runs, call)
    ensures forall id <- After(runs, call) :: HasHistory(id, After(runs, call)[id], orderly)
  {
    var answer := Answer(runs, call);
    if answer.Replied? {
      assert HasHistory(call.id, answer.run, orderly) by {
        match call
        case Start(id, request, _) => StartHasHistory(id, request, orderly);
        case On(id, move, _) => MoveHasHistory(id, runs[id], move, orderly);
      }
    }
  }

  lemma {:induction false} ServedHasHistory(calls: seq<Call>, orderly: bool)
    requires orderly ==> AlwaysOrderly(calls)
    ensures forall id <- Served(calls) :: HasHistory(id, Served(calls)[id], orderly)
  {
    if calls != [] {
      var n := |calls| - 1;
      ServedHasHistory(calls[..n], orderly);
      AfterHasHistory(Served(calls[..n]), calls[n], orderly);
    }
  }

  /**
   Under orderly callers and any store failures, every stored run is in shape, and final exactly when its steps
   are.
   */
  lemma RunsAreInShape(calls: seq<Call>, id: string)
    requires AlwaysOrderly(calls) && id in Served(calls)
    ensures InShape(Served(calls)[id])
    ensures Served(calls)[id].state == Final <==> AllFinal(Served(calls)[id].steps)
  {
    ServedHasHistory(calls, true);
    var h: History :| Tells(h, id, Served(calls)[id]) && IsOrderly(h);
    PlayedKeepsShape(h.request, h.moves);
    FinalIffStepsAre(Served(calls)[id]);
  }

  /** Whatever the callers do, no stored step has iterated past its limit. */
  lemma RunsAreWithinLimits(calls: seq<Call>, id: string)
    requires id in Served(calls)
    ensures WithinLimits(Served(calls)[id])
  {
    ServedHasHistory(calls, false);
    var h: History :| Tells(h, id, Served(calls)[id]);
    IterationsAreBounded(h.request, h.moves);
  }

  /** Whatever the callers do, a run that has ended is stored unchanged for good. */
  lemma {:induction false} EndedRunIsPermanent(calls: seq<Call>, more: seq<Call>, id: string)
    requires id in Served(calls) && Terminal(Served(calls)[id].state)
    ensures id in Served(calls + more) && Served(calls + more)[id] == Served(calls)[id]
  {
    if more == [] {
      assert calls + more == calls;
    } else {
      var n := |more| - 1;
      EndedRunIsPermanent(calls, more[..n], id);
      assert (calls + more)[..|calls| + n] == calls + more[..n];
      assert (calls + more)[|calls| + n] == more[n];
    }
  }
}
