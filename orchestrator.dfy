/** The `/run` handler of `app.py`: ask the model for code, refuse on a
    refusal signal, execute, classify the result, retry once with the failure
    text, classify again and respond. The model is an oracle: the reply to the
    task prompt and the reply to the retry prompt are given. */
module Orchestrator {
  import opened Wrappers
  import opened Strings
  import opened Executor

  /** What `json.loads(message["content"])` yields. */
  datatype Content =
    | Code(language: string, code: string)
    | Unparsable(message: string)

  /** One call of `get_llm_response`: it raises (network, HTTP status), or
      it returns a message with a `refusal` field and a `content` field. */
  datatype LlmCall =
    | CallRaised(message: string)
    | Answered(refusal: Option<string>, content: Content)

  /** Everything the outside world contributes to one `/run` request. */
  datatype Oracle = Oracle(firstReply: LlmCall, retryReply: LlmCall, firstRun: RunOracle, retryRun: RunOracle)

  /** The handler's answer: a returned HTTPException (400 or 500), the
      result dictionary, or the catch-all `{"error": ...}`. */
  datatype Response =
    | Refused400(detail: string)
    | Failed500(detail: string)
    | Ok(result: ExecResult)
    | Caught(message: string)

  /** The response, the prompts sent to the model in order, the executor
      results in order, and the working directory afterwards. */
  datatype Trace = Trace(response: Response, prompts: seq<string>, results: seq<ExecResult>, files: set<string>)

  // ---------------------------------------------------------------------
  // Outcome classifier

  /** The heuristic test: lower-cased output mentions "error" or lower-cased
      stderr mentions "err". Only asked of success results. */
  predicate Suspicious(r: ExecResult)
    requires r.status == Success && r.output.Some?
    ensures Suspicious(r) ==> 5 <= |r.output.value| || 3 <= |r.error|
    ensures r.output.value == "" && r.error == "" ==> !Suspicious(r)
  {
    Contains(Lower(r.output.value), "error") || Contains(Lower(r.error), "err")
  }

  /** The final test: an error status, or the heuristic. */
  predicate Failed(r: ExecResult)
    requires WellFormed(r)
    ensures r.status == Error ==> Failed(r)
    ensures Failed(r) && r.status == Success ==> 5 <= |r.output.value| || 3 <= |r.error|
  {
    r.status == Error || Suspicious(r)
  }

  /** Any case variant of "error" in the output of a success result, or of
      "err" in its stderr, makes the result a failure. */
  lemma FailedOnAnyCase(r: ExecResult, t: string, i: int)
    requires WellFormed(r) && r.status == Success
    requires (Lower(t) == "error" && OccursAt(r.output.value, t, i)) || (Lower(t) == "err" && OccursAt(r.error, t, i))
    ensures Failed(r)
  {
    if Lower(t) == "error" && OccursAt(r.output.value, t, i) {
      LowerKeepsOccurrence(r.output.value, t, i);
    } else {
      LowerKeepsOccurrence(r.error, t, i);
    }
  }

  /** A success result fails only through an occurrence: some position of the
      lower-cased output holds "error", or some position of the lower-cased
      stderr holds "err". */
  lemma FailedHasWitness(r: ExecResult)
    requires WellFormed(r) && r.status == Success && Failed(r)
    ensures (exists i :: OccursAt(Lower(r.output.value), "error", i)) || (exists i :: OccursAt(Lower(r.error), "err", i))
  {
    ContainsIff(Lower(r.output.value), "error");
    ContainsIff(Lower(r.error), "err");
  }

  /** The documented false positive: a success whose output reads
      "Error: none found" is a failure. */
  lemma ErrorWordInOutputFails(code: string)
    ensures Failed(ExecResult(Success, "", Some("Error: none found"), code))
  {
  }

  /** A success with output "42" and empty stderr is a success. */
  lemma CleanOutputSucceeds(code: string)
    ensures !Failed(ExecResult(Success, "", Some("42"), code))
  {
  }

  /** The two streams are tested asymmetrically: "err" in the output alone
      is not a failure, in stderr it is. */
  lemma ErrOnlyCountsOnStderr(code: string)
    ensures !Failed(ExecResult(Success, "", Some("stderr"), code))
    ensures Failed(ExecResult(Success, "stderr", Some(""), code))
  {
    var s := Lower("stderr");
    assert s == "stderr";
    ContainsIff(s, "error");
    FirstCharRulesOut(s, "error", 0);
    FirstCharRulesOut(s, "error", 1);
    ContainsIff(Lower(""), "err");
    assert OccursAt("stderr", "err", 3);
    FailedOnAnyCase(ExecResult(Success, "stderr", Some(""), code), "err", 3);
  }

  // ---------------------------------------------------------------------
  // Refusal gate

  /** `message["refusal"]` is truthy: present and not the empty string. */
  predicate Truthy(refusal: Option<string>)
  {
    refusal.Some? && refusal.value != ""
  }

  /** `"refusal" in code.lower()`. */
  predicate RefusalInCode(code: string)
    ensures RefusalInCode(code) ==> 7 <= |code|
  {
    Contains(Lower(code), "refusal")
  }

  /** A first reply that the gate turns into a 400. */
  predicate Refuses(call: LlmCall)
    ensures Refuses(call) ==> call.Answered?
    ensures call.Answered? && call.refusal == Some("") && call.content.Code? && call.content.code == "" ==> !Refuses(call)
  {
    call.Answered? &&
    (Truthy(call.refusal) || (call.content.Code? && RefusalInCode(call.content.code)))
  }

  /** The word "refusal" in the code is found in any letter case. */
  lemma RefusalAnyCase(code: string, t: string, i: int)
    requires OccursAt(code, t, i) && Lower(t) == "refusal"
    ensures RefusalInCode(code)
  {
    LowerKeepsOccurrence(code, t, i);
  }

  // ---------------------------------------------------------------------
  // Retry prompt

  const RetryHead: string := "The previous attempt to solve this task failed with the following error: "
  const RetryMiddle: string := "\n\n    Please generate a new solution that avoids this error.\n\n    ORIGINAL TASK:\n    "
  const RetryTail: string := "\n\n    Remember all security constraints and requirements from before."

  /** The prompt of `retry_with_error`. */
  function RetryPrompt(task: string, error: string): (p: string)
    ensures |p| == |RetryHead| + |error| + |RetryMiddle| + |task| + |RetryTail|
    ensures StartsWith(p, RetryHead)
  {
    RetryHead + error + RetryMiddle + task + RetryTail
  }

  /** The retry prompt holds the failure text verbatim at a fixed offset and
      the task verbatim after it, and nothing of either is cut. */
  lemma RetryPromptEmbeds(task: string, error: string)
    ensures |RetryPrompt(task, error)| == |RetryHead| + |error| + |RetryMiddle| + |task| + |RetryTail|
    ensures OccursAt(RetryPrompt(task, error), error, |RetryHead|)
    ensures OccursAt(RetryPrompt(task, error), task, |RetryHead| + |error| + |RetryMiddle|)
    ensures Contains(RetryPrompt(task, error), error) && Contains(RetryPrompt(task, error), task)
  {
    var p := RetryPrompt(task, error);
    var i := |RetryHead|;
    var j := |RetryHead| + |error| + |RetryMiddle|;
    assert p[i..i + |error|] == error;
    assert p[j..j + |task|] == task;
    assert OccursAt(p, error, i) && OccursAt(p, task, j);
    ContainsIff(p, error);
    ContainsIff(p, task);
  }

  /** The failure text can be read back from the retry prompt when the task
      is known: distinct failure texts give distinct prompts. */
  lemma RetryPromptInjective(task: string, e1: string, e2: string)
    requires RetryPrompt(task, e1) == RetryPrompt(task, e2)
    ensures e1 == e2
  {
    var p := RetryPrompt(task, e1);
    assert |e1| == |e2|;
    assert p[|RetryHead|..|RetryHead| + |e1|] == e1;
    assert RetryPrompt(task, e2)[|RetryHead|..|RetryHead| + |e2|] == e2;
  }

  // ---------------------------------------------------------------------
  // The pipeline

  /** The text a failed first result is retried with: stderr-derived `error`
      after an error status, `output` after the heuristic fired. */
  function FailureSignal(r: ExecResult): (s: string)
    requires WellFormed(r)
  {
    if r.status == Error then r.error else r.output.value
  }

  /** The request a parsed reply makes of the executor. */
  function RequestOf(c: Content): Request
    requires c.Code?
  {
    Request(c.language, c.code)
  }

  /** A model call that ends in the catch-all: the call raises, or its
      content does not parse. */
  predicate CallFails(call: LlmCall)
  {
    call.CallRaised? || call.content.Unparsable?
  }

  /** The exception message such a call carries. */
  function FailureMessage(call: LlmCall): string
    requires CallFails(call)
  {
    if call.CallRaised? then call.message else call.content.message
  }

  /** The 400 detail of a refusing reply: the refusal field if truthy, the
      code otherwise. */
  function RefusalDetail(call: LlmCall): string
    requires Refuses(call)
  {
    "Task refused by LLM: " + if Truthy(call.refusal) then call.refusal.value else call.content.code
  }

  /** The first reply reaches the executor: it answers, is not refused and
      parses to code. */
  predicate FirstRuns(o: Oracle)
  {
    o.firstReply.Answered? && !Refuses(o.firstReply) && o.firstReply.content.Code?
  }

  /** The first execution, on the first reply's code. */
  function FirstStep(files: set<string>, o: Oracle): Step
    requires FirstRuns(o)
  {
    Executed(files, RequestOf(o.firstReply.content), o.firstRun)
  }

  /** app.py:190-194: the final classification of the last result. */
  function Finish(r: ExecResult): (resp: Response)
    requires WellFormed(r)
    ensures resp == Ok(r) <==> !Failed(r)
    ensures resp.Failed500? <==> Failed(r)
    ensures resp.Failed500? ==> resp.detail == "Task failed: " + r.error
  {
    if Failed(r) then Failed500("Task failed: " + r.error) else Ok(r)
  }

  /** app.py:180-188: ask the model again and execute its reply once. The
      retry reply's refusal field is never looked at. */
  function Retry(files: set<string>, task: string, signal: string, o: Oracle, first: ExecResult): (t: Trace)
    requires WellFormed(first)
    ensures |t.results| in {1, 2} && t.results[0] == first
    ensures t.prompts == [task, RetryPrompt(task, signal)]
    ensures |t.results| == 2 <==> !CallFails(o.retryReply)
    ensures t.response.Caught? <==> |t.results| == 1
    // the retry reply's code is executed once, on the retry oracle
    ensures |t.results| == 2 ==>
      t.results[1] == Executed(files, RequestOf(o.retryReply.content), o.retryRun).result &&
      t.files == Executed(files, RequestOf(o.retryReply.content), o.retryRun).files
    ensures |t.results| == 2 ==> WellFormed(t.results[1]) && t.response == Finish(t.results[1])
    ensures |t.results| == 1 ==> t.files == files && t.response == Caught(FailureMessage(o.retryReply))
  {
    var prompts := [task, RetryPrompt(task, signal)];
    match o.retryReply
    case CallRaised(msg) => Trace(Caught(msg), prompts, [first], files)
    case Answered(_, content) =>
      match content
      case Unparsable(msg) => Trace(Caught(msg), prompts, [first], files)
      case Code(language, code) =>
        var s := Executed(files, Request(language, code), o.retryRun);
        Trace(Finish(s.result), prompts, [first, s.result], s.files)
  }

  /** The whole `/run` handler, as a function of the task, the oracle and
      the working directory before the request. */
  function Pipeline(files: set<string>, task: string, o: Oracle): (t: Trace)
    // at most two executions, and the prompts follow the executions
    ensures |t.results| <= 2 && 1 <= |t.prompts| <= 2 && t.prompts[0] == task
    ensures forall k :: 0 <= k < |t.results| ==> WellFormed(t.results[k])
    // the gate: a refusal answers 400 without executing anything
    ensures t.response.Refused400? <==> Refuses(o.firstReply)
    ensures t.response.Refused400? ==> t.results == [] && t.prompts == [task] && t.files == files
    ensures Refuses(o.firstReply) ==> t.response == Refused400(RefusalDetail(o.firstReply))
    // a first reply that raises or does not parse ends in the catch-all
    ensures !Refuses(o.firstReply) && CallFails(o.firstReply) ==>
      t.response == Caught(FailureMessage(o.firstReply)) && t.prompts == [task]
    // an unrefused, parsed first reply is executed once, on the first oracle
    ensures t.results == [] <==> !FirstRuns(o)
    ensures !FirstRuns(o) ==> t.files == files
    ensures FirstRuns(o) ==> t.results[0] == FirstStep(files, o).result
    // a retry happens exactly when the first result failed
    ensures |t.prompts| == 2 <==> |t.results| >= 1 && Failed(t.results[0])
    ensures |t.prompts| == 2 ==> t.prompts[1] == RetryPrompt(task, FailureSignal(t.results[0]))
    // a second execution needs a failed first one
    ensures |t.results| == 2 ==> Failed(t.results[0])
    // a clean first result is the answer, after exactly one execution
    ensures FirstRuns(o) && !Failed(FirstStep(files, o).result) ==>
      t == Trace(Ok(FirstStep(files, o).result), [task], [FirstStep(files, o).result], FirstStep(files, o).files)
    // the last result decides the answer
    ensures t.response.Ok? ==>
      |t.results| >= 1 && t.response.result == t.results[|t.results| - 1] && !Failed(t.response.result)
    ensures t.response.Failed500? ==>
      |t.results| == 2 && Failed(t.results[1]) && t.response.detail == "Task failed: " + t.results[1].error
    ensures |t.results| == 2 ==> t.response == Finish(t.results[1])
    ensures |t.results| == 1 && !t.response.Caught? ==> t.response == Ok(t.results[0])
    ensures |t.results| == 1 && !Failed(t.results[0]) ==> t.response == Ok(t.results[0])
    // the retry: executed on the retry oracle in the directory the first run left
    ensures |t.results| == 2 ==>
      FirstRuns(o) && !CallFails(o.retryReply) &&
      t.results[1] == Executed(FirstStep(files, o).files, RequestOf(o.retryReply.content), o.retryRun).result &&
      t.files == Executed(FirstStep(files, o).files, RequestOf(o.retryReply.content), o.retryRun).files
    ensures |t.results| == 1 ==> t.files == FirstStep(files, o).files
    ensures |t.results| == 1 && Failed(t.results[0]) ==>
      CallFails(o.retryReply) && t.response == Caught(FailureMessage(o.retryReply))
    // the executor creates or removes only the two temporary files
    ensures t.files - files <= {TempFile(o.firstRun), TempFile(o.retryRun)}
    ensures files - t.files <= {TempFile(o.firstRun), TempFile(o.retryRun)}
  {
    match o.firstReply
    case CallRaised(msg) => Trace(Caught(msg), [task], [], files)
    case Answered(refusal, content) =>
      if Truthy(refusal) then
        Trace(Refused400("Task refused by LLM: " + refusal.value), [task], [], files)
      else
        match content
        case Unparsable(msg) => Trace(Caught(msg), [task], [], files)
        case Code(language, code) =>
          if RefusalInCode(code) then
            Trace(Refused400("Task refused by LLM: " + code), [task], [], files)
          else
            var s := Executed(files, Request(language, code), o.firstRun);
            var r := s.result;
            if r.status == Error then
              Retry(s.files, task, r.error, o, r)
            else if Suspicious(r) then
              Retry(s.files, task, r.output.value, o, r)
            else
              Trace(Finish(r), [task], [r], s.files)
  }

  /** A refusal in any letter case inside the first reply's code answers 400
      and executes nothing, whatever the rest of the oracle says. */
  lemma RefusalShortCircuits(files: set<string>, task: string, o: Oracle, t: string, i: int)
    requires o.firstReply.Answered? && o.firstReply.content.Code?
    requires OccursAt(o.firstReply.content.code, t, i) && Lower(t) == "refusal"
    ensures Pipeline(files, task, o).response.Refused400?
    ensures Pipeline(files, task, o).results == [] && Pipeline(files, task, o).files == files
  {
    RefusalAnyCase(o.firstReply.content.code, t, i);
  }

  /** The retry reply is not gated: after a failed first run, a retry reply
      whose refusal field is set and whose code says "refusal" is executed. */
  lemma RetryIsNotGated(files: set<string>, task: string, o: Oracle, reason: string, language: string, code: string)
    requires Pipeline(files, task, o).results != [] && Failed(Pipeline(files, task, o).results[0])
    requires o.retryReply == Answered(Some(reason), Code(language, code))
    ensures |Pipeline(files, task, o).results| == 2
    ensures !Pipeline(files, task, o).response.Refused400?
  {
  }

  /** The `/run` handler, statement by statement over a working directory
      and the oracle. */
  method RunTask(ws: Workspace, task: string, o: Oracle) returns (response: Response, prompts: seq<string>, results: seq<ExecResult>)
    modifies ws
    ensures Trace(response, prompts, results, ws.files) == Pipeline(old(ws.files), task, o)
    ensures |results| <= 2
  {
    prompts, results := [task], [];
    if o.firstReply.CallRaised? {
      response := Caught(o.firstReply.message);
      return;
    }
    var message := o.firstReply;
    if Truthy(message.refusal) {
      response := Refused400("Task refused by LLM: " + message.refusal.value);
      return;
    }
    if message.content.Unparsable? {
      response := Caught(message.content.message);
      return;
    }
    var output := message.content;
    if RefusalInCode(output.code) {
      response := Refused400("Task refused by LLM: " + output.code);
      return;
    }
    var result := ws.ExecuteCode(Request(output.language, output.code), o.firstRun);
    results := results + [result];
    if result.status == Error {
      prompts := prompts + [RetryPrompt(task, result.error)];
      if o.retryReply.CallRaised? {
        response := Caught(o.retryReply.message);
        return;
      }
      if o.retryReply.content.Unparsable? {
        response := Caught(o.retryReply.content.message);
        return;
      }
      result := ws.ExecuteCode(Request(o.retryReply.content.language, o.retryReply.content.code), o.retryRun);
      results := results + [result];
    } else if Suspicious(result) {
      prompts := prompts + [RetryPrompt(task, result.output.value)];
      if o.retryReply.CallRaised? {
        response := Caught(o.retryReply.message);
        return;
      }
      if o.retryReply.content.Unparsable? {
        response := Caught(o.retryReply.content.message);
        return;
      }
      result := ws.ExecuteCode(Request(o.retryReply.content.language, o.retryReply.content.code), o.retryRun);
      results := results + [result];
    }
    if Failed(result) {
      response := Failed500("Task failed: " + result.error);
      return;
    }
    response := Ok(result);
  }
}
