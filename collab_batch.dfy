/**
 * The batch tools `task_batch` and `task_send_batch`: each runs one
 * collaboration call per operation (spawn_agent and send_input
 * respectively), in order, records one result per attempted operation, and
 * with `fail_fast` stops right after the first failed result.
 *
 * The collaboration call made for an operation is an oracle
 * `run(callId, op)`: `Ok(x)` is the agent id (spawn) or submission id (send)
 * parsed from its output, `Err(e)` the text of the call's error or of the
 * failure to parse its output.
 */
module CollabBatch {
  import opened Wrappers
  import opened Text

  datatype BatchOperation = BatchOperation(
    id: Option<string>,
    /** `params.agent_id` when it is a string. */
    agentIdParam: Option<string>,
    /** The rest of `params`, passed to the call untouched. */
    params: seq<(string, string)>)

  datatype BatchArgs = BatchArgs(operations: seq<BatchOperation>, failFast: bool)

  datatype BatchSummary = BatchSummary(total: nat, succeeded: nat, failed: nat)

  datatype TaskBatchOperationResult = TaskBatchOperationResult(
    id: Option<string>, success: bool, agentId: Option<string>, error: Option<string>)

  datatype TaskSendBatchOperationResult = TaskSendBatchOperationResult(
    id: Option<string>, success: bool, agentId: Option<string>, submissionId: Option<string>, error: Option<string>)

  /** `parse_batch_args`: `fail_fast` defaults to false; the operations must not be empty. */
  function ParseBatchArgs(operations: seq<BatchOperation>, failFast: Option<bool>): (r: Result<BatchArgs, string>)
    ensures r.Err? <==> operations == []
    ensures r.Err? ==> r.error == "operations must not be empty"
    ensures r.Ok? ==> r.value.operations == operations && r.value.failFast == (failFast == Some(true))
  {
    if operations == [] then Err("operations must not be empty")
    else Ok(BatchArgs(operations, failFast.UnwrapOr(false)))
  }

  /** `summarize`: `failed` is the saturating difference. */
  function Summarize(total: nat, succeeded: nat): (s: BatchSummary)
    ensures s.total == total && s.succeeded == succeeded
    ensures succeeded <= total ==> s.succeeded + s.failed == s.total
    ensures succeeded > total ==> s.failed == 0
  {
    BatchSummary(total, succeeded, if succeeded <= total then total - succeeded else 0)
  }

  /** The call id operation `index` runs under. */
  function OperationCallId(callId: string, index: nat): (r: string)
    ensures StartsWith(r, callId + ":")
  {
    callId + ":" + NatToString(index)
  }

  /** Distinct operations of one batch run under distinct call ids. */
  lemma OperationCallIdInjective(callId: string, i: nat, j: nat)
    requires OperationCallId(callId, i) == OperationCallId(callId, j)
    ensures i == j
  {
    var p := callId + ":";
    assert OperationCallId(callId, i)[|p|..] == NatToString(i);
    assert OperationCallId(callId, j)[|p|..] == NatToString(j);
    NatToStringInjective(i, j);
  }

  /** What each operation's call returns when run under its own call id. */
  function Outcomes(callId: string, ops: seq<BatchOperation>, run: (string, BatchOperation) -> Result<string, string>)
    : (outs: seq<Result<string, string>>)
    ensures |outs| == |ops| && forall i :: 0 <= i < |ops| ==> outs[i] == run(OperationCallId(callId, i), ops[i])
  {
    seq(|ops|, i requires 0 <= i < |ops| => run(OperationCallId(callId, i), ops[i]))
  }

  /**
   * How many operations are attempted: all of them, or with fail-fast those
   * up to and including the first failure.
   */
  function Attempted(outs: seq<Result<string, string>>, failFast: bool): (n: nat)
    ensures n <= |outs|
  {
    if outs == [] then 0
    else if failFast && outs[0].Err? then 1
    else 1 + Attempted(outs[1..], failFast)
  }

  /** Without fail-fast, every operation is attempted. */
  lemma {:induction false} AttemptedAll(outs: seq<Result<string, string>>)
    ensures Attempted(outs, false) == |outs|
  {
    if outs != [] {
      AttemptedAll(outs[1..]);
    }
  }

  /**
   * With fail-fast, every attempted operation but the last succeeded, and the
   * batch stops early only after a failure.
   */
  lemma {:induction false} AttemptedFailFast(outs: seq<Result<string, string>>)
    ensures forall i :: 0 <= i < Attempted(outs, true) - 1 ==> outs[i].Ok?
    ensures Attempted(outs, true) < |outs| ==> Attempted(outs, true) > 0 && outs[Attempted(outs, true) - 1].Err?
    ensures (forall i :: 0 <= i < |outs| ==> outs[i].Ok?) ==> Attempted(outs, true) == |outs|
  {
    if outs != [] && outs[0].Ok? {
      AttemptedFailFast(outs[1..]);
      forall i | 0 <= i < Attempted(outs, true) - 1
        ensures outs[i].Ok?
      {
        if i > 0 {
          assert outs[1..][i - 1] == outs[i];
        }
      }
      if (forall i :: 0 <= i < |outs| ==> outs[i].Ok?) {
        assert forall i :: 0 <= i < |outs[1..]| ==> outs[1..][i] == outs[i + 1];
      }
    }
  }

  /** After attempt `k`, a failure under fail-fast ends the batch; anything else leads to attempt `k + 1` when there is one. */
  lemma {:induction false} AttemptedStep(outs: seq<Result<string, string>>, failFast: bool, k: nat)
    requires k < Attempted(outs, failFast)
    ensures failFast && outs[k].Err? ==> Attempted(outs, failFast) == k + 1
    ensures !(failFast && outs[k].Err?) && k + 1 < |outs| ==> k + 1 < Attempted(outs, failFast)
  {
    if k > 0 {
      assert !(failFast && outs[0].Err?);
      AttemptedStep(outs[1..], failFast, k - 1);
      assert outs[1..][k - 1] == outs[k];
    }
  }

  lemma {:induction false} AttemptedPositive(outs: seq<Result<string, string>>, failFast: bool)
    ensures outs != [] ==> Attempted(outs, failFast) > 0
    ensures |outs| > 0 && !(failFast && outs[0].Err?) && |outs| > 1 ==> Attempted(outs, failFast) > 1
  {
    if |outs| > 1 && !(failFast && outs[0].Err?) {
      AttemptedPositive(outs[1..], failFast);
    }
  }

  /** The result entry of one spawn operation. */
  function SpawnEntry(op: BatchOperation, out: Result<string, string>): TaskBatchOperationResult {
    match out
    case Ok(agentId) => TaskBatchOperationResult(op.id, true, Some(agentId), None)
    case Err(e) => TaskBatchOperationResult(op.id, false, None, Some(e))
  }

  /** The result entry of one send operation: it always echoes `params.agent_id`. */
  function SendEntry(op: BatchOperation, out: Result<string, string>): TaskSendBatchOperationResult {
    match out
    case Ok(submissionId) => TaskSendBatchOperationResult(op.id, true, op.agentIdParam, Some(submissionId), None)
    case Err(e) => TaskSendBatchOperationResult(op.id, false, op.agentIdParam, None, Some(e))
  }

  function CountSpawnSucceeded(results: seq<TaskBatchOperationResult>): (n: nat)
    ensures n <= |results|
    ensures n == |results| <==> forall i :: 0 <= i < |results| ==> results[i].success
  {
    if results == [] then 0
    else
      var rest := CountSpawnSucceeded(results[1..]);
      assert forall i :: 0 < i < |results| ==> results[1..][i - 1] == results[i];
      (if results[0].success then 1 else 0) + rest
  }

  function CountSendSucceeded(results: seq<TaskSendBatchOperationResult>): (n: nat)
    ensures n <= |results|
    ensures n == |results| <==> forall i :: 0 <= i < |results| ==> results[i].success
  {
    if results == [] then 0
    else
      var rest := CountSendSucceeded(results[1..]);
      assert forall i :: 0 < i < |results| ==> results[1..][i - 1] == results[i];
      (if results[0].success then 1 else 0) + rest
  }

  /**
   * The loop of `handle_task_batch`: operation `i` spawns under call id
   * `"{call_id}:{i}"`, and its entry echoes the operation's id.
   */
  method RunTaskBatch(callId: string, args: BatchArgs, run: (string, BatchOperation) -> Result<string, string>)
    returns (results: seq<TaskBatchOperationResult>)
    ensures var outs := Outcomes(callId, args.operations, run);
      && |results| == Attempted(outs, args.failFast)
      && forall i :: 0 <= i < |results| ==> results[i] == SpawnEntry(args.operations[i], outs[i])
  {
    ghost var outs := Outcomes(callId, args.operations, run);
    var ops := args.operations;
    results := [];
    var index := 0;
    AttemptedPositive(outs, args.failFast);
    while index < |ops|
      invariant 0 <= index <= |ops|
      invariant |results| == index
      invariant index <= Attempted(outs, args.failFast)
      invariant index < |ops| ==> index < Attempted(outs, args.failFast)
      invariant forall i :: 0 <= i < index ==> results[i] == SpawnEntry(ops[i], outs[i])
    {
      var output := run(OperationCallId(callId, index), ops[index]);
      results := results + [SpawnEntry(ops[index], output)];
      AttemptedStep(outs, args.failFast, index);
      if output.Err? && args.failFast {
        break;
      }
      index := index + 1;
    }
  }

  /** The loop of `handle_task_send_batch`, sending input under call id `"{call_id}:{i}"`. */
  method RunTaskSendBatch(callId: string, args: BatchArgs, run: (string, BatchOperation) -> Result<string, string>)
    returns (results: seq<TaskSendBatchOperationResult>)
    ensures var outs := Outcomes(callId, args.operations, run);
      && |results| == Attempted(outs, args.failFast)
      && forall i :: 0 <= i < |results| ==> results[i] == SendEntry(args.operations[i], outs[i])
  {
    ghost var outs := Outcomes(callId, args.operations, run);
    var ops := args.operations;
    results := [];
    var index := 0;
    AttemptedPositive(outs, args.failFast);
    while index < |ops|
      invariant 0 <= index <= |ops|
      invariant |results| == index
      invariant index <= Attempted(outs, args.failFast)
      invariant index < |ops| ==> index < Attempted(outs, args.failFast)
      invariant forall i :: 0 <= i < index ==> results[i] == SendEntry(ops[i], outs[i])
    {
      var output := run(OperationCallId(callId, index), ops[index]);
      results := results + [SendEntry(ops[index], output)];
      AttemptedStep(outs, args.failFast, index);
      if output.Err? && args.failFast {
        break;
      }
      index := index + 1;
    }
  }

  /**
   * `handle_task_batch`: the parsed arguments, the loop, the summary, and
   * success exactly when nothing failed.
   */
  method HandleTaskBatch(callId: string, operations: seq<BatchOperation>, failFast: Option<bool>,
                         run: (string, BatchOperation) -> Result<string, string>)
    returns (r: Result<(seq<TaskBatchOperationResult>, BatchSummary), string>, success: bool)
    ensures operations == [] ==> r == Err("operations must not be empty") && !success
    ensures operations != [] ==> r.Ok?
    ensures r.Ok? ==>
      var (results, summary) := r.value;
      && |results| == Attempted(Outcomes(callId, operations, run), failFast == Some(true))
      && (forall i :: 0 <= i < |results| ==> results[i] == SpawnEntry(operations[i], run(OperationCallId(callId, i), operations[i])))
      && summary == Summarize(|results|, CountSpawnSucceeded(results))
      && summary.succeeded + summary.failed == summary.total
      && (success <==> summary.failed == 0)
      && (success <==> forall i :: 0 <= i < |results| ==> results[i].success)
  {
    var args := ParseBatchArgs(operations, failFast);
    if args.Err? {
      return Err(args.error), false;
    }
    var results := RunTaskBatch(callId, args.value, run);
    var summary := Summarize(|results|, CountSpawnSucceeded(results));
    success := summary.failed == 0;
    r := Ok((results, summary));
  }

  /** `handle_task_send_batch`. */
  method HandleTaskSendBatch(callId: string, operations: seq<BatchOperation>, failFast: Option<bool>,
                             run: (string, BatchOperation) -> Result<string, string>)
    returns (r: Result<(seq<TaskSendBatchOperationResult>, BatchSummary), string>, success: bool)
    ensures operations == [] ==> r == Err("operations must not be empty") && !success
    ensures operations != [] ==> r.Ok?
    ensures r.Ok? ==>
      var (results, summary) := r.value;
      && |results| == Attempted(Outcomes(callId, operations, run), failFast == Some(true))
      && (forall i :: 0 <= i < |results| ==> results[i] == SendEntry(operations[i], run(OperationCallId(callId, i), operations[i])))
      && summary == Summarize(|results|, CountSendSucceeded(results))
      && summary.succeeded + summary.failed == summary.total
      && (success <==> summary.failed == 0)
      && (success <==> forall i :: 0 <= i < |results| ==> results[i].success)
  {
    var args := ParseBatchArgs(operations, failFast);
    if args.Err? {
      return Err(args.error), false;
    }
    var results := RunTaskSendBatch(callId, args.value, run);
    var summary := Summarize(|results|, CountSendSucceeded(results));
    success := summary.failed == 0;
    r := Ok((results, summary));
  }

  /**
   * A fail-fast send batch whose first operation fails reports one failed
   * entry and attempts nothing else.
   */
  lemma FailFastFirstFailure(callId: string, operations: seq<BatchOperation>,
                             run: (string, BatchOperation) -> Result<string, string>)
    requires operations != [] && run(OperationCallId(callId, 0), operations[0]).Err?
    ensures Attempted(Outcomes(callId, operations, run), true) == 1
    ensures var results := [SendEntry(operations[0], run(OperationCallId(callId, 0), operations[0]))];
      Summarize(|results|, CountSendSucceeded(results)) == BatchSummary(1, 0, 1)
  {
    var results := [SendEntry(operations[0], run(OperationCallId(callId, 0), operations[0]))];
    assert !results[0].success;
  }

  /** Dispatch by tool name. */
  datatype BatchTool = TaskBatch | TaskSendBatch

  function ParseBatchTool(toolName: string): (r: Result<BatchTool, string>)
    ensures r == Ok(TaskBatch) <==> toolName == "task_batch"
    ensures r == Ok(TaskSendBatch) <==> toolName == "task_send_batch"
    ensures r.Err? ==> r.error == "unsupported collab batch tool " + toolName
  {
    if toolName == "task_batch" then Ok(TaskBatch)
    else if toolName == "task_send_batch" then Ok(TaskSendBatch)
    else Err("unsupported collab batch tool " + toolName)
  }
}
