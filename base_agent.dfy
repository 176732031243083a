/** The bookkeeping every agent inherits: an append-only execution history
    and the statistics derived from it. Timestamps and the string forms of
    the inputs and outputs are supplied by the caller. */
module BaseAgent {
  import opened Wrappers

  /** One entry of `execution_history`; the `success` flag is the variant. */
  datatype ExecutionRecord =
    | SuccessRecord(agent: string, timestamp: string, inputSize: nat, outputSize: nat)
    | ErrorRecord(agent: string, timestamp: string, inputSize: nat, error: string)

  datatype ExecutionStats = ExecutionStats(
    agent: string,
    totalExecutions: nat,
    successfulExecutions: nat,
    successRate: real,
    lastExecution: Option<string>)

  /** `sum(1 for record in history if record["success"])` */
  function Successes(h: seq<ExecutionRecord>): (k: nat)
    ensures k <= |h|
  {
    if |h| == 0 then 0
    else Successes(h[..|h| - 1]) + (if h[|h| - 1].SuccessRecord? then 1 else 0)
  }

  lemma SuccessesSnoc(h: seq<ExecutionRecord>, rec: ExecutionRecord)
    ensures Successes(h + [rec]) == Successes(h) + (if rec.SuccessRecord? then 1 else 0)
  {
    assert (h + [rec])[..|h|] == h;
  }

  /** Every record counts as a success exactly when all of them succeeded. */
  lemma {:induction false} AllSucceededIff(h: seq<ExecutionRecord>)
    ensures Successes(h) == |h| <==> forall i :: 0 <= i < |h| ==> h[i].SuccessRecord?
  {
    if |h| > 0 {
      var prev := h[..|h| - 1];
      AllSucceededIff(prev);
      assert forall i :: 0 <= i < |prev| ==> prev[i] == h[i];
    }
  }

  /** No successes exactly when every record is an error. */
  lemma {:induction false} NoneSucceededIff(h: seq<ExecutionRecord>)
    ensures Successes(h) == 0 <==> forall i :: 0 <= i < |h| ==> h[i].ErrorRecord?
  {
    if |h| > 0 {
      var prev := h[..|h| - 1];
      NoneSucceededIff(prev);
      assert forall i :: 0 <= i < |prev| ==> prev[i] == h[i];
    }
  }

  class Agent {
    const name: string
    var history: seq<ExecutionRecord>

    constructor (name: string)
      ensures this.name == name && history == []
    {
      this.name := name;
      history := [];
    }

    /** `log_execution`: appends one success record and nothing else. */
    method LogExecution(timestamp: string, inputText: string, outputText: string)
      modifies this
      ensures history == old(history) + [SuccessRecord(name, timestamp, |inputText|, |outputText|)]
      ensures Successes(history) == Successes(old(history)) + 1
    {
      SuccessesSnoc(history, SuccessRecord(name, timestamp, |inputText|, |outputText|));
      history := history + [SuccessRecord(name, timestamp, |inputText|, |outputText|)];
    }

    /** `log_error`: appends one failure record carrying the error text. */
    method LogError(timestamp: string, inputText: string, error: string)
      modifies this
      ensures history == old(history) + [ErrorRecord(name, timestamp, |inputText|, error)]
      ensures Successes(history) == Successes(old(history))
    {
      SuccessesSnoc(history, ErrorRecord(name, timestamp, |inputText|, error));
      history := history + [ErrorRecord(name, timestamp, |inputText|, error)];
    }

    /** `get_execution_stats` */
    function GetExecutionStats(): (s: ExecutionStats)
      reads this
      ensures s.agent == name && s.totalExecutions == |history|
      ensures s.successfulExecutions == Successes(history) <= s.totalExecutions
      ensures 0.0 <= s.successRate <= 1.0
      ensures |history| == 0 ==> s.successRate == 0.0 && s.lastExecution == None
      ensures |history| > 0 ==>
        s.successRate * (|history| as real) == Successes(history) as real
        && s.lastExecution == Some(history[|history| - 1].timestamp)
    {
      var total := |history|;
      var ok := Successes(history);
      var rate := if total > 0 then ok as real / total as real else 0.0;
      if total > 0 then
        RateFacts(ok, total);
        ExecutionStats(name, total, ok, rate, Some(history[|history| - 1].timestamp))
      else
        ExecutionStats(name, total, ok, rate, None)
    }
  }

  /** The rate of `ok` successes out of `total` executions. */
  lemma RateFacts(ok: nat, total: nat)
    requires 0 < total && ok <= total
    ensures 0.0 <= ok as real / total as real <= 1.0
    ensures (ok as real / total as real) * (total as real) == ok as real
  {
  }

  /** The rate is 1 exactly when no execution failed. */
  lemma FullRateIff(a: Agent)
    requires |a.history| > 0
    ensures a.GetExecutionStats().successRate == 1.0 <==>
      forall i :: 0 <= i < |a.history| ==> a.history[i].SuccessRecord?
  {
    AllSucceededIff(a.history);
  }
}
