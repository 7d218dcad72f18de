/**
 * The audit log (summary.json): one entry per state-changing call, keyed by a counter
 * that is reloaded as the number of entries already in the file.
 */
module AuditLog {
  import opened Tables

  /** The method a log entry records, with the parameters it was called with. */
  datatype Call =
    | InitializeScopeCall(batchSize: int)
    | SingleRoundPredictCall(roundNum: int, batchSize: int)
    | BulkTrainingCall(trainingDf: ObsTable, roundNum: int, batchSize: int, priorityLimiting: bool, prioritySetting: bool)
    | SimulateRunCall(trainingDf: ObsTable, batchSize: int, maxRounds: int)

  datatype LogEntry = LogEntry(call: Call)

  type Log = map<nat, LogEntry>

  /** The keys 0, 1, ..., n - 1. */
  function Range(n: nat): (r: set<nat>)
    ensures forall k: nat :: k in r <==> k < n
    ensures |r| == n
  {
    if n == 0 then {} else Range(n - 1) + {n - 1}
  }

  /** The log's keys are exactly 0, 1, ..., n - 1. */
  predicate Contiguous(log: Log, n: nat) {
    log.Keys == Range(n)
  }

  /** A log keyed 0 .. n - 1 holds n entries, so the counter reloaded as its size is the
      key after the last entry. */
  lemma ContiguousSize(log: Log, n: nat)
    requires Contiguous(log, n)
    ensures |log| == n && n !in log
  {
    assert |log| == |log.Keys|;
  }

  /** Storing under the counter on a contiguous log adds exactly one entry, overwrites
      none, and leaves the log contiguous up to the incremented counter. */
  lemma AppendExtends(log: Log, n: nat, e: LogEntry)
    requires Contiguous(log, n)
    ensures n !in log
    ensures Contiguous(log[n := e], n + 1)
    ensures |log[n := e]| == |log| + 1 == n + 1
    ensures forall k :: k in log ==> log[n := e][k] == log[k]
  {
    ContiguousSize(log, n);
    assert log[n := e].Keys == Range(n) + {n} == Range(n + 1);
    assert |log[n := e]| == |log[n := e].Keys|;
  }
}
