/** The batch modes of the `request` package and their deadline record. */
module Concurrency {
  import opened Request
  import opened Batch

  /** How a batch runs: all requests at once, or one after another. */
  datatype ConcurrencyMode = SelectAll | JoinAll

  /** The constructor gives the concurrent mode. */
  function New(): (m: ConcurrencyMode)
    ensures m == SelectAll
  {
    SelectAll
  }

  /** `__str__`: the Python-side constant name. */
  function Name(m: ConcurrencyMode): string {
    match m
    case SelectAll => "SELECT_ALL"
    case JoinAll => "JOIN_ALL"
  }

  /** `__repr__`: the name qualified by the class; each text belongs to
      exactly one mode, so distinct modes print differently. */
  function Repr(m: ConcurrencyMode): (r: string)
    ensures |r| > 16 && r[..16] == "ConcurrencyMode." && r[16..] == Name(m)
    ensures r == "ConcurrencyMode.SELECT_ALL" <==> m == SelectAll
    ensures r == "ConcurrencyMode.JOIN_ALL" <==> m == JoinAll
  {
    "ConcurrencyMode." + Name(m)
  }

  /** Distinct modes have distinct names. */
  lemma NamesDistinct(m: ConcurrencyMode, n: ConcurrencyMode)
    ensures Name(m) == Name(n) <==> m == n
  {
    if m != n {
      assert Name(m)[0] != Name(n)[0];
    }
  }

  /** The record of a request that missed the deadline here: only a status
      of "0"; no response, exception or meta. */
  const DeadlineRecord: Record := map["http_status" := Plain("0")]

  /** `execute_with_select_all`: all requests at once under the batch
      duration; one result per request, in order. A late request's result
      carries only its status, and the batch ends by the deadline. */
  function ExecuteWithSelectAll(runs: seq<Run>, totalMs: nat): (r: seq<Record>)
    ensures |r| == |runs|
    ensures forall i :: 0 <= i < |runs| ==>
      (InTime(runs[i], totalMs) ==> r[i] == runs[i].record) && (!InTime(runs[i], totalMs) ==> r[i] == DeadlineRecord)
    ensures (forall i :: 0 <= i < |runs| ==> runs[i].record.Keys == RecordKeys) ==>
      forall i :: 0 <= i < |r| ==> ("response" in r[i] <==> InTime(runs[i], totalMs))
  {
    CollectAll(runs, totalMs, DeadlineRecord)
  }

  /** `execute_with_join_all`: the requests one after another, each under its
      own deadline of the batch duration. The results are those of the
      concurrent mode, so a late request again has no response entry; the
      elapsed time is at most one duration per request. */
  method ExecuteWithJoinAll(runs: seq<Run>, totalMs: nat) returns (results: seq<Record>, elapsedMs: nat)
    ensures results == ExecuteWithSelectAll(runs, totalMs)
    ensures elapsedMs == SequentialElapsed(runs, totalMs) && elapsedMs <= |runs| * totalMs
    ensures (forall i :: 0 <= i < |runs| ==> runs[i].record.Keys == RecordKeys) ==>
      forall i :: 0 <= i < |results| ==> ("response" in results[i] <==> InTime(runs[i], totalMs))
  {
    results, elapsedMs := RunInSequence(runs, totalMs, DeadlineRecord);
    SequentialElapsedBound(runs, totalMs);
  }
}
