/** How a batch of requests is gathered under a batch duration: concurrently
    (every request at once) or sequentially (one after another, each under
    its own deadline), and how long each takes. */
module Batch {
  import opened Request

  /** One request of a batch: how long its executor would take, in
      milliseconds, and the record it would return. */
  datatype Run = Run(durationMs: nat, record: Record)

  /** `tokio::time::timeout`: the executor wins when it is ready by the deadline. */
  predicate InTime(run: Run, totalMs: nat) {
    run.durationMs <= totalMs
  }

  function Min(a: nat, b: nat): nat {
    if a <= b then a else b
  }

  /** One result per request, in order: the executor's record when it
      finished in time, the deadline record otherwise. */
  function CollectAll(runs: seq<Run>, totalMs: nat, missed: Record): (r: seq<Record>)
    ensures |r| == |runs|
    ensures forall i :: 0 <= i < |runs| ==> r[i] == (if InTime(runs[i], totalMs) then runs[i].record else missed)
  {
    if runs == [] then []
    else CollectAll(runs[..|runs| - 1], totalMs, missed)
         + [if InTime(runs[|runs| - 1], totalMs) then runs[|runs| - 1].record else missed]
  }

  /** Wall time of the concurrent batch: every request starts at once and
      each ends at its own completion or at the deadline. */
  function ConcurrentElapsed(runs: seq<Run>, totalMs: nat): (t: nat)
    ensures t <= totalMs
    ensures forall i :: 0 <= i < |runs| ==> Min(runs[i].durationMs, totalMs) <= t
    ensures runs == [] ==> t == 0
    ensures runs != [] ==> exists i :: 0 <= i < |runs| && t == Min(runs[i].durationMs, totalMs)
  {
    if runs == [] then 0
    else
      var rest := ConcurrentElapsed(runs[1..], totalMs);
      var first := Min(runs[0].durationMs, totalMs);
      if first <= rest && runs[1..] != [] then
        var i :| 0 <= i < |runs[1..]| && rest == Min(runs[1..][i].durationMs, totalMs);
        assert runs[1..][i] == runs[i + 1];
        rest
      else first
  }

  /** Wall time of the sequential batch: each request gets a deadline of
      its own, starting when the previous one ended. */
  function SequentialElapsed(runs: seq<Run>, totalMs: nat): nat {
    if runs == [] then 0
    else SequentialElapsed(runs[..|runs| - 1], totalMs) + Min(runs[|runs| - 1].durationMs, totalMs)
  }

  /** Each request adds at most one deadline to the sequential batch. */
  lemma {:induction false} SequentialElapsedBound(runs: seq<Run>, totalMs: nat)
    ensures SequentialElapsed(runs, totalMs) <= |runs| * totalMs
  {
    if runs != [] {
      SequentialElapsedBound(runs[..|runs| - 1], totalMs);
    }
  }

  /** The sequential batch is not bounded by the batch duration: two
      requests that each take the whole duration both finish, after twice it. */
  lemma SequentialBatchOverruns(record: Record, totalMs: nat)
    requires totalMs > 0
    ensures var runs := [Run(totalMs, record), Run(totalMs, record)];
      && CollectAll(runs, totalMs, map[]) == [record, record]
      && SequentialElapsed(runs, totalMs) == 2 * totalMs
      && ConcurrentElapsed(runs, totalMs) == totalMs
  {
    var runs := [Run(totalMs, record), Run(totalMs, record)];
    var one := [Run(totalMs, record)];
    assert runs[..|runs| - 1] == one && one[..0] == [];
    assert SequentialElapsed(one, totalMs) == totalMs;
  }

  /** The sequential loop: each request is awaited in turn under its own
      deadline. */
  method RunInSequence(runs: seq<Run>, totalMs: nat, missed: Record) returns (results: seq<Record>, elapsedMs: nat)
    ensures results == CollectAll(runs, totalMs, missed)
    ensures elapsedMs == SequentialElapsed(runs, totalMs)
  {
    results := [];
    elapsedMs := 0;
    for i := 0 to |runs|
      invariant results == CollectAll(runs[..i], totalMs, missed)
      invariant elapsedMs == SequentialElapsed(runs[..i], totalMs)
    {
      assert runs[..i + 1][..i] == runs[..i];
      if InTime(runs[i], totalMs) {
        results := results + [runs[i].record];
        elapsedMs := elapsedMs + runs[i].durationMs;
      } else {
        results := results + [missed];
        elapsedMs := elapsedMs + totalMs;
      }
    }
    assert runs[..|runs|] == runs;
  }
}
