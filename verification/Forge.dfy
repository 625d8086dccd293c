/** One bounded execution: the output sink, and the adapter that decides whether and how an executor ran. */
module Forge {
  import opened Wrappers
  import opened Text
  import opened HashChain

  datatype Invocation = Invocation(
    invocationId: Text, slotId: Text, capability: nat, layer: nat, inputSha256: Text, payloadBytes: nat, permissions: seq<Text>)

  datatype ForgeRequest = ForgeRequest(invocation: Invocation, payload: Text, maxWallTimeMs: u64, maxOutputBytes: u64)

  datatype ForgeStatus =
    | Completed | InvalidRequest | InvocationRejected | InputMismatch | ExecutorError | Timeout | OutputBudget | ExecutionFailed

  /** What an executor did: the chunks it wrote, what it reported, and how long it took. A throw is None. */
  datatype Report = Report(chunks: seq<Text>, completed: bool, exitCode: int, reportedWallMs: u64, measuredWallMs: u64)

  datatype ForgeResult = ForgeResult(
    status: ForgeStatus, exitCode: int, wallTimeMs: u64, captured: Text, observedBytes: u64, truncated: bool, ran: bool)

  function SaturatingAdd(a: u64, b: nat): u64 {
    if a + b > MAX_U64 then MAX_U64 else a + b
  }

  // ----- the output sink -----

  function Concat(chunks: seq<Text>): Text {
    if chunks == [] then [] else Concat(chunks[..|chunks| - 1]) + chunks[|chunks| - 1]
  }

  function Prefix(t: Text, n: nat): Text {
    if |t| <= n then t else t[..n]
  }

  class ForgeOutputSink {
    const maxBytes: u64
    var captured: Text
    var observedBytes: u64
    var truncated: bool
    ghost var written: Text

    /** The sink holds the longest prefix of everything written that fits, and knows whether that is all of it. */
    ghost predicate Valid()
      reads this
    {
      && captured == Prefix(written, maxBytes)
      && (truncated <==> |written| > maxBytes)
      && observedBytes == SaturatingAdd(0, |written|)
    }

    constructor (maxBytes: u64)
      ensures Valid() && this.maxBytes == maxBytes && written == []
    {
      this.maxBytes := maxBytes;
      captured, observedBytes, truncated, written := [], 0, false, [];
    }

    method Write(chunk: Text) returns (ok: bool)
      requires Valid()
      modifies this
      ensures Valid() && written == old(written) + chunk
      ensures ok <==> |written| <= maxBytes
    {
      written := written + chunk;
      observedBytes := SaturatingAdd(observedBytes, |chunk|);
      if chunk == [] {
        assert written == old(written);
        return !truncated;
      }
      var room := if maxBytes > |captured| then maxBytes - |captured| else 0;
      var take := if room < |chunk| then room else |chunk|;
      if take > 0 {
        captured := captured + chunk[..take];
      }
      if take != |chunk| {
        truncated := true;
        return false;
      }
      return true;
    }
  }

  // ----- the adapter -----

  /** What the adapter refuses before an executor may run. */
  function AdmitExecution(sha: Hash, q: ForgeRequest, resolves: bool, executorPresent: bool): Option<ForgeStatus> {
    if q.maxWallTimeMs == 0 || q.maxOutputBytes == 0 then Some(InvalidRequest)
    else if |q.payload| != q.invocation.payloadBytes || sha(q.payload) != q.invocation.inputSha256 then Some(InputMismatch)
    else if !resolves then Some(InvocationRejected)
    else if !executorPresent then Some(ExecutorError)
    else None
  }

  function Longer(a: u64, b: u64): u64 {
    if a < b then b else a
  }

  /** The first limit the finished execution broke, in the order the adapter tests them. */
  function Judge(q: ForgeRequest, r: Report, wallMs: u64, truncated: bool): ForgeStatus {
    if wallMs > q.maxWallTimeMs then Timeout
    else if truncated then OutputBudget
    else if !r.completed then ExecutorError
    else if r.exitCode != 0 then ExecutionFailed
    else Completed
  }

  function Unran(status: ForgeStatus): ForgeResult {
    ForgeResult(status, -1, 0, [], 0, false, false)
  }

  /**
   The executor runs only for a request whose payload is the one the invocation names, inside a resolved slot.
   The run counts as completed exactly when it finished cleanly within its time and wrote no more than its output
   budget; then everything it wrote was captured.
   */
  method Execute(sha: Hash, q: ForgeRequest, resolves: bool, executorPresent: bool, outcome: Option<Report>) returns (r: ForgeResult)
    ensures r.ran <==> AdmitExecution(sha, q, resolves, executorPresent).None?
    ensures r.ran ==> resolves && sha(q.payload) == q.invocation.inputSha256 && |q.payload| == q.invocation.payloadBytes
    ensures !r.ran ==> r == Unran(AdmitExecution(sha, q, resolves, executorPresent).value)
    ensures r.ran && outcome.None? ==> r.status == ExecutorError
    ensures r.status == Completed <==>
              && r.ran && outcome.Some? && outcome.value.completed && outcome.value.exitCode == 0
              && Longer(outcome.value.measuredWallMs, outcome.value.reportedWallMs) <= q.maxWallTimeMs
              && |Concat(outcome.value.chunks)| <= q.maxOutputBytes
    ensures r.ran && outcome.Some? ==> r.captured == Prefix(Concat(outcome.value.chunks), q.maxOutputBytes)
    ensures r.status == Completed ==> r.captured == Concat(outcome.value.chunks) && !r.truncated
  {
    var refused := AdmitExecution(sha, q, resolves, executorPresent);
    if refused.Some? {
      return Unran(refused.value);
    }
    if outcome.None? {
      return Unran(ExecutorError).(ran := true);
    }
    var report := outcome.value;
    var sink := new ForgeOutputSink(q.maxOutputBytes);
    for i := 0 to |report.chunks|
      invariant fresh(sink) && sink.Valid() && sink.maxBytes == q.maxOutputBytes
      invariant sink.written == Concat(report.chunks[..i])
    {
      assert report.chunks[..i + 1][..i] == report.chunks[..i];
      var ok := sink.Write(report.chunks[i]);
    }
    assert report.chunks[..|report.chunks|] == report.chunks;
    var wallMs := Longer(report.measuredWallMs, report.reportedWallMs);
    return ForgeResult(Judge(q, report, wallMs, sink.truncated), report.exitCode, wallMs, sink.captured, sink.observedBytes,
                       sink.truncated, true);
  }
}
