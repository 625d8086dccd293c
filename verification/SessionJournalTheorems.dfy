/** What every run of the transaction journal guarantees about its sessions and its recoveries. */
module SessionJournalTheorems {
  import opened Wrappers
  import opened Text
  import opened HashChain
  import opened Readings
  import opened SessionJournal
  import opened SessionJournalText
  import opened SessionJournalLaws
  import opened SessionJournalRuns

  /** The text reads back as the records that were written. */
  ghost predicate ReadsBack(sha: Hash, run: Run) {
    AllRead(ReadAll(sha, run.journal)) && Values(ReadAll(sha, run.journal)) == run.history
  }

  lemma ReadAllAppend(sha: Hash, journal: seq<Text>, line: Text)
    ensures ReadAll(sha, journal + [line]) == ReadAll(sha, journal) + [Deserialize(sha, Trimmed(line))]
  {
    assert (journal + [line])[..|journal|] == journal;
  }

  lemma ExtendReadsBack(sha: Hash, run: Run, call: JournalCall)
    requires |run.journal| == |run.history| == |run.log| < MAX_U64 && Tracks(sha, run) && ReadsBack(sha, run)
    ensures ReadsBack(sha, Extend(sha, run, call))
  {
    var s := ScanJournal(sha, run.journal);
    AppendIsPredicted(sha, run.journal, call.op, call.appends);
    if Perform(sha, run.journal, call.op, call.appends).status == Ok {
      var r := Sealed(sha, Decide(s, call.op).record);
      DecidedRecordIsGood(sha, s, call.op);
      RecordRoundTrip(sha, r);
      SerializedIsOneLine(r);
      ReadAllAppend(sha, run.journal, Serialize(r));
      ValuesAppend(ReadAll(sha, run.journal), r);
    }
  }

  lemma {:induction false} RunReadsBack(sha: Hash, calls: seq<JournalCall>)
    requires |calls| <= MAX_U64
    ensures ReadsBack(sha, RunJournal(sha, calls))
  {
    if calls != [] {
      RunReadsBack(sha, calls[..|calls| - 1]);
      RunTracksLineage(sha, calls[..|calls| - 1]);
      ExtendReadsBack(sha, RunJournal(sha, calls[..|calls| - 1]), calls[|calls| - 1]);
    }
  }

  /**
   After any run of begin, begin-child, finish and recover on an empty journal, with any appends failing: the text
   reads back as exactly the records written, the scan is sound, and a session is open exactly when it has begun and
   has not been closed.
   */
  lemma JournalLifecycle(sha: Hash, calls: seq<JournalCall>)
    requires |calls| <= MAX_U64
    ensures var run := RunJournal(sha, calls);
            && ReadsBack(sha, run) && Lawful(run.history) && ScanJournal(sha, run.journal).healthy
            && forall id :: id in ScanJournal(sha, run.journal).open <==> Begun(run.history, id) && !Closed(run.history, id)
  {
    RunTracksLineage(sha, calls);
    RunReadsBack(sha, calls);
    ScanDecidesLawfulness(sha, RunJournal(sha, calls).journal);
  }

  /** A journal the scan finds sound has digests for all its records, so operations can run on it. */
  lemma SoundIsRunning(sha: Hash, journal: seq<Text>)
    requires ScanJournal(sha, journal).healthy
    ensures Running(sha, journal, ScanJournal(sha, journal))
    ensures forall id | id in ScanJournal(sha, journal).open :: ValidRecord(sha, ScanJournal(sha, journal).open[id])
  {
    var lines, s := ReadAll(sha, journal), ScanJournal(sha, journal);
    ScanDecidesLawfulness(sha, journal);
    var h := Values(lines);
    forall i | 0 <= i < |h| ensures ValidRecord(sha, h[i]) {
      assert lines[i] == Some(h[i]);
      ReadAllAt(sha, journal, i);
    }
    forall id | id in s.open ensures ValidRecord(sha, s.open[id]) {
      var i :| 0 <= i < |h| && h[i].kind == Begin && h[i].sessionId == id;
      assert s.open[id] == h[i];
    }
  }

  lemma {:induction false} ReadAllAt(sha: Hash, journal: seq<Text>, i: nat)
    requires i < |journal|
    ensures ReadAll(sha, journal)[i] == Deserialize(sha, Trimmed(journal[i]))
    ensures ReadAll(sha, journal)[i].Some? ==> ValidRecord(sha, ReadAll(sha, journal)[i].value)
  {
    if i < |journal| - 1 {
      ReadAllAt(sha, journal[..|journal| - 1], i);
    }
  }

  // ----- recovery lineage -----

  /** The parent's BEGIN, its retry record and the child's BEGIN stand in this order. */
  ghost predicate ForwardHop(h: History, log: seq<JournalOp>, l: Lineage, b: nat, i: nat, j: nat)
    requires |h| == |log|
  {
    && b < i < j < |h|
    && SameContract(h[b], h[i]) && Reserves(h[i], l) && Starts(h, log, j, l)
  }

  lemma StartedLineageGoesForward(h: History, log: seq<JournalOp>, l: Lineage)
    requires |h| == |log| && Lawful(h) && Traced(h, log, l) && l.childStarted
    ensures exists b: nat, i: nat, j: nat :: ForwardHop(h, log, l, b, i, j)
  {
    var i :| 0 <= i < |h| && Reserves(h[i], l) && exists j | i < j < |h| :: Starts(h, log, j, l);
    var j :| i < j < |h| && Starts(h, log, j, l);
    LawfulPlaces(h, i);
    var b :| 0 <= b < i && SameContract(h[b], h[i]);
    assert ForwardHop(h, log, l, b, i, j);
  }

  /**
   In every reachable journal the recovery lineages form disjoint forward paths. No two share a parent, a child
   correlation or a child session; a started child's BEGIN comes after its parent's retry record, is the first BEGIN
   under the reserved correlation, and was written by begin_recovery_child naming exactly that parent and
   authorization; and as long as the child has not started, no BEGIN carries the reserved correlation.
   */
  lemma RecoveryLineagesAreForwardPaths(sha: Hash, calls: seq<JournalCall>, k: nat, m: nat)
    requires |calls| <= MAX_U64
    requires k < |ScanJournal(sha, RunJournal(sha, calls).journal).lineages|
    requires m < |ScanJournal(sha, RunJournal(sha, calls).journal).lineages|
    ensures var run := RunJournal(sha, calls);
            var l, n := ScanJournal(sha, run.journal).lineages[k], ScanJournal(sha, run.journal).lineages[m];
            && (k != m ==> Apart(l, n))
            && (l.childStarted ==> exists b: nat, i: nat, j: nat :: ForwardHop(run.history, run.log, l, b, i, j))
            && (!l.childStarted ==> !CorrelationUsed(run.history, l.childCorrelation))
  {
    var run := RunJournal(sha, calls);
    var ls := ScanJournal(sha, run.journal).lineages;
    RunTracksLineage(sha, calls);
    JournalLifecycle(sha, calls);
    assert Traced(run.history, run.log, ls[k]);
    if ls[k].childStarted {
      StartedLineageGoesForward(run.history, run.log, ls[k]);
    }
    if k < m {
      assert Apart(ls[k], ls[m]);
    } else if m < k {
      assert Apart(ls[m], ls[k]);
    }
  }

  /**
   While the child waits, an ordinary begin cannot take its correlation. Once the child has started the correlation is
   free again: a further session may begin under it, and the lineage keeps the child it has.
   */
  lemma ReservationEndsWithTheChild(s: Scan, b: BeginRequest, k: nat)
    requires s.healthy && s.next <= MAX_U64 && AllApart(s.lineages) && k < |s.lineages|
    requires ValidBegin(b) && b.sessionId !in s.seen && b.correlationId == s.lineages[k].childCorrelation
    ensures DecideBegin(s, b) == Refused(RecoveryNotAuthorized) <==> !s.lineages[k].childStarted
    ensures s.lineages[k].childStarted ==> DecideBegin(s, b).Write? && ScanRecord(s, DecideBegin(s, b).record).lineages == s.lineages
  {
    forall m | 0 <= m < |s.lineages| && m != k ensures s.lineages[m].childCorrelation != b.correlationId {
      assert if m < k then Apart(s.lineages[m], s.lineages[k]) else Apart(s.lineages[k], s.lineages[m]);
    }
    if s.lineages[k].childStarted {
      NoneAwaits(s.lineages, b.correlationId, b.sessionId);
    } else {
      assert Awaits(s.lineages[k], b.correlationId);
    }
  }
}
