/** Runs of the journal operations: every accepted append keeps the journal sound, and recovery lineage stays linear. */
module SessionJournalRuns {
  import opened Wrappers
  import opened Text
  import opened HashChain
  import opened SessionJournal
  import opened SessionJournalText
  import opened SessionJournalLaws

  // ----- one accepted operation -----

  lemma SealedKeepsCanonical(sha: Hash, r: Record)
    ensures CanonicalRecord(Sealed(sha, r)) == CanonicalRecord(r)
  {
  }

  lemma RetryStatusNamesChild(child: Text)
    requires ValidCorrelation(child)
    ensures ChildOf(RETRY_PREFIX + child) == Some(child)
  {
    assert (RETRY_PREFIX + child)[|RETRY_PREFIX|..] == child;
  }

  /** A record the operation decides to write is one the reader accepts, and one the scan lets follow. */
  lemma DecidedRecordIsGood(sha: Hash, s: Scan, op: JournalOp)
    requires s.next <= MAX_U64 && IsSha256(s.head) && Decide(s, op).Write?
    ensures s.healthy
    ensures var r := Sealed(sha, Decide(s, op).record);
            ValidRecord(sha, r) && ScanRecord(s, r).healthy
  {
    var r := Decide(s, op).record;
    SealedKeepsCanonical(sha, r);
    if op.Recover? && op.recovery.kind == RecoveryRetry {
      RetryStatusNamesChild(op.recovery.childCorrelationId);
    }
  }

  ghost predicate Running(sha: Hash, journal: seq<Text>, s: Scan) {
    ScanJournal(sha, journal) == s && s.healthy && IsSha256(s.head)
  }

  /** The journal gained the sealed record's line, and its scan is the one that record predicts. */
  ghost predicate Grew(sha: Hash, journal: seq<Text>, s: Scan, r: Record, w: Written) {
    && w.journal == journal + [Serialize(r)] && w.recordSha256 == r.recordSha256
    && Running(sha, w.journal, ScanRecord(s, r))
  }

  /**
   On a sound journal an operation appends exactly when its decision is to write and the disk accepts the line; the
   scan of the longer journal is then sound and is the one the new record predicts. The line budget never interferes.
   */
  lemma AppendIsPredicted(sha: Hash, journal: seq<Text>, op: JournalOp, appends: bool)
    requires Running(sha, journal, ScanJournal(sha, journal)) && |journal| < MAX_U64
    ensures ScanJournal(sha, journal).next == |journal|
    ensures var s, w := ScanJournal(sha, journal), Perform(sha, journal, op, appends);
            && (w.status == Ok <==> Decide(s, op).Write? && appends)
            && (w.status != Ok ==> w.journal == journal)
            && w.status == (if Decide(s, op).Refused? then Decide(s, op).status else if appends then Ok else StorageError)
            && (w.status == Ok ==> Grew(sha, journal, s, Sealed(sha, Decide(s, op).record), w))
  {
    var s := ScanJournal(sha, journal);
    ScanLength(sha, journal);
    RefusalsAreNotOk(s, op);
    PerformDoes(sha, journal, op, appends);
    if Decide(s, op).Write? {
      DecidedRecordIsGood(sha, s, op);
      AppendDoes(sha, journal, s, Decide(s, op).record, appends);
    }
  }

  lemma PerformDoes(sha: Hash, journal: seq<Text>, op: JournalOp, appends: bool)
    requires |journal| <= MAX_U64 && ScanJournal(sha, journal).next <= MAX_U64
    ensures var decision := Decide(ScanJournal(sha, journal), op);
            Perform(sha, journal, op, appends)
            == if decision.Refused? then Written(journal, decision.status, []) else Append(sha, journal, decision.record, appends)
  {
  }

  /** When the decision is to write, the stored record is the one decided and its scan is the one it predicts. */
  lemma WriteIsStored(sha: Hash, journal: seq<Text>, op: JournalOp)
    requires Running(sha, journal, ScanJournal(sha, journal)) && |journal| < MAX_U64
    requires ScanJournal(sha, journal).next <= MAX_U64 && Decide(ScanJournal(sha, journal), op).Write?
    ensures Perform(sha, journal, op, true).status == Ok
    ensures ScanJournal(sha, Perform(sha, journal, op, true).journal)
         == ScanRecord(ScanJournal(sha, journal), Sealed(sha, Decide(ScanJournal(sha, journal), op).record))
  {
    AppendIsPredicted(sha, journal, op, true);
  }

  lemma AppendDoes(sha: Hash, journal: seq<Text>, s: Scan, r: Record, appends: bool)
    requires Running(sha, journal, s)
    requires ValidRecord(sha, Sealed(sha, r)) && ScanRecord(s, Sealed(sha, r)).healthy
    ensures var w := Append(sha, journal, r, appends);
            && w.status == (if appends then Ok else StorageError)
            && (!appends ==> w.journal == journal)
            && (appends ==> Grew(sha, journal, s, Sealed(sha, r), w))
  {
    ValidRecordFits(Sealed(sha, r));
    AppendScans(sha, journal, s, Sealed(sha, r));
  }

  lemma RefusalsAreNotOk(s: Scan, op: JournalOp)
    requires s.next <= MAX_U64
    ensures Decide(s, op).Refused? ==> Decide(s, op).status != Ok
  {
  }

  lemma AppendScans(sha: Hash, journal: seq<Text>, s: Scan, r: Record)
    requires Running(sha, journal, s) && ValidRecord(sha, r) && ScanRecord(s, r).healthy
    ensures Running(sha, journal + [Serialize(r)], ScanRecord(s, r))
  {
    RecordRoundTrip(sha, r);
    SerializedIsOneLine(r);
    assert (journal + [Serialize(r)])[..|journal|] == journal;
    assert (journal + [Serialize(r)])[|journal|] == Serialize(r);
  }

  // ----- runs -----

  datatype JournalCall = JournalCall(op: JournalOp, appends: bool)

  /** The journal after a run, the record each line holds, and the operation that wrote it. */
  datatype Run = Run(journal: seq<Text>, history: History, log: seq<JournalOp>)

  function RunJournal(sha: Hash, calls: seq<JournalCall>): (run: Run)
    requires |calls| <= MAX_U64
    ensures |run.journal| == |run.history| == |run.log| <= |calls|
  {
    if calls == [] then Run([], [], [])
    else
      var run, last := RunJournal(sha, calls[..|calls| - 1]), calls[|calls| - 1];
      Extend(sha, run, last)
  }

  function Extend(sha: Hash, run: Run, call: JournalCall): (run': Run)
    requires |run.journal| == |run.history| == |run.log| < MAX_U64
    ensures |run'.journal| == |run'.history| == |run'.log| <= |run.journal| + 1
  {
    var w := Perform(sha, run.journal, call.op, call.appends);
    var s := ScanJournal(sha, run.journal);
    ScanLength(sha, run.journal);
    if w.status == Ok && Decide(s, call.op).Write?
    then
      WrittenLength(sha, run.journal, call.op, call.appends);
      Run(w.journal, run.history + [Sealed(sha, Decide(s, call.op).record)], run.log + [call.op])
    else run
  }

  lemma WrittenLength(sha: Hash, journal: seq<Text>, op: JournalOp, appends: bool)
    requires |journal| <= MAX_U64 && ScanJournal(sha, journal).next <= MAX_U64
    requires Perform(sha, journal, op, appends).status == Ok && Decide(ScanJournal(sha, journal), op).Write?
    ensures |Perform(sha, journal, op, appends).journal| == |journal| + 1
  {
  }

  // ----- lineage -----

  /** The retry record behind a lineage. */
  predicate Reserves(r: Record, l: Lineage) {
    && r.kind == RecoveryRetry && r.sessionId == l.parentSession && r.correlationId == l.parentCorrelation
    && r.auditSha256 == l.authorization && ChildOf(r.terminalStatus) == Some(l.childCorrelation)
  }

  /** The BEGIN that started a lineage's child: the first under its correlation, written by the authorized operation. */
  ghost predicate Starts(h: History, log: seq<JournalOp>, j: nat, l: Lineage)
    requires j < |h| == |log|
  {
    && h[j].kind == Begin && h[j].sessionId == l.childSession && h[j].correlationId == l.childCorrelation
    && !CorrelationUsed(h[..j], l.childCorrelation)
    && log[j].BeginRecoveryChild? && log[j].parent == l.parentSession && log[j].authorization == l.authorization
  }

  ghost predicate Traced(h: History, log: seq<JournalOp>, l: Lineage)
    requires |h| == |log|
  {
    exists i | 0 <= i < |h| ::
      && Reserves(h[i], l)
      && (if l.childStarted then exists j | i < j < |h| :: Starts(h, log, j, l) else !CorrelationUsed(h, l.childCorrelation))
  }

  ghost predicate AllTraced(h: History, log: seq<JournalOp>, lineages: seq<Lineage>)
    requires |h| == |log|
  {
    forall k | 0 <= k < |lineages| :: Traced(h, log, lineages[k])
  }

  /** Two lineages never share a parent, a child correlation, or a started child. */
  predicate Apart(l: Lineage, m: Lineage) {
    && l.parentSession != m.parentSession && l.childCorrelation != m.childCorrelation
    && (l.childStarted && m.childStarted ==> l.childSession != m.childSession)
  }

  predicate AllApart(lineages: seq<Lineage>) {
    forall k, m | 0 <= k < m < |lineages| :: Apart(lineages[k], lineages[m])
  }

  lemma CorrelationOfPrefix(h: History, r: Record, j: nat)
    requires j <= |h|
    ensures (h + [r])[..j] == h[..j]
  {
  }

  /** A lineage stays traced when a record that does not concern it is appended. */
  lemma TracedStays(h: History, log: seq<JournalOp>, r: Record, op: JournalOp, l: Lineage)
    requires |h| == |log| && Traced(h, log, l)
    requires l.childStarted || r.kind != Begin || r.correlationId != l.childCorrelation
    ensures Traced(h + [r], log + [op], l)
  {
    var i :| 0 <= i < |h| && Reserves(h[i], l)
             && (if l.childStarted then exists j | i < j < |h| :: Starts(h, log, j, l) else !CorrelationUsed(h, l.childCorrelation));
    var g := h + [r];
    assert Reserves(g[i], l);
    if l.childStarted {
      var j :| i < j < |h| && Starts(h, log, j, l);
      CorrelationOfPrefix(h, r, j);
      assert Starts(g, log + [op], j, l);
    } else {
      CorrelationsExtend(h, r, l.childCorrelation);
    }
  }

  /** A waiting lineage becomes a started one when its child's BEGIN is appended. */
  lemma TracedStarts(h: History, log: seq<JournalOp>, r: Record, op: JournalOp, l: Lineage)
    requires |h| == |log| && Traced(h, log, l) && !l.childStarted
    requires r.kind == Begin && r.correlationId == l.childCorrelation
    requires op.BeginRecoveryChild? && op.parent == l.parentSession && op.authorization == l.authorization
    ensures Traced(h + [r], log + [op], l.(childStarted := true, childSession := r.sessionId))
  {
    var l' := l.(childStarted := true, childSession := r.sessionId);
    var i :| 0 <= i < |h| && Reserves(h[i], l) && !CorrelationUsed(h, l.childCorrelation);
    var g := h + [r];
    assert Reserves(g[i], l');
    CorrelationOfPrefix(h, r, |h|);
    assert h[..|h|] == h;
    assert Starts(g, log + [op], |h|, l');
  }

  lemma {:induction false} NoneAwaits(lineages: seq<Lineage>, c: Text, session: Text)
    requires forall k | 0 <= k < |lineages| :: !Awaits(lineages[k], c)
    ensures MarkStarted(lineages, c, session) == lineages
  {
    if lineages != [] {
      assert !Awaits(lineages[0], c);
      NoneAwaits(lineages[1..], c, session);
    }
  }

  lemma {:induction false} OneAwaits(lineages: seq<Lineage>, c: Text, session: Text, k: nat)
    requires k < |lineages| && Awaits(lineages[k], c)
    requires forall m | 0 <= m < |lineages| && m != k :: lineages[m].childCorrelation != c
    ensures MarkStarted(lineages, c, session) == lineages[k := lineages[k].(childStarted := true, childSession := session)]
  {
    if k > 0 {
      assert lineages[0].childCorrelation != c;
      OneAwaits(lineages[1..], c, session, k - 1);
    }
  }

  // ----- the run invariant -----

  ghost predicate Tracks(sha: Hash, run: Run)
    requires |run.journal| == |run.history| == |run.log|
  {
    var s := ScanJournal(sha, run.journal);
    && Running(sha, run.journal, s) && Describes(run.history, s)
    && AllTraced(run.history, run.log, s.lineages) && AllApart(s.lineages)
  }

  lemma BeginSessionTraces(h: History, log: seq<JournalOp>, s: Scan, b: BeginRequest, r: Record)
    requires |h| == |log| && AllTraced(h, log, s.lineages) && AllApart(s.lineages)
    requires r.kind == Begin && r.correlationId == b.correlationId && !AwaitedByAny(s.lineages, b.correlationId)
    ensures MarkStarted(s.lineages, r.correlationId, r.sessionId) == s.lineages
    ensures AllTraced(h + [r], log + [BeginSession(b)], s.lineages)
  {
    NoneAwaits(s.lineages, r.correlationId, r.sessionId);
    forall k | 0 <= k < |s.lineages| ensures Traced(h + [r], log + [BeginSession(b)], s.lineages[k]) {
      assert !Awaits(s.lineages[k], b.correlationId);
      TracedStays(h, log, r, BeginSession(b), s.lineages[k]);
    }
  }

  lemma StartedChildBegan(h: History, log: seq<JournalOp>, l: Lineage)
    requires |h| == |log| && Traced(h, log, l) && l.childStarted
    ensures Begun(h, l.childSession)
  {
  }

  lemma BeginChildTraces(h: History, log: seq<JournalOp>, s: Scan, op: JournalOp, r: Record)
    requires |h| == |log| && AllTraced(h, log, s.lineages) && AllApart(s.lineages)
    requires op.BeginRecoveryChild? && AuthorizedChild(s.lineages, op.begin, op.parent, op.authorization)
    requires r.kind == Begin && r.correlationId == op.begin.correlationId && !Begun(h, r.sessionId)
    ensures AllTraced(h + [r], log + [op], MarkStarted(s.lineages, r.correlationId, r.sessionId))
    ensures AllApart(MarkStarted(s.lineages, r.correlationId, r.sessionId))
  {
    var ls := s.lineages;
    var k :| 0 <= k < |ls| && Awaits(ls[k], op.begin.correlationId) && ls[k].parentSession == op.parent && ls[k].authorization == op.authorization;
    forall m | 0 <= m < |ls| && m != k ensures ls[m].childCorrelation != r.correlationId {
      assert if m < k then Apart(ls[m], ls[k]) else Apart(ls[k], ls[m]);
    }
    OneAwaits(ls, r.correlationId, r.sessionId, k);
    var ls' := MarkStarted(ls, r.correlationId, r.sessionId);
    forall m | 0 <= m < |ls| ensures Traced(h + [r], log + [op], ls'[m]) {
      if m == k {
        TracedStarts(h, log, r, op, ls[m]);
      } else {
        TracedStays(h, log, r, op, ls[m]);
      }
    }
    forall m, n | 0 <= m < n < |ls| ensures Apart(ls'[m], ls'[n]) {
      assert Apart(ls[m], ls[n]);
      if n == k && ls[m].childStarted {
        StartedChildBegan(h, log, ls[m]);
      }
      if m == k && ls[n].childStarted {
        StartedChildBegan(h, log, ls[n]);
      }
    }
  }

  lemma CloseTraces(h: History, log: seq<JournalOp>, lineages: seq<Lineage>, op: JournalOp, r: Record)
    requires |h| == |log| && AllTraced(h, log, lineages) && r.kind != Begin
    ensures AllTraced(h + [r], log + [op], lineages)
  {
    forall k | 0 <= k < |lineages| ensures Traced(h + [r], log + [op], lineages[k]) {
      TracedStays(h, log, r, op, lineages[k]);
    }
  }

  lemma ParentIsClosed(h: History, log: seq<JournalOp>, l: Lineage)
    requires |h| == |log| && Traced(h, log, l)
    ensures Closed(h, l.parentSession) && CorrelationReserved(h, l.childCorrelation)
  {
  }

  lemma RetryTraces(h: History, log: seq<JournalOp>, lineages: seq<Lineage>, op: JournalOp, r: Record, l: Lineage)
    requires |h| == |log| && AllTraced(h, log, lineages) && AllApart(lineages)
    requires Reserves(r, l) && !l.childStarted && Follows(h, r)
    ensures AllTraced(h + [r], log + [op], lineages + [l]) && AllApart(lineages + [l])
  {
    CloseTraces(h, log, lineages, op, r);
    CorrelationsExtend(h, r, l.childCorrelation);
    assert Reserves((h + [r])[|h|], l);
    forall k | 0 <= k < |lineages| ensures Apart(lineages[k], l) {
      ParentIsClosed(h, log, lineages[k]);
    }
  }

  lemma RetryScans(s: Scan, r: Record)
    requires r.kind == RecoveryRetry && ScanRecord(s, r).healthy
    ensures ChildOf(r.terminalStatus).Some?
    ensures var l := Lineage(r.sessionId, r.correlationId, r.auditSha256, ChildOf(r.terminalStatus).value, [], false);
            Reserves(r, l) && ScanRecord(s, r).lineages == s.lineages + [l]
  {
  }

  lemma AppendTraces(sha: Hash, h: History, log: seq<JournalOp>, s: Scan, op: JournalOp)
    requires |h| == |log| && Describes(h, s) && AllTraced(h, log, s.lineages) && AllApart(s.lineages)
    requires s.next <= MAX_U64 && Decide(s, op).Write? && ScanRecord(s, Sealed(sha, Decide(s, op).record)).healthy
    ensures var r := Sealed(sha, Decide(s, op).record);
            && Describes(h + [r], ScanRecord(s, r))
            && AllTraced(h + [r], log + [op], ScanRecord(s, r).lineages) && AllApart(ScanRecord(s, r).lineages)
  {
    var r := Sealed(sha, Decide(s, op).record);
    ScanStep(h, s, r);
    match op
    case BeginSession(b) => BeginSessionTraces(h, log, s, b, r);
    case BeginRecoveryChild(_, _, _) => BeginChildTraces(h, log, s, op, r);
    case Finish(_) => CloseTraces(h, log, s.lineages, op, r);
    case Recover(_) =>
      if r.kind == RecoveryRetry {
        RetryScans(s, r);
        RetryTraces(h, log, s.lineages, op, r, ScanRecord(s, r).lineages[|s.lineages|]);
      } else {
        CloseTraces(h, log, s.lineages, op, r);
      }
  }

  lemma ExtendTracks(sha: Hash, run: Run, call: JournalCall)
    requires |run.journal| == |run.history| == |run.log| < MAX_U64 && Tracks(sha, run)
    ensures Tracks(sha, Extend(sha, run, call))
  {
    var s := ScanJournal(sha, run.journal);
    AppendIsPredicted(sha, run.journal, call.op, call.appends);
    if Perform(sha, run.journal, call.op, call.appends).status == Ok {
      DecidedRecordIsGood(sha, s, call.op);
      AppendTraces(sha, run.history, run.log, s, call.op);
    }
  }

  lemma {:induction false} RunTracksLineage(sha: Hash, calls: seq<JournalCall>)
    requires |calls| <= MAX_U64
    ensures Tracks(sha, RunJournal(sha, calls))
  {
    if calls != [] {
      RunTracksLineage(sha, calls[..|calls| - 1]);
      ExtendTracks(sha, RunJournal(sha, calls[..|calls| - 1]), calls[|calls| - 1]);
    }
  }
}
