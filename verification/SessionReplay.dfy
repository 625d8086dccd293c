/**
 Replay of the session-key journal. The live ledger accepts some calls whose journal line replay
 refuses, so replay rebuilds the live state exactly when no such call was committed.
 */
module SessionReplay {
  import opened Wrappers
  import opened Text
  import opened HashChain
  import opened SessionKey

  datatype SessionCall = SessionCall(op: SessionOp, appends: bool)

  function RunSessions(sha: Hash, calls: seq<SessionCall>): SessionStore {
    if calls == [] then SessionStore(EMPTY_SESSIONS, [])
    else
      var last := calls[|calls| - 1];
      StepSession(sha, RunSessions(sha, calls[..|calls| - 1]), last.op, last.appends).store
  }

  /** What replay wants of a call and the live ledger does not ask. */
  predicate Replayable(op: SessionOp) {
    match op
    case RegisterBundle(b) => IsSha256(b.receipt.fingerprint) && b.receipt.expiresAt != 0 && b.receipt.maxUses != 0
    case ConsumeSession(_, now) => now != 0
    case _ => true
  }

  predicate Commits(st: SessionStore, call: SessionCall) {
    JudgeSession(st.ledger, call.op).Accept? && st.ledger.healthy && call.appends
  }

  /** Every committed call of the run is replayable. */
  predicate AllReplayable(sha: Hash, calls: seq<SessionCall>) {
    calls == [] ||
    (var front, last := calls[..|calls| - 1], calls[|calls| - 1];
     AllReplayable(sha, front) && (Commits(RunSessions(sha, front), last) ==> Replayable(last.op)))
  }

  // ----- printing and parsing -----

  lemma Hexed(t: Text)
    ensures HexDecode(HexEncode(t)) == Some(t) && '\t' !in HexEncode(t)
  {
    HexRoundTrip(t);
    HexIsClean(t);
  }

  lemma Decimal(n: nat, max: nat)
    requires n <= max
    ensures Num(Dec(n), max) == Some(n) && '\t' !in Dec(n)
  {
    ParseDec(n, max);
  }

  lemma ParsePrintHandOff(e: SessionEvent)
    requires e.HandedOff? && '\t' !in e.registration.fingerprint
    ensures ParseHandOff(PrintSession(e)) == Some(e) && TabFree(PrintSession(e))
  {
    var g := e.registration;
    Hexed(g.voucherId); Hexed(g.certificateId); Hexed(g.receiptId); Hexed(g.signerId); Hexed(g.keyId); Hexed(g.algorithm);
    Decimal(g.expiresAt, MAX_U64); Decimal(g.maxUses, MAX_U32);
  }

  lemma ParsePrintSession(e: SessionEvent)
    requires e.HandedOff? ==> '\t' !in e.registration.fingerprint
    ensures ParseSession(PrintSession(e)) == Some(e)
    ensures TabFree(PrintSession(e)) && |PrintSession(e)| >= 3
  {
    match e
    case HandedOff(_) => ParsePrintHandOff(e);
    case SessionUsed(id, use, at) => ParsePrintUse(e);
    case SessionKeyRevoked(signer, key, at) => ParsePrintKeyRevocation(e);
    case SessionReceiptRevoked(id, at) => ParsePrintReceiptRevocation(e);
  }

  lemma ParsePrintKeyRevocation(e: SessionEvent)
    requires e.SessionKeyRevoked?
    ensures ParseSession(PrintSession(e)) == Some(e) && TabFree(PrintSession(e))
  {
    Hexed(e.signer); Hexed(e.key); Decimal(e.at, MAX_U64);
  }

  lemma ParsePrintReceiptRevocation(e: SessionEvent)
    requires e.SessionReceiptRevoked?
    ensures ParseSession(PrintSession(e)) == Some(e) && TabFree(PrintSession(e))
  {
    Hexed(e.id); Decimal(e.at, MAX_U64);
  }

  lemma ParsePrintUse(e: SessionEvent)
    requires e.SessionUsed?
    ensures ParseSession(PrintSession(e)) == Some(e) && TabFree(PrintSession(e))
  {
    Hexed(e.id); Decimal(e.use, MAX_U64); Decimal(e.at, MAX_U64);
  }

  // ----- one committed line -----

  ghost predicate Wellformed(l: SessionLedger) {
    && (l.head == [] || IsSha256(l.head))
    && forall id | id in l.registrations :: ValidSessionReceiptId(id)
  }

  /** An accepted call meets the replay contract exactly when it is replayable. */
  lemma AdmittedExactly(l: SessionLedger, op: SessionOp)
    requires Wellformed(l) && JudgeSession(l, op).Accept?
    ensures AdmitSession(l, JudgeSession(l, op).event) <==> Replayable(op)
  {
  }

  /** The line of an accepted call is read back as its event, or not at all. */
  lemma CommittedLineReads(sha: Hash, st: SessionStore, op: SessionOp)
    requires Wellformed(st.ledger) && JudgeSession(st.ledger, op).Accept? && st.ledger.sequence < MAX_U64
    ensures var l, e := st.ledger, JudgeSession(st.ledger, op).event;
            var body := PrintSession(e);
            ReadSessionEvent(sha, l, Line(sha, l.sequence, l.head, body))
            == if Replayable(op) then Some((e, sha(Canonical(l.sequence, l.head, body)))) else None
  {
    var l, e := st.ledger, JudgeSession(st.ledger, op).event;
    var body := PrintSession(e);
    AdmittedExactly(l, op);
    if e.HandedOff? && '\t' in e.registration.fingerprint {
      assert body[7] == e.registration.fingerprint;
      TabWidensBody(sha, l.sequence, l.head, body, 5);
      NoTabInDigest(e.registration.fingerprint);
    } else {
      ParsePrintSession(e);
      ReadWritten(sha, l.sequence, l.head, body, 5);
    }
  }

  lemma NoTabInDigest(t: Text)
    ensures IsSha256(t) ==> '\t' !in t
  {
  }

  // ----- the run -----

  ghost predicate Tracks(sha: Hash, st: SessionStore, replayable: bool) {
    && Wellformed(st.ledger) && st.ledger.healthy && st.ledger.sequence == |st.journal|
    && (replayable ==> ReplaySessions(sha, st.journal) == st.ledger)
    && (!replayable ==> !ReplaySessions(sha, st.journal).healthy)
  }

  /** The line of an accepted call replays to the ledger the call left, or damages the store. */
  lemma CommittedLineReplays(sha: Hash, st: SessionStore, call: SessionCall)
    requires Wellformed(st.ledger) && Commits(st, call) && st.ledger.sequence < MAX_U64
    ensures var l, st' := st.ledger, StepSession(sha, st, call.op, call.appends).store;
            var line := Line(sha, l.sequence, l.head, PrintSession(JudgeSession(l, call.op).event));
            && st'.journal == st.journal + [line]
            && ReplaySessionLine(sha, l, line) == if Replayable(call.op) then st'.ledger else l.(healthy := false)
  {
    var l := st.ledger;
    CommittedLineReads(sha, st, call.op);
    LineNotEmpty(sha, l.sequence, l.head, PrintSession(JudgeSession(l, call.op).event));
  }

  lemma ReplayExtends(sha: Hash, journal: seq<Text>, line: Text)
    ensures var l := ReplaySessions(sha, journal);
            ReplaySessions(sha, journal + [line]) == if l.healthy then ReplaySessionLine(sha, l, line) else l
  {
    assert (journal + [line])[..|journal|] == journal;
  }

  lemma CommitKeepsWellformed(sha: Hash, st: SessionStore, call: SessionCall)
    requires Wellformed(st.ledger) && Commits(st, call)
    ensures var l, l' := st.ledger, StepSession(sha, st, call.op, call.appends).store.ledger;
            Wellformed(l') && l'.healthy && l'.sequence == l.sequence + 1
  {
  }

  lemma StepTracks(sha: Hash, st: SessionStore, call: SessionCall, replayable: bool)
    requires Tracks(sha, st, replayable) && |st.journal| < MAX_U64
    ensures Tracks(sha, StepSession(sha, st, call.op, call.appends).store,
                   replayable && (Commits(st, call) ==> Replayable(call.op)))
  {
    if Commits(st, call) {
      CommittedLineReplays(sha, st, call);
      CommitKeepsWellformed(sha, st, call);
      ReplayExtends(sha, st.journal,
                    Line(sha, st.ledger.sequence, st.ledger.head, PrintSession(JudgeSession(st.ledger, call.op).event)));
    }
  }

  lemma LineNotEmpty(sha: Hash, sequence: nat, head: Text, body: seq<Text>)
    ensures Line(sha, sequence, head, body) != []
  {
  }

  /**
   Replay rebuilds the live session-key ledger after a run if and only if every committed registration carried a digest
   fingerprint, a non-zero expiry and a non-zero budget, and every committed use a non-zero time. Otherwise replay
   reports the journal damaged, although every live call succeeded.
   */
  lemma SessionReplayIsExact(sha: Hash, calls: seq<SessionCall>)
    requires |calls| <= MAX_U64
    ensures var st := RunSessions(sha, calls);
            && st.ledger.healthy
            && (ReplaySessions(sha, st.journal) == st.ledger <==> AllReplayable(sha, calls))
            && (!AllReplayable(sha, calls) ==> !ReplaySessions(sha, st.journal).healthy)
  {
    RunTracks(sha, calls);
  }

  lemma {:induction false} RunTracks(sha: Hash, calls: seq<SessionCall>)
    requires |calls| <= MAX_U64
    ensures Tracks(sha, RunSessions(sha, calls), AllReplayable(sha, calls))
    ensures |RunSessions(sha, calls).journal| <= |calls|
  {
    if calls != [] {
      var front, last := calls[..|calls| - 1], calls[|calls| - 1];
      RunTracks(sha, front);
      StepTracks(sha, RunSessions(sha, front), last, AllReplayable(sha, front));
    }
  }
}
