/** Deciding what becomes of an interrupted session: dismiss it, or reserve a fresh child to retry it. */
module RecoveryProtocol {
  import opened Wrappers
  import opened Text
  import opened HashChain
  import Readings
  import AR = AuthorityReceipt
  import opened SessionJournal
  import ES = ExecutionSession
  import Z = Zenkai
  import AL = AuthorityLedger
  import AG = AuthorityGate
  import JL = SessionJournalLaws
  import JR = SessionJournalRuns
  import JM = SessionJournalTheorems

  datatype Decision = Dismiss | RetryAsNewSession

  datatype Authorization = Authorization(
    decision: Decision, parentSessionId: Text, parentBeginRecord: Text, childCorrelationId: Text,
    childRetryAuthority: Z.RetryAuthority, receipt: Option<AR.Receipt>)

  datatype DecisionStatus =
    | Dismissed | RetryPrepared | AuthorizationRequired | ParentNotInterrupted | IdentityReuse | InvalidDecision | JournalError

  predicate ValidAuthorization(a: Authorization) {
    && CanonicalSessionId(a.parentSessionId) && IsSha256(a.parentBeginRecord)
    && (if a.decision == Dismiss then a.childCorrelationId == [] && a.childRetryAuthority == Z.NoRetry
        else ValidCorrelation(a.childCorrelationId))
  }

  function AuthorityScope(sha: Hash, a: Authorization): (d: Text)
    ensures IsSha256(d)
  {
    sha(AR.JoinLines([Dec(if a.decision == Dismiss then 0 else 1), a.parentSessionId, a.parentBeginRecord,
                                    a.childCorrelationId, Dec(a.childRetryAuthority.Code())]))
  }

  function AuthorizationSha256(sha: Hash, a: Authorization): (d: Text)
    ensures IsSha256(d)
  {
    sha(AuthorityScope(sha, a) + "\n" + (if a.receipt.Some? then a.receipt.value.receiptId else []))
  }

  /** The parent is interrupted, under exactly the BEGIN the authorization names. */
  predicate Interrupted(s: Scan, a: Authorization) {
    a.parentSessionId in s.open && s.open[a.parentSessionId].recordSha256 == a.parentBeginRecord
  }

  /** What is refused before authority is spent; None when the gate may be asked. */
  function EarlyRefusal(s: Scan, a: Authorization, childTemplate: Option<ES.SessionRequest>): Option<DecisionStatus> {
    if !ValidAuthorization(a) then Some(InvalidDecision)
    else if !s.healthy then Some(JournalError)
    else if !Interrupted(s, a) then Some(ParentNotInterrupted)
    else if a.decision == RetryAsNewSession && a.childCorrelationId == s.open[a.parentSessionId].correlationId then Some(IdentityReuse)
    else if a.decision == RetryAsNewSession && childTemplate.None? then Some(InvalidDecision)
    else None
  }

  function RecoveryOf(sha: Hash, s: Scan, a: Authorization, recordedAt: Text): Recovery
    requires Interrupted(s, a)
  {
    var begin := s.open[a.parentSessionId];
    Recovery(if a.decision == Dismiss then RecoveryDismiss else RecoveryRetry, a.parentSessionId, begin.correlationId,
             begin.requestSha256, begin.recordSha256, AuthorizationSha256(sha, a), a.childCorrelationId, recordedAt)
  }

  const ATTEMPT_ZERO: Text := ":attempt:0"
  const RETRY_TAG: Text := "recovery-decision:retry-as-new-session"
  const RECEIPT_TAG: Text := "authority-receipt:"

  /** The template, moved to the reserved correlation and bound to its parent and authorization. */
  function ChildRequest(sha: Hash, a: Authorization, template: ES.SessionRequest): ES.SessionRequest
    requires a.receipt.Some?
  {
    var invocation := template.forge.invocation.(invocationId := a.childCorrelationId + ATTEMPT_ZERO);
    template.(correlationId := a.childCorrelationId,
              forge := template.forge.(invocation := invocation),
              retryAuthority := a.childRetryAuthority,
              parentSessionId := a.parentSessionId,
              recoveryAuthorization := AuthorizationSha256(sha, a),
              dojoTags := template.dojoTags + [RETRY_TAG, RECEIPT_TAG + a.receipt.value.receiptId])
  }

  datatype DecisionOutcome = DecisionOutcome(
    status: DecisionStatus, journal: seq<Text>, authority: AL.Store, child: Option<ES.SessionRequest>)

  /** The decision, with one clock reading and whether each of the two appends reaches the disk. */
  function DecideRecovery(crypto: AR.Crypto, journal: seq<Text>, authority: AL.Store, a: Authorization, childTemplate: Option<ES.SessionRequest>,
                          now: u64, authorityAppends: bool, journalAppends: bool): DecisionOutcome
    requires |journal| <= MAX_U64
  {
    var s := ScanJournal(crypto.sha, journal);
    var early := EarlyRefusal(s, a, childTemplate);
    if early.Some? then DecisionOutcome(early.value, journal, authority, None)
    else AfterGate(crypto, journal, a, childTemplate, GateOutcome(crypto, authority, a, now, authorityAppends), journalAppends)
  }

  function GateOutcome(crypto: AR.Crypto, authority: AL.Store, a: Authorization, now: u64, appends: bool): AG.GateOutcome {
    AG.GateAuthorize(crypto, authority, a.receipt, AR.Recovery, a.parentSessionId, AuthorityScope(crypto.sha, a), [], now, appends)
  }

  function AfterGate(crypto: AR.Crypto, journal: seq<Text>, a: Authorization, childTemplate: Option<ES.SessionRequest>,
                     gate: AG.GateOutcome, appends: bool): (o: DecisionOutcome)
    requires |journal| <= MAX_U64 && EarlyRefusal(ScanJournal(crypto.sha, journal), a, childTemplate).None?
    ensures o.authority == gate.store
    ensures gate.status != AG.Allowed ==> !Decided(o.status) && o.journal == journal
    ensures gate.status == AG.Allowed && a.receipt.Some? ==> o == RecordDecision(crypto, journal, gate.store, a, childTemplate, appends)
  {
    if gate.status != AG.Allowed || a.receipt.None? then DecisionOutcome(AuthorizationRequired, journal, gate.store, None)
    else RecordDecision(crypto, journal, gate.store, a, childTemplate, appends)
  }

  /** The journal's part of the decision, after the authority has been spent. */
  function RecordDecision(crypto: AR.Crypto, journal: seq<Text>, authority: AL.Store, a: Authorization,
                          childTemplate: Option<ES.SessionRequest>, appends: bool): (o: DecisionOutcome)
    requires |journal| <= MAX_U64 && a.receipt.Some? && EarlyRefusal(ScanJournal(crypto.sha, journal), a, childTemplate).None?
    ensures o.authority == authority
  {
    var recovery := RecoveryOf(crypto.sha, ScanJournal(crypto.sha, journal), a, a.receipt.value.envelope.issuedAtUtc);
    Conclude(crypto.sha, authority, a, childTemplate, Perform(crypto.sha, journal, Recover(recovery), appends))
  }

  function Conclude(sha: Hash, authority: AL.Store, a: Authorization, childTemplate: Option<ES.SessionRequest>, written: Written): (o: DecisionOutcome)
    requires a.receipt.Some? && (a.decision == RetryAsNewSession ==> childTemplate.Some?)
    ensures o.authority == authority && o.journal == written.journal
  {
    if written.status == RecoveryNotAuthorized then DecisionOutcome(AuthorizationRequired, written.journal, authority, None)
    else if written.status != Ok then DecisionOutcome(JournalError, written.journal, authority, None)
    else if a.decision == Dismiss then DecisionOutcome(Dismissed, written.journal, authority, None)
    else DecisionOutcome(RetryPrepared, written.journal, authority, Some(ChildRequest(sha, a, childTemplate.value)))
  }

  predicate Decided(status: DecisionStatus) {
    status == Dismissed || status == RetryPrepared
  }

  // ----- what the journal refuses after the authority is spent -----

  /** The child correlation of a retry has never begun and is not reserved. */
  predicate ChildIsFresh(s: Scan, a: Authorization) {
    a.decision == RetryAsNewSession ==> a.childCorrelationId !in s.used && !Reserved(s.lineages, a.childCorrelationId)
  }

  lemma RecoveryIsWritten(sha: Hash, s: Scan, a: Authorization, childTemplate: Option<ES.SessionRequest>, recordedAt: Text)
    requires EarlyRefusal(s, a, childTemplate).None? && s.next <= MAX_U64
    requires ValidRecord(sha, s.open[a.parentSessionId]) && 0 < |recordedAt| <= 128
    requires s.open[a.parentSessionId].sessionId == a.parentSessionId
    ensures Decide(s, Recover(RecoveryOf(sha, s, a, recordedAt))).Write? <==> ChildIsFresh(s, a)
    ensures Decide(s, Recover(RecoveryOf(sha, s, a, recordedAt))).Refused? ==>
              Decide(s, Recover(RecoveryOf(sha, s, a, recordedAt))).status == Status.Invalid
  {
  }

  lemma OpenIsFiledByItsId(sha: Hash, journal: seq<Text>, id: Text)
    requires ScanJournal(sha, journal).healthy && id in ScanJournal(sha, journal).open
    ensures ScanJournal(sha, journal).open[id].sessionId == id && ValidRecord(sha, ScanJournal(sha, journal).open[id])
  {
    JM.SoundIsRunning(sha, journal);
    JL.ScanDecidesLawfulness(sha, journal);
    var h := Readings.Values(JL.ReadAll(sha, journal));
    var i :| 0 <= i < |h| && h[i].kind == Begin && h[i].sessionId == id;
  }

  /** What the journal does with the recovery record. */
  lemma RecoveryWrites(sha: Hash, journal: seq<Text>, a: Authorization, childTemplate: Option<ES.SessionRequest>, recordedAt: Text, appends: bool)
    requires |journal| < MAX_U64 && EarlyRefusal(ScanJournal(sha, journal), a, childTemplate).None? && 0 < |recordedAt| <= 128
    ensures var s := ScanJournal(sha, journal);
            var w := Perform(sha, journal, Recover(RecoveryOf(sha, s, a, recordedAt)), appends);
            && (w.status == Ok <==> appends && ChildIsFresh(s, a))
            && (w.status != Ok ==> w.journal == journal)
            && w.status != RecoveryNotAuthorized
  {
    var s := ScanJournal(sha, journal);
    OpenIsFiledByItsId(sha, journal, a.parentSessionId);
    JM.SoundIsRunning(sha, journal);
    ScanLength(sha, journal);
    RecoveryIsWritten(sha, s, a, childTemplate, recordedAt);
    JR.AppendIsPredicted(sha, journal, Recover(RecoveryOf(sha, s, a, recordedAt)), appends);
  }

  lemma UnrefusedShape(s: Scan, a: Authorization, childTemplate: Option<ES.SessionRequest>)
    requires EarlyRefusal(s, a, childTemplate).None?
    ensures ValidAuthorization(a) && s.healthy && Interrupted(s, a) && (a.decision == RetryAsNewSession ==> childTemplate.Some?)
  {
  }

  lemma Concluded(sha: Hash, authority: AL.Store, a: Authorization, childTemplate: Option<ES.SessionRequest>, w: Written)
    requires a.receipt.Some? && (a.decision == RetryAsNewSession ==> childTemplate.Some?) && w.status != RecoveryNotAuthorized
    ensures var o := Conclude(sha, authority, a, childTemplate, w);
            && o.authority == authority && o.journal == w.journal
            && (Decided(o.status) <==> w.status == Ok) && (!Decided(o.status) ==> o.status == JournalError)
            && (o.status == RetryPrepared <==> w.status == Ok && a.decision == RetryAsNewSession)
            && (o.status == RetryPrepared ==> o.child == Some(ChildRequest(sha, a, childTemplate.value)))
  {
  }

  /**
   Once the gate has let the decision through, it succeeds exactly when the record is stored and a retry's child
   correlation is neither in use nor reserved. Otherwise the authority stays spent and the journal is unchanged.
   */
  lemma RecordingSucceedsExactly(crypto: AR.Crypto, journal: seq<Text>, authority: AL.Store, a: Authorization,
                                 childTemplate: Option<ES.SessionRequest>, appends: bool)
    requires |journal| < MAX_U64 && a.receipt.Some? && EarlyRefusal(ScanJournal(crypto.sha, journal), a, childTemplate).None?
    requires 0 < |a.receipt.value.envelope.issuedAtUtc| <= 128
    ensures var o := RecordDecision(crypto, journal, authority, a, childTemplate, appends);
            && o.authority == authority
            && (Decided(o.status) <==> appends && ChildIsFresh(ScanJournal(crypto.sha, journal), a))
            && (!Decided(o.status) ==> o.status == JournalError && o.journal == journal)
            && (o.status == RetryPrepared <==> Decided(o.status) && a.decision == RetryAsNewSession)
            && (o.status == RetryPrepared ==> childTemplate.Some? && o.child == Some(ChildRequest(crypto.sha, a, childTemplate.value)))
  {
    UnrefusedShape(ScanJournal(crypto.sha, journal), a, childTemplate);
    var recovery := RecoveryOf(crypto.sha, ScanJournal(crypto.sha, journal), a, a.receipt.value.envelope.issuedAtUtc);
    var written := Perform(crypto.sha, journal, Recover(recovery), appends);
    RecoveryWrites(crypto.sha, journal, a, childTemplate, a.receipt.value.envelope.issuedAtUtc, appends);
    Concluded(crypto.sha, authority, a, childTemplate, written);
  }

  // ----- the whole decision -----

  lemma AllowedReceiptIsDated(crypto: AR.Crypto, authority: AL.Store, a: Authorization, now: u64, appends: bool)
    requires GateOutcome(crypto, authority, a, now, appends).status == AG.Allowed
    ensures a.receipt.Some? && 0 < |a.receipt.value.envelope.issuedAtUtc| <= 128
  {
    AG.GateOpensExactly(crypto, authority, a.receipt, AR.Recovery, a.parentSessionId, AuthorityScope(crypto.sha, a), [], now, appends);
    AcceptedIsDated(crypto, authority.ledger, a.receipt.value, a.parentSessionId, AuthorityScope(crypto.sha, a), now);
  }

  lemma AcceptedIsDated(crypto: AR.Crypto, l: AL.Ledger, r: AR.Receipt, subject: Text, scope: Text, now: u64)
    requires AL.JudgeAuthorize(crypto, l, r, AR.Recovery, subject, scope, now).Accept?
    ensures 0 < |r.envelope.issuedAtUtc| <= 128
  {
  }

  lemma EarlyRefusalDecidesNothing(s: Scan, a: Authorization, childTemplate: Option<ES.SessionRequest>)
    ensures EarlyRefusal(s, a, childTemplate).Some? ==> !Decided(EarlyRefusal(s, a, childTemplate).value)
  {
  }

  lemma DecisionAfterGate(crypto: AR.Crypto, journal: seq<Text>, authority: AL.Store, a: Authorization,
                          childTemplate: Option<ES.SessionRequest>, now: u64, authorityAppends: bool, journalAppends: bool)
    requires |journal| < MAX_U64
    ensures var s, gate := ScanJournal(crypto.sha, journal), GateOutcome(crypto, authority, a, now, authorityAppends);
            var o := DecideRecovery(crypto, journal, authority, a, childTemplate, now, authorityAppends, journalAppends);
            var reached := EarlyRefusal(s, a, childTemplate).None? && gate.status == AG.Allowed;
            && (reached ==> a.receipt.Some? && o == RecordDecision(crypto, journal, gate.store, a, childTemplate, journalAppends))
            && (!reached ==> !Decided(o.status) && o.journal == journal)
            && o.authority == (if EarlyRefusal(s, a, childTemplate).None? then gate.store else authority)
  {
    var s, gate := ScanJournal(crypto.sha, journal), GateOutcome(crypto, authority, a, now, authorityAppends);
    EarlyRefusalDecidesNothing(s, a, childTemplate);
    if EarlyRefusal(s, a, childTemplate).None? {
      if gate.status == AG.Allowed {
        AllowedReceiptIsDated(crypto, authority, a, now, authorityAppends);
      }
    }
  }

  /**
   A decision is made exactly when the parent is interrupted under the named BEGIN, the gate spends one authority use,
   the record is stored, and a retry's child correlation is fresh. The journal changes only then; the authority is
   spent whenever the gate opened, so a retry onto a used or reserved correlation burns a use and decides nothing.
   */
  lemma DecisionIsExact(crypto: AR.Crypto, journal: seq<Text>, authority: AL.Store, a: Authorization,
                        childTemplate: Option<ES.SessionRequest>, now: u64, authorityAppends: bool, journalAppends: bool)
    requires |journal| < MAX_U64
    ensures var s, gate := ScanJournal(crypto.sha, journal), GateOutcome(crypto, authority, a, now, authorityAppends);
            var o := DecideRecovery(crypto, journal, authority, a, childTemplate, now, authorityAppends, journalAppends);
            var reached := EarlyRefusal(s, a, childTemplate).None? && gate.status == AG.Allowed;
            && (Decided(o.status) <==> reached && journalAppends && ChildIsFresh(s, a))
            && (!Decided(o.status) ==> o.journal == journal)
            && (reached ==> o.authority == gate.store)
            && (!reached ==> o.authority == authority)
            && (reached ==> a.receipt.Some? && o.authority.ledger.UseCount(a.receipt.value.receiptId)
                                              == authority.ledger.UseCount(a.receipt.value.receiptId) + 1)
  {
    var gate := GateOutcome(crypto, authority, a, now, authorityAppends);
    DecisionAfterGate(crypto, journal, authority, a, childTemplate, now, authorityAppends, journalAppends);
    AG.GateOpensExactly(crypto, authority, a.receipt, AR.Recovery, a.parentSessionId, AuthorityScope(crypto.sha, a), [], now,
                        authorityAppends);
    if EarlyRefusal(ScanJournal(crypto.sha, journal), a, childTemplate).None? && gate.status == AG.Allowed {
      AllowedReceiptIsDated(crypto, authority, a, now, authorityAppends);
      RecordingSucceedsExactly(crypto, journal, gate.store, a, childTemplate, journalAppends);
    }
  }

  /** A schema v3 receipt never decides a recovery and is never spent on one: no capability is named. */
  lemma DelegableReceiptsDecideNothing(crypto: AR.Crypto, journal: seq<Text>, authority: AL.Store, a: Authorization,
                                       childTemplate: Option<ES.SessionRequest>, now: u64, authorityAppends: bool, journalAppends: bool)
    requires |journal| < MAX_U64 && a.receipt.Some? && a.receipt.value.envelope.schemaVersion == 3
    ensures var o := DecideRecovery(crypto, journal, authority, a, childTemplate, now, authorityAppends, journalAppends);
            !Decided(o.status) && o.journal == journal && o.authority == authority
  {
    DecisionIsExact(crypto, journal, authority, a, childTemplate, now, authorityAppends, journalAppends);
    AG.UnnamedCapabilityExcludesDelegable(crypto, authority, a.receipt.value, AR.Recovery, a.parentSessionId,
                                          AuthorityScope(crypto.sha, a), now, authorityAppends);
  }

  // ----- the prepared child -----

  /** The state after a retry record: the parent is closed and one waiting lineage names the child. */
  ghost predicate ReservedFor(s: Scan, s': Scan, parent: Text, correlation: Text, authorization: Text, child: Text) {
    && s'.healthy && s'.seen == s.seen && parent !in s'.open
    && s'.lineages == s.lineages + [Lineage(parent, correlation, authorization, child, [], false)]
  }

  lemma RetryScanState(s: Scan, r: Record, child: Text)
    requires r.kind == RecoveryRetry && ScanRecord(s, r).healthy && ChildOf(r.terminalStatus) == Some(child)
    ensures ReservedFor(s, ScanRecord(s, r), r.sessionId, r.correlationId, r.auditSha256, child)
  {
  }

  lemma RetryReserves(sha: Hash, journal: seq<Text>, a: Authorization, childTemplate: Option<ES.SessionRequest>, recordedAt: Text)
    requires |journal| < MAX_U64 && EarlyRefusal(ScanJournal(sha, journal), a, childTemplate).None? && 0 < |recordedAt| <= 128
    requires a.decision == RetryAsNewSession && ChildIsFresh(ScanJournal(sha, journal), a)
    ensures var s := ScanJournal(sha, journal);
            var s' := ScanJournal(sha, Perform(sha, journal, Recover(RecoveryOf(sha, s, a, recordedAt)), true).journal);
            ReservedFor(s, s', a.parentSessionId, s.open[a.parentSessionId].correlationId, AuthorizationSha256(sha, a), a.childCorrelationId)
  {
    var s := ScanJournal(sha, journal);
    OpenIsFiledByItsId(sha, journal, a.parentSessionId);
    JM.SoundIsRunning(sha, journal);
    ScanLength(sha, journal);
    UnrefusedShape(s, a, childTemplate);
    RecoveryIsWritten(sha, s, a, childTemplate, recordedAt);
    JR.WriteIsStored(sha, journal, Recover(RecoveryOf(sha, s, a, recordedAt)));
    RetryRecordScans(sha, s, a, recordedAt);
  }

  lemma RetryRecordScans(sha: Hash, s: Scan, a: Authorization, recordedAt: Text)
    requires Interrupted(s, a) && a.decision == RetryAsNewSession && s.next <= MAX_U64 && ValidAuthorization(a)
    requires IsSha256(s.head) && Decide(s, Recover(RecoveryOf(sha, s, a, recordedAt))).Write?
    ensures var r := Sealed(sha, Decide(s, Recover(RecoveryOf(sha, s, a, recordedAt))).record);
            ReservedFor(s, ScanRecord(s, r), a.parentSessionId, s.open[a.parentSessionId].correlationId,
                        AuthorizationSha256(sha, a), a.childCorrelationId)
  {
    JR.DecidedRecordIsGood(sha, s, Recover(RecoveryOf(sha, s, a, recordedAt)));
    RetryRecordShape(sha, s, a, recordedAt);
    RetryScanState(s, Sealed(sha, Decide(s, Recover(RecoveryOf(sha, s, a, recordedAt))).record), a.childCorrelationId);
  }

  lemma RetryRecordShape(sha: Hash, s: Scan, a: Authorization, recordedAt: Text)
    requires Interrupted(s, a) && a.decision == RetryAsNewSession && s.next <= MAX_U64 && ValidAuthorization(a)
    requires Decide(s, Recover(RecoveryOf(sha, s, a, recordedAt))).Write?
    ensures var r := Sealed(sha, Decide(s, Recover(RecoveryOf(sha, s, a, recordedAt))).record);
            && r.kind == RecoveryRetry && r.sessionId == a.parentSessionId
            && r.correlationId == s.open[a.parentSessionId].correlationId && r.auditSha256 == AuthorizationSha256(sha, a)
            && ChildOf(r.terminalStatus) == Some(a.childCorrelationId)
  {
    JR.RetryStatusNamesChild(a.childCorrelationId);
  }

  /**
   A prepared child may begin: for any fresh session id, begin_recovery_child accepts the child request's own
   correlation, parent and authorization, and its first invocation is correlated with it.
   */
  lemma PreparedChildMayBegin(crypto: AR.Crypto, journal: seq<Text>, authority: AL.Store, a: Authorization,
                              childTemplate: Option<ES.SessionRequest>, now: u64, authorityAppends: bool, journalAppends: bool,
                              id: Text, requestSha256: Text)
    requires |journal| < MAX_U64 - 1
    requires DecideRecovery(crypto, journal, authority, a, childTemplate, now, authorityAppends, journalAppends).status == RetryPrepared
    requires CanonicalSessionId(id) && IsSha256(requestSha256) && id !in ScanJournal(crypto.sha, journal).seen
    ensures var o := DecideRecovery(crypto, journal, authority, a, childTemplate, now, authorityAppends, journalAppends);
            && o.child.Some? && childTemplate.Some? && |o.journal| <= MAX_U64
            && ES.IsRecoveryChild(o.child.value) && ES.Correlated(o.child.value.correlationId, o.child.value.forge.invocation.invocationId)
            && (Perform(crypto.sha, o.journal, ES.BeginOp(o.child.value, id, requestSha256), true).status == Ok
                <==> 0 < |childTemplate.value.recordedAt| <= 128)
  {
    var gate := GateOutcome(crypto, authority, a, now, authorityAppends);
    DecisionIsExact(crypto, journal, authority, a, childTemplate, now, authorityAppends, journalAppends);
    DecisionAfterGate(crypto, journal, authority, a, childTemplate, now, authorityAppends, journalAppends);
    AllowedReceiptIsDated(crypto, authority, a, now, authorityAppends);
    RecordedChildMayBegin(crypto, journal, gate.store, a, childTemplate, id, requestSha256);
  }

  lemma RecordedChildMayBegin(crypto: AR.Crypto, journal: seq<Text>, authority: AL.Store, a: Authorization,
                              childTemplate: Option<ES.SessionRequest>, id: Text, requestSha256: Text)
    requires |journal| < MAX_U64 - 1 && a.receipt.Some? && EarlyRefusal(ScanJournal(crypto.sha, journal), a, childTemplate).None?
    requires 0 < |a.receipt.value.envelope.issuedAtUtc| <= 128
    requires RecordDecision(crypto, journal, authority, a, childTemplate, true).status == RetryPrepared
    requires CanonicalSessionId(id) && IsSha256(requestSha256) && id !in ScanJournal(crypto.sha, journal).seen
    ensures var o := RecordDecision(crypto, journal, authority, a, childTemplate, true);
            && o.child.Some? && childTemplate.Some? && |o.journal| <= MAX_U64
            && ES.IsRecoveryChild(o.child.value) && ES.Correlated(o.child.value.correlationId, o.child.value.forge.invocation.invocationId)
            && (Perform(crypto.sha, o.journal, ES.BeginOp(o.child.value, id, requestSha256), true).status == Ok
                <==> 0 < |childTemplate.value.recordedAt| <= 128)
  {
    var recordedAt := a.receipt.value.envelope.issuedAtUtc;
    var s := ScanJournal(crypto.sha, journal);
    var w := Perform(crypto.sha, journal, Recover(RecoveryOf(crypto.sha, s, a, recordedAt)), true);
    RecoveryWrites(crypto.sha, journal, a, childTemplate, recordedAt, true);
    Concluded(crypto.sha, authority, a, childTemplate, w);
    RetryReserves(crypto.sha, journal, a, childTemplate, recordedAt);
    JM.SoundIsRunning(crypto.sha, journal);
    JR.AppendIsPredicted(crypto.sha, journal, Recover(RecoveryOf(crypto.sha, s, a, recordedAt)), true);
    ChildBegins(crypto.sha, w.journal, s.lineages, a, childTemplate.value, s.open[a.parentSessionId].correlationId, id, requestSha256);
  }

  lemma ChildBegins(sha: Hash, journal: seq<Text>, earlier: seq<Lineage>, a: Authorization, template: ES.SessionRequest,
                    parentCorrelation: Text, id: Text, requestSha256: Text)
    requires |journal| < MAX_U64 && a.receipt.Some? && ValidAuthorization(a) && a.decision == RetryAsNewSession
    requires ScanJournal(sha, journal).healthy
    requires ScanJournal(sha, journal).lineages
          == earlier + [Lineage(a.parentSessionId, parentCorrelation, AuthorizationSha256(sha, a), a.childCorrelationId, [], false)]
    requires CanonicalSessionId(id) && IsSha256(requestSha256) && id !in ScanJournal(sha, journal).seen
    ensures var child := ChildRequest(sha, a, template);
            && ES.IsRecoveryChild(child) && ES.Correlated(child.correlationId, child.forge.invocation.invocationId)
            && (Perform(sha, journal, ES.BeginOp(child, id, requestSha256), true).status == Ok <==> 0 < |template.recordedAt| <= 128)
  {
    ScanLength(sha, journal);
    JM.SoundIsRunning(sha, journal);
    ChildIsCorrelated(sha, a, template);
    ChildDecides(sha, ScanJournal(sha, journal), earlier, a, template, parentCorrelation, id, requestSha256);
    JR.AppendIsPredicted(sha, journal, ES.BeginOp(ChildRequest(sha, a, template), id, requestSha256), true);
  }

  lemma ChildIsCorrelated(sha: Hash, a: Authorization, template: ES.SessionRequest)
    requires a.receipt.Some?
    ensures var child := ChildRequest(sha, a, template);
            child.parentSessionId == a.parentSessionId && ES.Correlated(child.correlationId, child.forge.invocation.invocationId)
  {
  }

  lemma ChildDecides(sha: Hash, s: Scan, earlier: seq<Lineage>, a: Authorization, template: ES.SessionRequest,
                     parentCorrelation: Text, id: Text, requestSha256: Text)
    requires a.receipt.Some? && ValidAuthorization(a) && a.decision == RetryAsNewSession
    requires s.healthy && s.next <= MAX_U64
    requires s.lineages
          == earlier + [Lineage(a.parentSessionId, parentCorrelation, AuthorizationSha256(sha, a), a.childCorrelationId, [], false)]
    requires CanonicalSessionId(id) && IsSha256(requestSha256) && id !in s.seen
    ensures ES.IsRecoveryChild(ChildRequest(sha, a, template))
    ensures Decide(s, ES.BeginOp(ChildRequest(sha, a, template), id, requestSha256)).Write? <==> 0 < |template.recordedAt| <= 128
    ensures Decide(s, ES.BeginOp(ChildRequest(sha, a, template), id, requestSha256)).Refused? ==>
              Decide(s, ES.BeginOp(ChildRequest(sha, a, template), id, requestSha256)).status == Status.Invalid
  {
    var op := ES.BeginOp(ChildRequest(sha, a, template), id, requestSha256);
    assert Awaits(s.lineages[|earlier|], a.childCorrelationId);
    assert AuthorizedChild(s.lineages, op.begin, op.parent, op.authorization);
  }

  /**
   The prepared child passes the orchestrator's own validation exactly when the template's remaining fields do and it
   carries at most 26 tags: two are added, so a valid template of 27 or 28 tags yields a child that cannot run.
   */
  lemma PreparedChildIsValid(sha: Hash, a: Authorization, template: ES.SessionRequest)
    requires ValidAuthorization(a) && a.decision == RetryAsNewSession && a.receipt.Some? && AR.ValidReceiptId(a.receipt.value.receiptId)
    ensures ES.ValidRequest(ChildRequest(sha, a, template)) <==>
              && template.profileName != [] && 0 < |template.summary| <= 2048 && 0 < |template.recordedAt| <= 128
              && |template.dojoTags| <= 26 && (forall i | 0 <= i < |template.dojoTags| :: 0 < |template.dojoTags[i]| <= 128)
              && template.budget.maxEventDetailBytes != 0
  {
    var child, tags := ChildRequest(sha, a, template), template.dojoTags;
    var n := |tags|;
    assert child.dojoTags[n] == RETRY_TAG && child.dojoTags[n + 1] == RECEIPT_TAG + a.receipt.value.receiptId;
    assert forall i | 0 <= i < n :: child.dojoTags[i] == tags[i];
    assert |RECEIPT_TAG + a.receipt.value.receiptId| <= 128;
    assert ES.Correlated(child.correlationId, child.forge.invocation.invocationId);
  }
}
