/** Two recovery decisions that spend their authority for nothing: one names a taken child, the other a crowded template. */
module RecoveryGaps {
  import opened Wrappers
  import opened Text
  import opened HashChain
  import opened SessionJournal
  import AR = AuthorityReceipt
  import AL = AuthorityLedger
  import AG = AuthorityGate
  import Forge
  import Z = Zenkai
  import ES = ExecutionSession
  import JR = SessionJournalRuns
  import NG = NonceGap
  import opened RecoveryProtocol

  /**
   Whenever the gate opens for a retry whose child correlation is in use or reserved, a use of the receipt is spent,
   nothing is decided and the journal is unchanged.
   */
  lemma TakenChildBurnsUse(crypto: AR.Crypto, journal: seq<Text>, authority: AL.Store, a: Authorization,
                           template: Option<ES.SessionRequest>, now: u64, authorityAppends: bool, journalAppends: bool)
    requires |journal| < MAX_U64 && EarlyRefusal(ScanJournal(crypto.sha, journal), a, template).None?
    requires GateOutcome(crypto, authority, a, now, authorityAppends).status == AG.Allowed
    requires !ChildIsFresh(ScanJournal(crypto.sha, journal), a)
    ensures var o := DecideRecovery(crypto, journal, authority, a, template, now, authorityAppends, journalAppends);
            && o.status == JournalError && o.journal == journal && a.receipt.Some?
            && o.authority.ledger.UseCount(a.receipt.value.receiptId) == authority.ledger.UseCount(a.receipt.value.receiptId) + 1
  {
    var gate := GateOutcome(crypto, authority, a, now, authorityAppends);
    DecisionIsExact(crypto, journal, authority, a, template, now, authorityAppends, journalAppends);
    DecisionAfterGate(crypto, journal, authority, a, template, now, authorityAppends, journalAppends);
    AllowedReceiptIsDated(crypto, authority, a, now, authorityAppends);
    RecordingSucceedsExactly(crypto, journal, gate.store, a, template, journalAppends);
  }

  /**
   A template with more than 26 tags is never noticed by the decision: a retry that is prepared from it yields a child
   the orchestrator's validation refuses, with the parent already closed and the authority spent.
   */
  lemma CrowdedChildCannotRun(crypto: AR.Crypto, journal: seq<Text>, authority: AL.Store, a: Authorization,
                              template: ES.SessionRequest, now: u64, authorityAppends: bool, journalAppends: bool)
    requires |journal| < MAX_U64 && |template.dojoTags| > 26
    requires EarlyRefusal(ScanJournal(crypto.sha, journal), a, Some(template)).None? && a.decision == RetryAsNewSession
    requires GateOutcome(crypto, authority, a, now, authorityAppends).status == AG.Allowed
    requires ChildIsFresh(ScanJournal(crypto.sha, journal), a) && journalAppends
    ensures var o := DecideRecovery(crypto, journal, authority, a, Some(template), now, authorityAppends, journalAppends);
            o.status == RetryPrepared && o.child.Some? && !ES.ValidRequest(o.child.value)
  {
    var gate := GateOutcome(crypto, authority, a, now, authorityAppends);
    DecisionAfterGate(crypto, journal, authority, a, Some(template), now, authorityAppends, journalAppends);
    AllowedReceiptIsDated(crypto, authority, a, now, authorityAppends);
    RecordingSucceedsExactly(crypto, journal, gate.store, a, Some(template), journalAppends);
    assert |ChildRequest(crypto.sha, a, template).dojoTags| > 28;
  }

  // ----- a journal with two interrupted sessions -----

  function Id(digest: Digest): (id: Text)
    ensures CanonicalSessionId(id) && ValidToken(id, 256)
  {
    assert (SESSION_ID_PREFIX + digest)[|SESSION_ID_PREFIX|..] == digest;
    SESSION_ID_PREFIX + digest
  }

  function Opening(sha: Hash, digest: Digest, correlation: Text): BeginRequest {
    BeginRequest(Id(digest), correlation, sha("r"), "t")
  }

  /** Two sessions begin and neither ends. */
  function TwoBegin(sha: Hash): seq<JR.JournalCall> {
    [JR.JournalCall(BeginSession(Opening(sha, GENESIS, "a")), true), JR.JournalCall(BeginSession(Opening(sha, NG.ONES, "b")), true)]
  }

  /** The first session's BEGIN record. */
  function FirstBegin(sha: Hash): Record {
    Sealed(sha, BeginRecord(FRESH, Opening(sha, GENESIS, "a")))
  }

  lemma IdsApart()
    ensures Id(GENESIS) != Id(NG.ONES)
  {
    assert Id(GENESIS)[|SESSION_ID_PREFIX|] == GENESIS[0] == '0';
    assert Id(NG.ONES)[|SESSION_ID_PREFIX|] == NG.ONES[0] == '1';
  }

  /** Opening a session under a new id adds it to a journal that has no lineages. */
  lemma BeginScans(sha: Hash, s: Scan, b: BeginRequest)
    requires s.healthy && s.next <= MAX_U64 && s.lineages == [] && b.sessionId !in s.seen
    ensures var r := Sealed(sha, BeginRecord(s, b));
            var s' := ScanRecord(s, r);
            && s'.healthy && s'.lineages == [] && s'.seen == s.seen + {b.sessionId} && s'.used == s.used + {b.correlationId}
            && s'.open == s.open[b.sessionId := r]
  {
  }

  lemma OpensAnother(sha: Hash, calls: seq<JR.JournalCall>, s: Scan, b: BeginRequest)
    requires 0 < |calls| <= MAX_U64 && calls[|calls| - 1] == JR.JournalCall(BeginSession(b), true)
    requires JR.Running(sha, JR.RunJournal(sha, calls[..|calls| - 1]).journal, s)
    requires s.lineages == [] && b.sessionId !in s.seen && ValidBegin(b)
    ensures s.next <= MAX_U64
    ensures |JR.RunJournal(sha, calls).journal| == |JR.RunJournal(sha, calls[..|calls| - 1]).journal| + 1
    ensures JR.Running(sha, JR.RunJournal(sha, calls).journal, ScanRecord(s, Sealed(sha, BeginRecord(s, b))))
  {
    var before := JR.RunJournal(sha, calls[..|calls| - 1]).journal;
    JR.AppendIsPredicted(sha, before, BeginSession(b), true);
    assert Decide(s, BeginSession(b)) == Write(BeginRecord(s, b));
  }

  lemma LetterIsCorrelation(letter: Byte)
    requires 'a' <= letter <= 'z'
    ensures ValidCorrelation([letter])
  {
  }

  lemma OpeningIsValid(sha: Hash, digest: Digest, correlation: Text)
    requires ValidCorrelation(correlation)
    ensures ValidBegin(Opening(sha, digest, correlation))
  {
  }

  /** The two requests, each valid, under different ids. */
  lemma BothAreValid(sha: Hash)
    ensures ValidBegin(Opening(sha, GENESIS, "a")) && ValidBegin(Opening(sha, NG.ONES, "b"))
    ensures Opening(sha, GENESIS, "a").sessionId != Opening(sha, NG.ONES, "b").sessionId
  {
    LetterIsCorrelation('a');
    LetterIsCorrelation('b');
    OpeningIsValid(sha, GENESIS, "a");
    OpeningIsValid(sha, NG.ONES, "b");
    IdsApart();
  }

  lemma BothOpen(sha: Hash)
    ensures var journal := JR.RunJournal(sha, TwoBegin(sha)).journal;
            var s := ScanJournal(sha, journal);
            && |journal| == 2 && s.healthy && s.lineages == [] && s.used == {"a", "b"}
            && Id(GENESIS) in s.open && s.open[Id(GENESIS)] == FirstBegin(sha)
  {
    BothAreValid(sha);
    BothOpenInTurn(sha, TwoBegin(sha), Opening(sha, GENESIS, "a"), Opening(sha, NG.ONES, "b"));
  }

  lemma BothOpenInTurn(sha: Hash, calls: seq<JR.JournalCall>, b: BeginRequest, c: BeginRequest)
    requires calls == [JR.JournalCall(BeginSession(b), true), JR.JournalCall(BeginSession(c), true)]
    requires ValidBegin(b) && ValidBegin(c) && b.sessionId != c.sessionId
    ensures var journal := JR.RunJournal(sha, calls).journal;
            var s := ScanJournal(sha, journal);
            && |journal| == 2 && s.healthy && s.lineages == [] && s.used == {b.correlationId, c.correlationId}
            && b.sessionId in s.open && s.open[b.sessionId] == Sealed(sha, BeginRecord(FRESH, b))
  {
    var one := calls[..1];
    assert one[..|one| - 1] == [] && calls[..|calls| - 1] == one;
    OpensAnother(sha, one, FRESH, b);
    BeginScans(sha, FRESH, b);
    var s := ScanRecord(FRESH, Sealed(sha, BeginRecord(FRESH, b)));
    OpensAnother(sha, calls, s, c);
    BeginScans(sha, s, c);
  }

  // ----- a receipt for deciding about the first -----

  /** Retry the first session under the given child correlation. */
  function Unsigned(sha: Hash, child: Text): Authorization {
    Authorization(RetryAsNewSession, Id(GENESIS), FirstBegin(sha).recordSha256, child, Z.NoRetry, None)
  }

  function RecoveryReceipt(sha: Hash, scope: Text): AR.Receipt {
    NG.Signed(sha, AR.Envelope(2, AR.Recovery, Id(GENESIS), "b", "g", "k", "u", 1, 4, 3, "n", scope, [], 0, 0, [], []), "x")
  }

  function Retrying(sha: Hash, child: Text): Authorization {
    var a := Unsigned(sha, child);
    a.(receipt := Some(RecoveryReceipt(sha, AuthorityScope(sha, a))))
  }

  /** The authority ledger that trusts the signing key. */
  function Trusted(sha: Hash): AL.Store {
    AL.Run(NG.Trusting(sha), NG.Calls(sha)[..1])
  }

  lemma ReceiptIsAccepted(sha: Hash, l: AL.Ledger, scope: Digest)
    requires l.healthy && l.keys == map[AL.KeyMapId("g", "k") := NG.KEY] && l.parent == map[] && l.uses == map[] && l.reserved == map[]
    requires l.revoked == map[] && l.nonces == map[]
    ensures AL.JudgeAuthorize(NG.Trusting(sha), l, RecoveryReceipt(sha, scope), AR.Recovery, Id(GENESIS), scope, 2).Accept?
  {
    assert AR.VerifyReceipt(NG.Trusting(sha), RecoveryReceipt(sha, scope), AR.Recovery, Id(GENESIS)) == AR.Valid;
  }

  lemma GateOpens(sha: Hash, child: Text)
    ensures GateOutcome(NG.Trusting(sha), Trusted(sha), Retrying(sha, child), 2, true).status == AG.Allowed
  {
    var a := Retrying(sha, child);
    var scope := AuthorityScope(sha, a);
    NG.KeyIsTrusted(sha);
    ReceiptIsAccepted(sha, Trusted(sha).ledger, scope);
    AG.GateOpensExactly(NG.Trusting(sha), Trusted(sha), a.receipt, AR.Recovery, a.parentSessionId, scope, [], 2, true);
  }

  /** The first session may be retried; its child is fresh unless the second session took the correlation. */
  lemma NothingRefusesEarly(s: Scan, a: Authorization, template: ES.SessionRequest)
    requires s.healthy && s.lineages == [] && s.used == {"a", "b"} && ValidAuthorization(a) && Interrupted(s, a)
    requires a.decision == RetryAsNewSession && a.childCorrelationId != "a" && s.open[a.parentSessionId].correlationId == "a"
    ensures EarlyRefusal(s, a, Some(template)).None? && (ChildIsFresh(s, a) <==> a.childCorrelationId != "b")
  {
  }

  lemma FirstIsInterrupted(sha: Hash, child: Text)
    requires ValidCorrelation(child)
    ensures var s, a := ScanJournal(sha, JR.RunJournal(sha, TwoBegin(sha)).journal), Retrying(sha, child);
            ValidAuthorization(a) && Interrupted(s, a) && s.open[a.parentSessionId].correlationId == "a"
  {
    BothOpen(sha);
  }

  /** The retry of the first session reaches the journal. */
  lemma RetryReachesJournal(sha: Hash, child: Text, template: ES.SessionRequest)
    requires ValidCorrelation(child) && child != "a"
    ensures var s, a := ScanJournal(sha, JR.RunJournal(sha, TwoBegin(sha)).journal), Retrying(sha, child);
            && |JR.RunJournal(sha, TwoBegin(sha)).journal| == 2
            && EarlyRefusal(s, a, Some(template)).None? && (ChildIsFresh(s, a) <==> child != "b")
            && GateOutcome(NG.Trusting(sha), Trusted(sha), a, 2, true).status == AG.Allowed
            && a.receipt.Some? && Trusted(sha).ledger.UseCount(a.receipt.value.receiptId) == 0
  {
    BothOpen(sha);
    FirstIsInterrupted(sha, child);
    GateOpens(sha, child);
    NG.KeyIsTrusted(sha);
    NothingRefusesEarly(ScanJournal(sha, JR.RunJournal(sha, TwoBegin(sha)).journal), Retrying(sha, child), template);
  }

  /** A retry of the first session under the second's correlation: the use is gone and nothing is decided. */
  lemma TakenChildHappens(sha: Hash, template: ES.SessionRequest)
    ensures var crypto, journal, a := NG.Trusting(sha), JR.RunJournal(sha, TwoBegin(sha)).journal, Retrying(sha, "b");
            && |journal| == 2
            && var o := DecideRecovery(crypto, journal, Trusted(sha), a, Some(template), 2, true, true);
            && o.status == JournalError && o.journal == journal && a.receipt.Some?
            && Trusted(sha).ledger.UseCount(a.receipt.value.receiptId) == 0
            && o.authority.ledger.UseCount(a.receipt.value.receiptId) == 1
  {
    RetryReachesJournal(sha, "b", template);
    TakenChildBurnsUse(NG.Trusting(sha), JR.RunJournal(sha, TwoBegin(sha)).journal, Trusted(sha), Retrying(sha, "b"), Some(template),
                       2, true, true);
  }

  // ----- a crowded template -----

  function Template(tags: nat): ES.SessionRequest {
    var invocation := Forge.Invocation("a:0", "s", 0, 0, GENESIS, 0, []);
    ES.SessionRequest("a", 0, "p", Forge.ForgeRequest(invocation, [], 0, 0), Z.Budget(1, 1, 1, 1, 1, 0.0, 1), Z.NoRetry,
                      ES.SessionBudget(1, 1, 1, 1), "s", "t", seq(tags, _ => "g"), [], [])
  }

  lemma TemplateIsValid(tags: nat)
    requires tags <= 28
    ensures ES.ValidRequest(Template(tags)) && |Template(tags).dojoTags| == tags
  {
    assert ES.Correlated("a", "a:0");
  }

  /** A valid template of 27 or 28 tags goes through the decision and comes out as a child that cannot run. */
  lemma CrowdedTemplateHappens(sha: Hash, tags: nat)
    requires tags == 27 || tags == 28
    ensures var crypto, journal, a := NG.Trusting(sha), JR.RunJournal(sha, TwoBegin(sha)).journal, Retrying(sha, "c");
            && |journal| == 2
            && var o := DecideRecovery(crypto, journal, Trusted(sha), a, Some(Template(tags)), 2, true, true);
            ES.ValidRequest(Template(tags)) && o.status == RetryPrepared && o.child.Some? && !ES.ValidRequest(o.child.value)
  {
    RetryReachesJournal(sha, "c", Template(tags));
    TemplateIsValid(tags);
    CrowdedChildCannotRun(NG.Trusting(sha), JR.RunJournal(sha, TwoBegin(sha)).journal, Trusted(sha), Retrying(sha, "c"), Template(tags),
                          2, true, true);
  }
}
