/** What the authority ledger never takes back: nonce bindings, revocations, and the shrinking of key windows. */
module AuthorityFinality {
  import opened Wrappers
  import opened Text
  import opened HashChain
  import opened AuthorityReceipt
  import opened AuthorityLedger

  // ----- what later ledgers keep -----

  ghost predicate NoncesKept(l: Ledger, l': Ledger) {
    forall n | n in l.nonces :: n in l'.nonces && l'.nonces[n] == l.nonces[n]
  }

  ghost predicate ReceiptsKept(l: Ledger, l': Ledger) {
    forall id | id in l.revoked :: id in l'.revoked && l'.revoked[id] == l.revoked[id]
  }

  /** The key keeps its algorithm, start and revocation, and its end only moves closer. */
  predicate Tightened(k: SignerKey, k': SignerKey) {
    && k'.algorithm == k.algorithm && k'.validFrom == k.validFrom
    && (k.revokedAt != 0 ==> k'.revokedAt == k.revokedAt)
    && (k.validUntil != 0 ==> 0 < k'.validUntil <= k.validUntil)
  }

  ghost predicate KeysKept(l: Ledger, l': Ledger) {
    forall id | id in l.keys :: id in l'.keys && Tightened(l.keys[id], l'.keys[id])
  }

  ghost predicate Kept(l: Ledger, l': Ledger) {
    NoncesKept(l, l') && ReceiptsKept(l, l') && KeysKept(l, l')
  }

  lemma KeptTransitive(l: Ledger, m: Ledger, n: Ledger)
    requires Kept(l, m) && Kept(m, n)
    ensures Kept(l, n)
  {
  }

  // ----- one step -----

  lemma UseKeeps(crypto: Crypto, l: Ledger, r: Receipt, purpose: Purpose, subject: Text, scope: Text, now: u64)
    requires JudgeAuthorize(crypto, l, r, purpose, subject, scope, now).Accept?
    ensures var l' := Apply(l, JudgeAuthorize(crypto, l, r, purpose, subject, scope, now).event);
            Kept(l, l') && l'.NonceFree(EnvelopeNonce(r.envelope), r.receiptId) && EnvelopeNonce(r.envelope) in l'.nonces
  {
    SpendingKeeps(l, r, now);
  }

  lemma SpendingKeeps(l: Ledger, r: Receipt, now: u64)
    requires UseBudget(l, r, now).Accept? && l.NonceFree(EnvelopeNonce(r.envelope), r.receiptId)
    ensures var l' := Apply(l, UseBudget(l, r, now).event);
            Kept(l, l') && l'.NonceFree(EnvelopeNonce(r.envelope), r.receiptId) && EnvelopeNonce(r.envelope) in l'.nonces
  {
  }

  lemma ReservingKeeps(l: Ledger, p: Receipt, c: Receipt, now: u64)
    requires DelegationBudget(l, p, c, now).Accept?
    requires l.NonceFree(EnvelopeNonce(p.envelope), p.receiptId) && l.NonceFree(EnvelopeNonce(c.envelope), c.receiptId)
    requires p.envelope.signerId == c.envelope.signerId && p.envelope.signerKeyId == c.envelope.signerKeyId
    ensures Kept(l, Apply(l, DelegationBudget(l, p, c, now).event))
  {
  }

  lemma DelegationKeeps(crypto: Crypto, l: Ledger, p: Receipt, c: Receipt, now: u64)
    requires JudgeDelegation(crypto, l, p, c, now).Accept?
    ensures Kept(l, Apply(l, JudgeDelegation(crypto, l, p, c, now).event))
  {
    ReservingKeeps(l, p, c, now);
  }

  lemma AdministrationKeeps(crypto: Crypto, l: Ledger, op: Op)
    requires op.TrustKey? || op.RetireKey? || op.RevokeKey? || op.RevokeReceipt?
    requires Judge(crypto, l, op).Accept?
    ensures Kept(l, Apply(l, Judge(crypto, l, op).event))
  {
  }

  lemma JudgedKeeps(crypto: Crypto, l: Ledger, op: Op)
    requires Judge(crypto, l, op).Accept?
    ensures Kept(l, Apply(l, Judge(crypto, l, op).event))
  {
    match op
    case RegisterDelegation(p, c, now) => DelegationKeeps(crypto, l, p, c, now);
    case Authorize(r, purpose, subject, scope, now) => UseKeeps(crypto, l, r, purpose, subject, scope, now);
    case _ => AdministrationKeeps(crypto, l, op);
  }

  lemma AdvanceKeeps(sha: Hash, l: Ledger, m: Ledger, body: seq<Text>)
    requires Kept(l, m)
    ensures Kept(l, Advance(sha, m, body))
  {
  }

  lemma StepKeeps(crypto: Crypto, st: Store, op: Op, appends: bool)
    ensures Kept(st.ledger, Step(crypto, st, op, appends).store.ledger)
  {
    if Judge(crypto, st.ledger, op).Accept? && st.ledger.healthy && appends {
      var e := Judge(crypto, st.ledger, op).event;
      JudgedKeeps(crypto, st.ledger, op);
      AdvanceKeeps(crypto.sha, st.ledger, Apply(st.ledger, e), Print(e));
    }
  }

  /** Along any run, whatever was bound, revoked or retired stays so. */
  lemma {:induction false} RunKeeps(crypto: Crypto, calls: seq<Call>, k: nat)
    requires k <= |calls|
    ensures Kept(Run(crypto, calls[..k]).ledger, Run(crypto, calls).ledger)
    decreases |calls|
  {
    if k == |calls| {
      assert calls[..k] == calls;
    } else {
      var front, last := calls[..|calls| - 1], calls[|calls| - 1];
      assert front[..k] == calls[..k];
      RunKeeps(crypto, front, k);
      StepKeeps(crypto, Run(crypto, front), last.op, last.appends);
      KeptTransitive(Run(crypto, calls[..k]).ledger, Run(crypto, front).ledger, Run(crypto, calls).ledger);
    }
  }

  // ----- nonces -----

  /** Call `i` was accepted and journaled. */
  predicate Commits(crypto: Crypto, calls: seq<Call>, i: nat)
    requires i < |calls|
  {
    var l := Run(crypto, calls[..i]).ledger;
    Judge(crypto, l, calls[i].op).Accept? && l.healthy && calls[i].appends
  }

  lemma AfterCommit(crypto: Crypto, calls: seq<Call>, i: nat)
    requires i < |calls| && Commits(crypto, calls, i)
    ensures var l := Run(crypto, calls[..i]).ledger;
            var e := Judge(crypto, l, calls[i].op).event;
            Run(crypto, calls[..i + 1]).ledger == Advance(crypto.sha, Apply(l, e), Print(e))
  {
    assert calls[..i + 1][..i] == calls[..i];
  }

  /** The receipts a call presents under a nonce. */
  function Claims(op: Op, n: Text): set<Text> {
    match op
    case Authorize(r, _, _, _, _) => if EnvelopeNonce(r.envelope) == n then {r.receiptId} else {}
    case RegisterDelegation(p, c, _) =>
      (if EnvelopeNonce(p.envelope) == n then {p.receiptId} else {}) + (if EnvelopeNonce(c.envelope) == n then {c.receiptId} else {})
    case _ => {}
  }

  /** The receipt a committed call leaves the nonce to: of a parent and a child that share it, the child. */
  function Holder(op: Op, n: Text): Option<Text> {
    match op
    case Authorize(r, _, _, _, _) => if EnvelopeNonce(r.envelope) == n then Some(r.receiptId) else None
    case RegisterDelegation(p, c, _) =>
      if EnvelopeNonce(c.envelope) == n then Some(c.receiptId)
      else if EnvelopeNonce(p.envelope) == n then Some(p.receiptId)
      else None
    case _ => None
  }

  /** The call registers a child under the nonce of its parent, and this is the parent. */
  predicate SharesChildNonce(op: Op, id: Text) {
    && op.RegisterDelegation? && id == op.parent.receiptId
    && EnvelopeNonce(op.parent.envelope) == EnvelopeNonce(op.child.envelope)
  }

  lemma HolderClaims(op: Op, n: Text)
    ensures Claims(op, n) == {} <==> Holder(op, n).None?
    ensures Holder(op, n).Some? ==> Holder(op, n).value in Claims(op, n)
    ensures forall id | id in Claims(op, n) && Holder(op, n) != Some(id) :: SharesChildNonce(op, id)
  {
  }

  /**
   A nonce belongs to one receipt. A committed call that presents anything under a nonce leaves it to one of the receipts
   it presents; only a parent that shares its child's nonce is passed over. Whatever a later committed call presents
   under the nonce, in a use or a registration, as parent or as child, is that receipt.
   */
  lemma OneReceiptPerNonce(crypto: Crypto, calls: seq<Call>, i: nat, j: nat, n: Text)
    requires i < j < |calls| && Commits(crypto, calls, i) && Commits(crypto, calls, j) && Claims(calls[i].op, n) != {}
    ensures Holder(calls[i].op, n).Some? && Holder(calls[i].op, n).value in Claims(calls[i].op, n)
    ensures forall id | id in Claims(calls[i].op, n) && id != Holder(calls[i].op, n).value :: SharesChildNonce(calls[i].op, id)
    ensures forall id | id in Claims(calls[j].op, n) :: id == Holder(calls[i].op, n).value
  {
    HolderClaims(calls[i].op, n);
    BoundByCommit(crypto, calls, i, n);
    assert calls[..j][..i + 1] == calls[..i + 1];
    RunKeeps(crypto, calls[..j], i + 1);
    ClaimsAreFree(crypto, Run(crypto, calls[..j]).ledger, calls[j].op, n);
  }

  /** A committed call binds the nonce to its holder. */
  lemma BoundByCommit(crypto: Crypto, calls: seq<Call>, i: nat, n: Text)
    requires i < |calls| && Commits(crypto, calls, i) && Holder(calls[i].op, n).Some?
    ensures var l' := Run(crypto, calls[..i + 1]).ledger; n in l'.nonces && l'.nonces[n] == Holder(calls[i].op, n).value
  {
    JudgedBinds(crypto, Run(crypto, calls[..i]).ledger, calls[i].op, n);
    AfterCommit(crypto, calls, i);
  }

  lemma JudgedBinds(crypto: Crypto, l: Ledger, op: Op, n: Text)
    requires Judge(crypto, l, op).Accept? && Holder(op, n).Some?
    ensures var l' := Apply(l, Judge(crypto, l, op).event); n in l'.nonces && l'.nonces[n] == Holder(op, n).value
  {
    match op
    case Authorize(r, purpose, subject, scope, now) => UseKeeps(crypto, l, r, purpose, subject, scope, now);
    case RegisterDelegation(p, c, now) =>
      AcceptedShareSigner(crypto, l, p, c, now);
      ReservingBinds(l, p, c, now, n);
  }

  lemma ReservingBinds(l: Ledger, p: Receipt, c: Receipt, now: u64, n: Text)
    requires DelegationBudget(l, p, c, now).Accept? && Holder(RegisterDelegation(p, c, now), n).Some?
    requires p.envelope.signerId == c.envelope.signerId && p.envelope.signerKeyId == c.envelope.signerKeyId
    ensures var l' := Apply(l, DelegationBudget(l, p, c, now).event);
            n in l'.nonces && l'.nonces[n] == Holder(RegisterDelegation(p, c, now), n).value
  {
  }

  lemma ClaimsAreFree(crypto: Crypto, l: Ledger, op: Op, n: Text)
    requires Judge(crypto, l, op).Accept?
    ensures forall id | id in Claims(op, n) :: l.NonceFree(n, id)
  {
    match op
    case Authorize(r, purpose, subject, scope, now) => JudgedNonceFree(crypto, l, r, purpose, subject, scope, now);
    case RegisterDelegation(p, c, now) => RegisteredNoncesFree(crypto, l, p, c, now);
    case _ =>
  }

  lemma JudgedNonceFree(crypto: Crypto, l: Ledger, r: Receipt, purpose: Purpose, subject: Text, scope: Text, now: u64)
    requires JudgeAuthorize(crypto, l, r, purpose, subject, scope, now).Accept?
    ensures l.NonceFree(EnvelopeNonce(r.envelope), r.receiptId)
  {
  }

  lemma RegisteredNoncesFree(crypto: Crypto, l: Ledger, p: Receipt, c: Receipt, now: u64)
    requires JudgeDelegation(crypto, l, p, c, now).Accept?
    ensures l.NonceFree(EnvelopeNonce(p.envelope), p.receiptId) && l.NonceFree(EnvelopeNonce(c.envelope), c.receiptId)
  {
  }

  /** Registration leaves the parent's nonce to the parent exactly when the child brings a nonce of its own. */
  lemma NonceAfterDelegation(l: Ledger, p: Receipt, c: Receipt, now: u64)
    requires DelegationBudget(l, p, c, now).Accept? && p.receiptId != c.receiptId
    requires p.envelope.signerId == c.envelope.signerId && p.envelope.signerKeyId == c.envelope.signerKeyId
    ensures var l' := Apply(l, DelegationBudget(l, p, c, now).event);
            && EnvelopeNonce(p.envelope) in l'.nonces
            && (l'.NonceFree(EnvelopeNonce(p.envelope), p.receiptId) <==> EnvelopeNonce(p.envelope) != EnvelopeNonce(c.envelope))
  {
  }

  /**
   A child registered under its parent's own nonce takes the nonce over for good: no later call can use the parent or
   delegate from it again, although its budget is not spent.
   */
  lemma SharedNonceStrandsParent(crypto: Crypto, calls: seq<Call>, i: nat, purpose: Purpose, subject: Text, scope: Text,
                                 other: Receipt, now: u64)
    requires i < |calls| && Commits(crypto, calls, i) && calls[i].op.RegisterDelegation?
    requires var p, c := calls[i].op.parent, calls[i].op.child;
             p.receiptId != c.receiptId && EnvelopeNonce(p.envelope) == EnvelopeNonce(c.envelope)
    ensures var l, p := Run(crypto, calls).ledger, calls[i].op.parent;
            && JudgeAuthorize(crypto, l, p, purpose, subject, scope, now).Refuse?
            && JudgeDelegation(crypto, l, p, other, now).Refuse?
  {
    var l, p, c := Run(crypto, calls[..i]).ledger, calls[i].op.parent, calls[i].op.child;
    AcceptedShareSigner(crypto, l, p, c, calls[i].op.now);
    NonceAfterDelegation(l, p, c, calls[i].op.now);
    AfterCommit(crypto, calls, i);
    RunKeeps(crypto, calls, i + 1);
    BoundElsewhereIsRefused(crypto, Run(crypto, calls).ledger, p, purpose, subject, scope, other, now);
  }

  lemma BoundElsewhereIsRefused(crypto: Crypto, l: Ledger, p: Receipt, purpose: Purpose, subject: Text, scope: Text,
                                other: Receipt, now: u64)
    requires !l.NonceFree(EnvelopeNonce(p.envelope), p.receiptId)
    ensures JudgeAuthorize(crypto, l, p, purpose, subject, scope, now).Refuse?
    ensures JudgeDelegation(crypto, l, p, other, now).Refuse?
  {
  }

  lemma AcceptedShareSigner(crypto: Crypto, l: Ledger, p: Receipt, c: Receipt, now: u64)
    requires JudgeDelegation(crypto, l, p, c, now).Accept?
    ensures p.envelope.signerId == c.envelope.signerId && p.envelope.signerKeyId == c.envelope.signerKeyId
    ensures DelegationBudget(l, p, c, now) == JudgeDelegation(crypto, l, p, c, now)
  {
  }

  // ----- revocation -----

  /** A receipt revoked at some point of a run is refused from then on, at every time from its revocation. */
  lemma RevokedReceiptStaysRefused(crypto: Crypto, calls: seq<Call>, k: nat, r: Receipt, purpose: Purpose, subject: Text, scope: Text,
                                   now: u64)
    requires k <= |calls| && Run(crypto, calls[..k]).ledger.RevokedAt(r.receiptId, now)
    ensures JudgeAuthorize(crypto, Run(crypto, calls).ledger, r, purpose, subject, scope, now).Refuse?
  {
    RunKeeps(crypto, calls, k);
  }

  /** So is every receipt of a key revoked at some point of a run. */
  lemma RevokedKeyStaysRefused(crypto: Crypto, calls: seq<Call>, k: nat, r: Receipt, purpose: Purpose, subject: Text, scope: Text,
                               now: u64)
    requires k <= |calls| && EnvelopeKey(r.envelope) in Run(crypto, calls[..k]).ledger.keys
    requires KeyRevokedAt(Run(crypto, calls[..k]).ledger.keys[EnvelopeKey(r.envelope)], now)
    ensures JudgeAuthorize(crypto, Run(crypto, calls).ledger, r, purpose, subject, scope, now).Refuse?
  {
    RunKeeps(crypto, calls, k);
  }
}
