/**
 The three gates in a row: a lease use spends one use of a session key, which spends one use of
 the delegated voucher behind it. Each ledger has its own journal, and any append may fail
 between two of them.
 */
module SpendingGates {
  import opened Wrappers
  import opened Text
  import opened HashChain
  import opened AuthorityReceipt
  import opened SessionKey
  import opened RuntimeLease
  import AL = AuthorityLedger
  import AG = AuthorityGate

  datatype Stores = Stores(authority: AL.Store, sessions: SessionStore, leases: LeaseStore)

  const NEW_STORES := Stores(AL.Store(AL.EMPTY, []), SessionStore(EMPTY_SESSIONS, []), LeaseStore(EMPTY_LEASES, []))

  /** What a gate asks permission for. */
  datatype Operation = Operation(purpose: Purpose, subject: Text, scope: Text, capability: Text)

  /** The clock as each ledger reads it, and whether each ledger's append reaches the disk. */
  datatype Circumstances = Circumstances(
    leaseCheckAt: u64, sessionCheckAt: u64, authorityAt: u64, sessionUseAt: u64, leaseUseAt: u64,
    authorityAppends: bool, sessionAppends: bool, leaseAppends: bool)

  // ----- the session-key gate -----

  datatype SessionGateOutcome = SessionGateOutcome(stores: Stores, status: SessionStatus)

  function SessionGate(crypto: Crypto, kv: KeyVerifier, t: Stores, b: Bundle, q: Operation, c: Circumstances): SessionGateOutcome {
    var preflight := Preflight(crypto, kv, t.sessions.ledger, b, q.purpose, q.subject, q.scope, q.capability, c.sessionCheckAt);
    if preflight != Allowed then SessionGateOutcome(t, preflight)
    else
      var backing := AG.GateAuthorize(crypto, t.authority, Some(b.voucher), q.purpose, q.subject, q.scope, q.capability,
                                      c.authorityAt, c.authorityAppends);
      if backing.status != AG.Allowed then SessionGateOutcome(t.(authority := backing.store), VoucherRejected)
      else
        var consumed := StepSession(crypto.sha, t.sessions, ConsumeSession(b.receipt.receiptId, c.sessionUseAt), c.sessionAppends);
        SessionGateOutcome(t.(authority := backing.store, sessions := consumed.store), consumed.status)
  }

  // ----- the runtime-lease gate -----

  datatype LeaseGateOutcome = LeaseGateOutcome(stores: Stores, status: LeaseStatus)

  function LeaseOperation(lease: Lease): Operation {
    Operation(lease.purpose, lease.subjectId, lease.scopeSha256, lease.capability)
  }

  function LeaseGate(crypto: Crypto, kv: KeyVerifier, t: Stores, lease: Lease, b: Bundle, observed: Binding, c: Circumstances): LeaseGateOutcome {
    var preflight := LeasePreflight(crypto.sha, kv, t.leases.ledger, lease, b, observed, c.leaseCheckAt);
    if preflight != Granted then LeaseGateOutcome(t, preflight)
    else
      var session := SessionGate(crypto, kv, t, b, LeaseOperation(lease), c);
      if session.status != Allowed then LeaseGateOutcome(session.stores, SessionKeyRejected)
      else
        var consumed := SettleLease(crypto.sha, session.stores.leases,
                                    JudgeLeaseUse(session.stores.leases.ledger, lease.leaseId, c.leaseUseAt), c.leaseAppends);
        LeaseGateOutcome(session.stores.(leases := consumed.store), consumed.status)
  }

  // ----- handing a session key its voucher -----

  datatype HandoffRequest = HandoffRequest(
    delegation: AG.DelegationRequest, certificateNonce: Text, receiptNonce: Text)

  datatype HandoffStatus =
    | HandoffIssued | HandoffInvalid | SameKey | HandoffVoucherRejected | HandoffKeyUnknown | HandoffFingerprintMismatch
    | CertificateSigningFailed | ReceiptSigningFailed | StoreRejected

  datatype HandoffOutcome = HandoffOutcome(stores: Stores, status: HandoffStatus, bundle: Option<Bundle>)

  predicate ValidHandoff(q: HandoffRequest) {
    var d := q.delegation;
    && d.parent.envelope.schemaVersion == 3
    && 0 < |d.actorReference| <= 256 && 0 < |d.issuedAtUtc| <= 128
    && ValidToken(d.nonce, 128) && ValidToken(q.certificateNonce, 128) && ValidToken(q.receiptNonce, 128)
    && ValidCapabilities(d.capabilities)
    && d.issuedAt != 0 && d.issuedAt < d.expiresAt && d.maxUses != 0
  }

  function HandoffChecks(kv: KeyVerifier, q: HandoffRequest, parentSigner: Signer, childSigner: KeySigner): HandoffStatus {
    var pe := q.delegation.parent.envelope;
    var id, key, algorithm := childSigner.signerId, childSigner.keyId, childSigner.algorithm;
    if !ValidHandoff(q) then HandoffInvalid
    else if parentSigner.signerId != pe.signerId || parentSigner.algorithm != q.delegation.parent.algorithm then HandoffInvalid
    else if !ValidToken(id, 128) || !ValidToken(key, 128) || !ValidToken(algorithm, 64) || !IsSha256(childSigner.fingerprint)
    then HandoffInvalid
    else if id == pe.signerId && key == pe.signerKeyId then SameKey
    else if !kv.knowsKey(id, key, algorithm) then HandoffKeyUnknown
    else if kv.fingerprintOf(id, key, algorithm) != Some(childSigner.fingerprint) then HandoffFingerprintMismatch
    else HandoffIssued
  }

  predicate UsableSignature(signature: Option<Text>) {
    signature.Some? && 0 < |signature.value| <= 2048
  }

  function SignCertificate(sha: Hash, voucher: Receipt, q: HandoffRequest, parentSigner: Signer, childSigner: KeySigner): Option<Certificate> {
    var v := voucher.envelope;
    var draft := Certificate(1, voucher.receiptId, v.signerId, v.signerKeyId, voucher.algorithm,
                             childSigner.signerId, childSigner.keyId, childSigner.algorithm, childSigner.fingerprint,
                             v.purpose, v.subjectId, v.scopePath, v.scopeSha256, v.capabilities,
                             v.issuedAt, v.expiresAt, v.maxUses, q.certificateNonce, [], [], []);
    var canonical := CanonicalCertificate(sha, draft);
    var signature := parentSigner.sign(canonical);
    if !UsableSignature(signature) then None
    else
      var signed := draft.(canonicalSha256 := sha(canonical), parentSignature := signature.value);
      Some(signed.(certificateId := CertificateId(sha, signed)))
  }

  function SignSessionReceipt(sha: Hash, c: Certificate, q: HandoffRequest, childSigner: KeySigner): Option<SessionReceipt> {
    var draft := SessionReceipt(1, c.certificateId, c.voucherId, childSigner.signerId, childSigner.keyId, childSigner.algorithm,
                                childSigner.fingerprint, c.purpose, c.subjectId, c.scopePath, c.scopeSha256, c.capabilities,
                                c.issuedAt, c.expiresAt, c.maxUses, q.receiptNonce, [], [], []);
    var canonical := CanonicalSessionReceipt(sha, draft);
    var signature := childSigner.sign(canonical);
    if !UsableSignature(signature) then None
    else
      var signed := draft.(canonicalSha256 := sha(canonical), signature := signature.value);
      Some(signed.(receiptId := SessionReceiptId(sha, signed)))
  }

  /** Certificate and session receipt for a voucher already delegated, checked before they are stored. */
  function BindBundle(crypto: Crypto, kv: KeyVerifier, voucher: Receipt, q: HandoffRequest, parentSigner: Signer,
                      childSigner: KeySigner): (HandoffStatus, Option<Bundle>)
  {
    match SignCertificate(crypto.sha, voucher, q, parentSigner, childSigner)
    case None => (CertificateSigningFailed, None)
    case Some(certificate) =>
      match SignSessionReceipt(crypto.sha, certificate, q, childSigner)
      case None => (ReceiptSigningFailed, None)
      case Some(receipt) =>
        var b := Bundle(voucher, certificate, receipt);
        if !VerifyCertificate(crypto, b) then (CertificateSigningFailed, None)
        else if !VerifyChildReceipt(crypto.sha, kv, b) then (ReceiptSigningFailed, None)
        else (HandoffIssued, Some(b))
  }

  /** Binds a delegated voucher to the session key and registers the bundle. */
  function FinishHandoff(crypto: Crypto, kv: KeyVerifier, t: Stores, delegated: Option<Receipt>, q: HandoffRequest, parentSigner: Signer,
                         childSigner: KeySigner, appends: bool): HandoffOutcome {
    match delegated
    case None => HandoffOutcome(t, HandoffVoucherRejected, None)
    case Some(voucher) =>
      var bound := BindBundle(crypto, kv, voucher, q, parentSigner, childSigner);
      if bound.1.None? then HandoffOutcome(t, bound.0, None)
      else
        var stored := StepSession(crypto.sha, t.sessions, RegisterBundle(bound.1.value), appends);
        if stored.status != Allowed then HandoffOutcome(t.(sessions := stored.store), StoreRejected, None)
        else HandoffOutcome(t.(sessions := stored.store), HandoffIssued, bound.1)
  }

  function Handoff(crypto: Crypto, kv: KeyVerifier, t: Stores, q: HandoffRequest, parentSigner: Signer, childSigner: KeySigner,
                   c: Circumstances): HandoffOutcome {
    var checked := HandoffChecks(kv, q, parentSigner, childSigner);
    if checked != HandoffIssued then HandoffOutcome(t, checked, None)
    else
      var voucher := AG.Delegate(crypto, t.authority, q.delegation, parentSigner, c.authorityAt, c.authorityAppends);
      FinishHandoff(crypto, kv, t.(authority := voucher.store), voucher.child, q, parentSigner, childSigner, c.sessionAppends)
  }

  lemma AcceptedDelegationVerifies(crypto: Crypto, l: AL.Ledger, parent: Receipt, child: Receipt, now: u64)
    requires AL.JudgeDelegation(crypto, l, parent, child, now).Accept?
    ensures VerifyReceipt(crypto, child, child.envelope.purpose, child.envelope.subjectId) == Valid
  {
  }

  lemma SettledAllowed(sha: Hash, st: AL.Store, verdict: AL.Verdict, appends: bool)
    requires verdict.Accept? ==> AL.Applicable(st.ledger, verdict.event)
    requires verdict.Refuse? ==> verdict.status != AL.Allowed
    ensures AL.Settle(sha, st, verdict, appends).status == AL.Allowed ==> verdict.Accept?
  {
  }

  lemma RegisteredChildVerifies(crypto: Crypto, st: AL.Store, parent: Receipt, child: Receipt, now: u64, appends: bool)
    requires AL.Step(crypto, st, AL.RegisterDelegation(parent, child, now), appends).status == AL.Allowed
    ensures VerifyReceipt(crypto, child, child.envelope.purpose, child.envelope.subjectId) == Valid
  {
    SettledAllowed(crypto.sha, st, AL.Judge(crypto, st.ledger, AL.RegisterDelegation(parent, child, now)), appends);
    AcceptedDelegationVerifies(crypto, st.ledger, parent, child, now);
  }

  lemma DelegatedChildVerifies(crypto: Crypto, st: AL.Store, q: AG.DelegationRequest, signer: Signer, now: u64, appends: bool)
    requires AG.Delegate(crypto, st, q, signer, now, appends).child.Some?
    ensures var child := AG.Delegate(crypto, st, q, signer, now, appends).child.value;
            VerifyReceipt(crypto, child, child.envelope.purpose, child.envelope.subjectId) == Valid
  {
    var child := AG.Delegate(crypto, st, q, signer, now, appends).child.value;
    RegisteredChildVerifies(crypto, st, q.parent, child, now, appends);
  }

  lemma BoundBundleVerifies(crypto: Crypto, kv: KeyVerifier, voucher: Receipt, q: HandoffRequest, parentSigner: Signer, childSigner: KeySigner)
    requires BindBundle(crypto, kv, voucher, q, parentSigner, childSigner).1.Some?
    ensures var b := BindBundle(crypto, kv, voucher, q, parentSigner, childSigner).1.value;
            b.voucher == voucher && VerifyCertificate(crypto, b) && VerifyChildReceipt(crypto.sha, kv, b)
  {
  }

  lemma RegisteredBundleMatches(sha: Hash, st: SessionStore, b: Bundle, appends: bool)
    requires StepSession(sha, st, RegisterBundle(b), appends).status == Allowed
    ensures var l := StepSession(sha, st, RegisterBundle(b), appends).store.ledger;
            l.healthy && b.receipt.receiptId in l.registrations && RegistrationMatches(l.registrations[b.receipt.receiptId], b)
  {
  }

  lemma FinishedHandoff(crypto: Crypto, kv: KeyVerifier, t: Stores, delegated: Option<Receipt>, q: HandoffRequest, parentSigner: Signer,
                        childSigner: KeySigner, appends: bool)
    requires FinishHandoff(crypto, kv, t, delegated, q, parentSigner, childSigner, appends).status == HandoffIssued
    ensures var o := FinishHandoff(crypto, kv, t, delegated, q, parentSigner, childSigner, appends);
            && delegated.Some? && o.bundle.Some? && o.bundle.value.voucher == delegated.value
            && VerifyCertificate(crypto, o.bundle.value) && VerifyChildReceipt(crypto.sha, kv, o.bundle.value)
            && var l, b := o.stores.sessions.ledger, o.bundle.value;
               l.healthy && b.receipt.receiptId in l.registrations && RegistrationMatches(l.registrations[b.receipt.receiptId], b)
  {
    BoundBundleVerifies(crypto, kv, delegated.value, q, parentSigner, childSigner);
    var bound := BindBundle(crypto, kv, delegated.value, q, parentSigner, childSigner);
    RegisteredBundleMatches(crypto.sha, t.sessions, bound.1.value, appends);
  }

  /** A verified, registered bundle passes every check of its voucher's own operation that needs no clock. */
  lemma VerifiedBundleChecks(crypto: Crypto, kv: KeyVerifier, l: SessionLedger, b: Bundle, capability: Text)
    requires l.healthy && b.receipt.receiptId in l.registrations && RegistrationMatches(l.registrations[b.receipt.receiptId], b)
    requires VerifyReceipt(crypto, b.voucher, b.voucher.envelope.purpose, b.voucher.envelope.subjectId) == Valid
    requires VerifyCertificate(crypto, b) && VerifyChildReceipt(crypto.sha, kv, b)
    ensures var v := b.voucher.envelope;
            BundleChecks(crypto, kv, l, b, v.purpose, v.subjectId, v.scopeSha256, capability)
            == if capability in v.capabilities && ValidCapability(capability) then Allowed else CapabilityMismatch
  {
    assert IsSha256(b.voucher.envelope.scopeSha256);
    assert capability in Names(b.receipt.capabilities) <==> capability in Names(b.voucher.envelope.capabilities);
  }

  /**
   An issued bundle is usable as it stands: for its voucher's operation, preflight can refuse it only for a capability
   the voucher does not hold, the clock, a revocation, or a spent budget.
   */
  lemma IssuedBundleIsUsable(crypto: Crypto, kv: KeyVerifier, t: Stores, q: HandoffRequest, parentSigner: Signer, childSigner: KeySigner,
                             c: Circumstances, capability: Text)
    requires Handoff(crypto, kv, t, q, parentSigner, childSigner, c).status == HandoffIssued
    ensures var o := Handoff(crypto, kv, t, q, parentSigner, childSigner, c);
            && o.bundle.Some?
            && var v := o.bundle.value.voucher.envelope;
               BundleChecks(crypto, kv, o.stores.sessions.ledger, o.bundle.value, v.purpose, v.subjectId, v.scopeSha256, capability)
               == if capability in v.capabilities && ValidCapability(capability) then Allowed else CapabilityMismatch
  {
    var voucher := AG.Delegate(crypto, t.authority, q.delegation, parentSigner, c.authorityAt, c.authorityAppends);
    var o := Handoff(crypto, kv, t, q, parentSigner, childSigner, c);
    FinishedHandoff(crypto, kv, t.(authority := voucher.store), voucher.child, q, parentSigner, childSigner, c.sessionAppends);
    DelegatedChildVerifies(crypto, t.authority, q.delegation, parentSigner, c.authorityAt, c.authorityAppends);
    VerifiedBundleChecks(crypto, kv, o.stores.sessions.ledger, o.bundle.value, capability);
  }

  // ----- runs that spend session keys and leases only through the gates -----

  datatype Move =
    | OnAuthority(op: AL.Op, appends: bool)
    | OnSessions(sessionOp: SessionOp, appends: bool)
    | RegisterLease(lease: Lease, bundle: Bundle, now: u64, appends: bool)
    | RevokeLease(id: Text, at: u64, appends: bool)
    | IssueHandoff(request: HandoffRequest, parentSigner: Signer, childSigner: KeySigner, circumstances: Circumstances)
    | SpendSession(bundle: Bundle, operation: Operation, circumstances: Circumstances)
    | SpendLease(lease: Lease, bundle: Bundle, observed: Binding, circumstances: Circumstances)

  /** Session uses are consumed only by the gate. */
  predicate ThroughGates(m: Move) {
    m.OnSessions? ==> !m.sessionOp.ConsumeSession?
  }

  function Perform(crypto: Crypto, kv: KeyVerifier, t: Stores, m: Move): Stores {
    match m
    case OnAuthority(op, appends) => t.(authority := AL.Step(crypto, t.authority, op, appends).store)
    case OnSessions(op, appends) => t.(sessions := StepSession(crypto.sha, t.sessions, op, appends).store)
    case RegisterLease(lease, b, now, appends) =>
      t.(leases := SettleLease(crypto.sha, t.leases, JudgeRegister(crypto.sha, kv, t.leases.ledger, lease, b, now), appends).store)
    case RevokeLease(id, at, appends) =>
      t.(leases := SettleLease(crypto.sha, t.leases, JudgeLeaseRevoke(t.leases.ledger, id, at), appends).store)
    case IssueHandoff(q, parentSigner, childSigner, c) => Handoff(crypto, kv, t, q, parentSigner, childSigner, c).stores
    case SpendSession(b, q, c) => SessionGate(crypto, kv, t, b, q, c).stores
    case SpendLease(lease, b, observed, c) => LeaseGate(crypto, kv, t, lease, b, observed, c).stores
  }

  function PerformAll(crypto: Crypto, kv: KeyVerifier, moves: seq<Move>): Stores {
    if moves == [] then NEW_STORES
    else Perform(crypto, kv, PerformAll(crypto, kv, moves[..|moves| - 1]), moves[|moves| - 1])
  }
}
