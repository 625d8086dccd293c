/**
 Runtime leases: a session key lends one of its capabilities to one running process, and the
 lease ledger counts the uses.
 */
module RuntimeLease {
  import opened Wrappers
  import opened Text
  import opened HashChain
  import opened AuthorityReceipt
  import opened SessionKey

  datatype Binding = Binding(
    deviceId: Text, executableSha256: Text, processSha256: Text, slotId: Text, sessionId: Text, layer: nat)

  datatype Lease = Lease(
    schemaVersion: u32,
    sessionReceiptId: Text, certificateId: Text,
    signerId: Text, keyId: Text, algorithm: Text, fingerprint: Text,
    purpose: Purpose, subjectId: Text, scopePath: Text, scopeSha256: Text, capability: Text,
    binding: Binding,
    issuedAt: u64, expiresAt: u64, maxUses: u32, nonce: Text,
    canonicalSha256: Text, signature: Text, leaseId: Text)

  const LEASE_PREFIX: Text := "guff:lease:sha256:"
  const HARDWARE_PREFIX: Text := "guff:hardware:sha256:"
  const TRANSACTION_PREFIX: Text := "guff:session:sha256:"

  predicate ValidBinding(b: Binding) {
    && PrefixedSha256(b.deviceId, HARDWARE_PREFIX)
    && IsSha256(b.executableSha256) && IsSha256(b.processSha256)
    && ValidToken(b.slotId, 192)
    && PrefixedSha256(b.sessionId, TRANSACTION_PREFIX)
  }

  function BindingLines(b: Binding): seq<Text> {
    [b.deviceId, b.executableSha256, b.processSha256, b.slotId, b.sessionId, Dec(b.layer)]
  }

  function BindingSha256(sha: Hash, b: Binding): Text {
    sha(JoinLines(BindingLines(b)))
  }

  function CanonicalLease(l: Lease): Text {
    JoinLines([Dec(l.schemaVersion), l.sessionReceiptId, l.certificateId, l.signerId, l.keyId, l.algorithm, l.fingerprint,
               Dec(l.purpose.Code()), l.subjectId, l.scopePath, l.scopeSha256, l.capability]
              + BindingLines(l.binding)
              + [Dec(l.issuedAt), Dec(l.expiresAt), Dec(l.maxUses), l.nonce])
  }

  function LeaseId(sha: Hash, l: Lease): (id: Text)
    ensures PrefixedSha256(id, LEASE_PREFIX)
  {
    var hash := sha(CanonicalLease(l) + "\n" + l.signature);
    assert (LEASE_PREFIX + hash)[|LEASE_PREFIX|..] == hash;
    LEASE_PREFIX + hash
  }

  // ----- validation against the session-key branch -----

  datatype LeaseStatus =
    | Granted | InvalidLease | LeaseNotRegistered | LeaseSignatureRejected | KeyMismatch | SessionKeyMismatch
    | DeviceMismatch | ExecutableMismatch | ProcessMismatch | SlotMismatch | SessionMismatch | LayerMismatch
    | LeaseExpired | LeaseUseLimitReached | LeaseRevoked | SessionKeyRejected | LeaseStorageError | LeaseCorrupt

  predicate SameBranch(lease: Lease, b: Bundle) {
    && lease.schemaVersion == 1
    && lease.sessionReceiptId == b.receipt.receiptId && lease.certificateId == b.certificate.certificateId
    && lease.signerId == b.receipt.signerId && lease.keyId == b.receipt.keyId && lease.algorithm == b.receipt.algorithm
    && lease.fingerprint == b.receipt.fingerprint
    && lease.purpose == b.receipt.purpose && lease.subjectId == b.receipt.subjectId
    && lease.scopePath == b.receipt.scopePath && lease.scopeSha256 == b.receipt.scopeSha256
  }

  predicate WithinBranch(lease: Lease, b: Bundle) {
    && ValidBinding(lease.binding) && ValidToken(lease.capability, 192) && ValidToken(lease.nonce, 128)
    && IsSha256(lease.scopeSha256) && IsSha256(lease.fingerprint)
    && b.receipt.issuedAt <= lease.issuedAt && lease.expiresAt <= b.receipt.expiresAt
    && lease.issuedAt < lease.expiresAt
    && 1 <= lease.maxUses <= b.receipt.maxUses
    && lease.capability in b.receipt.capabilities
  }

  function ValidateLease(sha: Hash, kv: KeyVerifier, lease: Lease, b: Bundle): LeaseStatus {
    if !SameBranch(lease, b) then SessionKeyMismatch
    else if !WithinBranch(lease, b) then InvalidLease
    else if lease.canonicalSha256 != sha(CanonicalLease(lease)) || lease.leaseId != LeaseId(sha, lease) then LeaseSignatureRejected
    else if !kv.knowsKey(lease.signerId, lease.keyId, lease.algorithm) then KeyMismatch
    else if kv.fingerprintOf(lease.signerId, lease.keyId, lease.algorithm) != Some(lease.fingerprint) then KeyMismatch
    else if !kv.verifyKey(lease.signerId, lease.keyId, lease.algorithm, CanonicalLease(lease), lease.signature)
    then LeaseSignatureRejected
    else Granted
  }

  // ----- ledger -----

  datatype LeaseRegistration = LeaseRegistration(
    sessionReceiptId: Text, certificateId: Text, signerId: Text, keyId: Text, fingerprint: Text, bindingSha256: Text,
    expiresAt: u64, maxUses: u32)

  datatype LeaseLedger = LeaseLedger(
    registrations: map<Text, LeaseRegistration>,
    uses: map<Text, nat>,
    revoked: map<Text, u64>,
    sequence: nat,
    head: Text,
    healthy: bool)
  {
    function UseCount(id: Text): nat {
      if id in uses then uses[id] else 0
    }
  }

  datatype LeaseStore = LeaseStore(ledger: LeaseLedger, journal: seq<Text>)

  const EMPTY_LEASES := LeaseLedger(map[], map[], map[], 0, [], true)

  datatype LeaseEvent =
    | Leased(id: Text, registration: LeaseRegistration)
    | LeaseUsed(id: Text, use: u64, at: u64)
    | LeaseWasRevoked(id: Text, at: u64)

  datatype LeaseVerdict = RefuseLease(status: LeaseStatus, useCount: nat) | AcceptLease(event: LeaseEvent, useCount: nat)

  function LeaseRegistrationOf(sha: Hash, lease: Lease): LeaseRegistration {
    LeaseRegistration(lease.sessionReceiptId, lease.certificateId, lease.signerId, lease.keyId, lease.fingerprint,
                      BindingSha256(sha, lease.binding), lease.expiresAt, lease.maxUses)
  }

  function JudgeRegister(sha: Hash, kv: KeyVerifier, l: LeaseLedger, lease: Lease, b: Bundle, now: u64): LeaseVerdict {
    if !l.healthy then RefuseLease(LeaseCorrupt, 0)
    else if ValidateLease(sha, kv, lease, b) != Granted then RefuseLease(ValidateLease(sha, kv, lease, b), 0)
    else if lease.leaseId in l.registrations then RefuseLease(LeaseNotRegistered, 0)
    else if lease.expiresAt <= now then RefuseLease(LeaseExpired, 0)
    else AcceptLease(Leased(lease.leaseId, LeaseRegistrationOf(sha, lease)), 0)
  }

  function BindingStatus(observed: Binding, bound: Binding): LeaseStatus {
    if !ValidBinding(observed) then InvalidLease
    else if observed.deviceId != bound.deviceId then DeviceMismatch
    else if observed.executableSha256 != bound.executableSha256 then ExecutableMismatch
    else if observed.processSha256 != bound.processSha256 then ProcessMismatch
    else if observed.slotId != bound.slotId then SlotMismatch
    else if observed.sessionId != bound.sessionId then SessionMismatch
    else if observed.layer != bound.layer then LayerMismatch
    else Granted
  }

  function LeasePreflight(sha: Hash, kv: KeyVerifier, l: LeaseLedger, lease: Lease, b: Bundle, observed: Binding, now: u64): LeaseStatus {
    if !l.healthy then LeaseCorrupt
    else if ValidateLease(sha, kv, lease, b) != Granted then ValidateLease(sha, kv, lease, b)
    else if lease.leaseId !in l.registrations then LeaseNotRegistered
    else if l.registrations[lease.leaseId] != LeaseRegistrationOf(sha, lease) then LeaseNotRegistered
    else if BindingStatus(observed, lease.binding) != Granted then BindingStatus(observed, lease.binding)
    else if lease.leaseId in l.revoked then LeaseRevoked
    else if lease.expiresAt <= now then LeaseExpired
    else if l.UseCount(lease.leaseId) >= lease.maxUses then LeaseUseLimitReached
    else Granted
  }

  function JudgeLeaseUse(l: LeaseLedger, id: Text, now: u64): LeaseVerdict {
    if !l.healthy then RefuseLease(LeaseCorrupt, 0)
    else if id !in l.registrations then RefuseLease(LeaseNotRegistered, 0)
    else if id in l.revoked then RefuseLease(LeaseRevoked, 0)
    else if l.registrations[id].expiresAt <= now then RefuseLease(LeaseExpired, 0)
    else if l.UseCount(id) >= l.registrations[id].maxUses then RefuseLease(LeaseUseLimitReached, l.UseCount(id))
    else AcceptLease(LeaseUsed(id, l.UseCount(id) + 1, now), l.UseCount(id) + 1)
  }

  function JudgeLeaseRevoke(l: LeaseLedger, id: Text, at: u64): LeaseVerdict {
    if !PrefixedSha256(id, LEASE_PREFIX) || at == 0 then RefuseLease(InvalidLease, 0)
    else if id !in l.registrations then RefuseLease(LeaseNotRegistered, 0)
    else if id in l.revoked then RefuseLease(LeaseRevoked, 0)
    else AcceptLease(LeaseWasRevoked(id, at), 0)
  }

  function ApplyLease(l: LeaseLedger, e: LeaseEvent): LeaseLedger {
    match e
    case Leased(id, g) => l.(registrations := l.registrations[id := g])
    case LeaseUsed(id, use, _) => l.(uses := l.uses[id := use])
    case LeaseWasRevoked(id, at) => l.(revoked := l.revoked[id := at])
  }

  function PrintLease(e: LeaseEvent): seq<Text> {
    match e
    case Leased(id, g) =>
      ["L", HexEncode(id), HexEncode(g.sessionReceiptId), HexEncode(g.certificateId), HexEncode(g.signerId),
       HexEncode(g.keyId), HexEncode(g.fingerprint), g.bindingSha256, Dec(g.expiresAt), Dec(g.maxUses)]
    case LeaseUsed(id, use, at) => ["U", HexEncode(id), Dec(use), Dec(at)]
    case LeaseWasRevoked(id, at) => ["X", HexEncode(id), Dec(at)]
  }

  function CommitLease(sha: Hash, st: LeaseStore, e: LeaseEvent): LeaseStore {
    var l, body := st.ledger, PrintLease(e);
    LeaseStore(ApplyLease(l, e).(sequence := l.sequence + 1, head := sha(Canonical(l.sequence, l.head, body))),
               st.journal + [Line(sha, l.sequence, l.head, body)])
  }

  datatype LeaseOutcome = LeaseOutcome(store: LeaseStore, status: LeaseStatus, useCount: nat)

  function SettleLease(sha: Hash, st: LeaseStore, verdict: LeaseVerdict, appends: bool): LeaseOutcome {
    match verdict
    case RefuseLease(status, useCount) => LeaseOutcome(st, status, useCount)
    case AcceptLease(e, useCount) =>
      if !(st.ledger.healthy && appends) then LeaseOutcome(st, LeaseStorageError, 0)
      else LeaseOutcome(CommitLease(sha, st, e), Granted, useCount)
  }

  // ----- issue -----

  datatype LeaseRequest = LeaseRequest(
    binding: Binding, capability: Text, issuedAt: u64, expiresAt: u64, maxUses: u32, nonce: Text)

  /** The session-key signer: identity, fingerprint, and a signature per message or a refusal. */
  datatype KeySigner = KeySigner(signerId: Text, keyId: Text, algorithm: Text, fingerprint: Text, sign: Text -> Option<Text>)

  predicate LeaseRequestFits(b: Bundle, q: LeaseRequest, signer: KeySigner) {
    var r := b.receipt;
    && signer.signerId == r.signerId && signer.keyId == r.keyId && signer.algorithm == r.algorithm
    && signer.fingerprint == r.fingerprint
    && ValidBinding(q.binding) && ValidToken(q.capability, 192) && q.capability in r.capabilities
    && r.issuedAt <= q.issuedAt && q.expiresAt <= r.expiresAt && q.issuedAt < q.expiresAt
    && 1 <= q.maxUses <= r.maxUses && ValidToken(q.nonce, 128)
  }

  function UnsignedLease(b: Bundle, q: LeaseRequest): Lease {
    var r := b.receipt;
    Lease(1, r.receiptId, b.certificate.certificateId, r.signerId, r.keyId, r.algorithm, r.fingerprint, r.purpose, r.subjectId,
          r.scopePath, r.scopeSha256, q.capability, q.binding, q.issuedAt, q.expiresAt, q.maxUses, q.nonce, [], [], [])
  }

  function IssueLease(sha: Hash, b: Bundle, q: LeaseRequest, signer: KeySigner): Option<Lease> {
    if !LeaseRequestFits(b, q, signer) then None
    else
      var unsigned := UnsignedLease(b, q);
      match signer.sign(CanonicalLease(unsigned))
      case None => None
      case Some(signature) =>
        if signature == [] then None
        else
          var signed := unsigned.(canonicalSha256 := sha(CanonicalLease(unsigned)), signature := signature);
          Some(signed.(leaseId := LeaseId(sha, signed)))
  }

  /**
   A lease issued against a verified bundle by the bundle's own key validates against that bundle: issuing and
   validating impose the same bounds.
   */
  lemma IssuedLeaseValidates(sha: Hash, kv: KeyVerifier, b: Bundle, q: LeaseRequest, signer: KeySigner)
    requires IsSha256(b.receipt.scopeSha256) && IsSha256(b.receipt.fingerprint)
    requires IssueLease(sha, b, q, signer).Some?
    ensures var lease := IssueLease(sha, b, q, signer).value;
            ValidateLease(sha, kv, lease, b) == Granted <==>
              && kv.knowsKey(signer.signerId, signer.keyId, signer.algorithm)
              && kv.fingerprintOf(signer.signerId, signer.keyId, signer.algorithm) == Some(signer.fingerprint)
              && kv.verifyKey(signer.signerId, signer.keyId, signer.algorithm, CanonicalLease(lease), lease.signature)
  {
    var lease := IssueLease(sha, b, q, signer).value;
    assert CanonicalLease(lease) == CanonicalLease(UnsignedLease(b, q));
  }
}
