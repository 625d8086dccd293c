/**
 Session keys: a parent key's certificate hands one delegated voucher to an ephemeral key, and the
 session-key ledger counts what that key spends.
 */
module SessionKey {
  import opened Wrappers
  import opened Text
  import opened HashChain
  import opened AuthorityReceipt
  import Ordering

  datatype Certificate = Certificate(
    schemaVersion: u32,
    voucherId: Text,
    parentSignerId: Text, parentKeyId: Text, parentAlgorithm: Text,
    childSignerId: Text, childKeyId: Text, childAlgorithm: Text, childFingerprint: Text,
    purpose: Purpose, subjectId: Text, scopePath: Text, scopeSha256: Text, capabilities: seq<Text>,
    issuedAt: u64, expiresAt: u64, maxUses: u32, nonce: Text,
    canonicalSha256: Text, parentSignature: Text, certificateId: Text)

  datatype SessionReceipt = SessionReceipt(
    schemaVersion: u32,
    certificateId: Text, voucherId: Text,
    signerId: Text, keyId: Text, algorithm: Text, fingerprint: Text,
    purpose: Purpose, subjectId: Text, scopePath: Text, scopeSha256: Text, capabilities: seq<Text>,
    issuedAt: u64, expiresAt: u64, maxUses: u32, nonce: Text,
    canonicalSha256: Text, signature: Text, receiptId: Text)

  datatype Bundle = Bundle(voucher: Receipt, certificate: Certificate, receipt: SessionReceipt)

  /** The resolver of delegated keys, left uninterpreted. */
  datatype KeyVerifier = KeyVerifier(
    knowsKey: (Text, Text, Text) -> bool,
    fingerprintOf: (Text, Text, Text) -> Option<Text>,
    verifyKey: (Text, Text, Text, Text, Text) -> bool)

  const CERTIFICATE_PREFIX: Text := "guff:key-handoff:sha256:"
  const SESSION_PREFIX: Text := "guff:session-key:sha256:"

  predicate ValidCertificateId(id: Text) {
    PrefixedSha256(id, CERTIFICATE_PREFIX)
  }

  predicate ValidSessionReceiptId(id: Text) {
    PrefixedSha256(id, SESSION_PREFIX)
  }

  predicate ValidCapability(c: Text) {
    ValidToken(c, 96)
  }

  predicate ValidCapabilities(cs: seq<Text>) {
    1 <= |cs| <= 64 && forall i | 0 <= i < |cs| :: ValidCapability(cs[i])
  }

  function Names(cs: seq<Text>): set<Text> {
    set c | c in cs
  }

  /** Comparing the sorted, duplicate-free lists compares the sets of names. */
  predicate ExactCapabilities(a: seq<Text>, b: seq<Text>) {
    Names(a) == Names(b)
  }

  function Lines(cs: seq<Text>): Text {
    if cs == [] then [] else cs[0] + "\n" + Lines(cs[1..])
  }

  function CapabilitiesDigest(sha: Hash, cs: seq<Text>): Text {
    sha(Lines(Ordering.Distinct(Ordering.Sort(cs))))
  }

  function CanonicalCertificate(sha: Hash, c: Certificate): Text {
    JoinLines([Dec(c.schemaVersion), c.voucherId, c.parentSignerId, c.parentKeyId, c.parentAlgorithm, c.childSignerId,
               c.childKeyId, c.childAlgorithm, c.childFingerprint, Dec(c.purpose.Code()), c.subjectId, c.scopePath,
               c.scopeSha256, CapabilitiesDigest(sha, c.capabilities), Dec(c.issuedAt), Dec(c.expiresAt), Dec(c.maxUses), c.nonce])
  }

  function CanonicalSessionReceipt(sha: Hash, r: SessionReceipt): Text {
    JoinLines([Dec(r.schemaVersion), r.certificateId, r.voucherId, r.signerId, r.keyId, r.algorithm, r.fingerprint,
               Dec(r.purpose.Code()), r.subjectId, r.scopePath, r.scopeSha256, CapabilitiesDigest(sha, r.capabilities),
               Dec(r.issuedAt), Dec(r.expiresAt), Dec(r.maxUses), r.nonce])
  }

  function CertificateId(sha: Hash, c: Certificate): Text {
    CERTIFICATE_PREFIX + sha(JoinLines([sha(CanonicalCertificate(sha, c)), c.parentSignature]))
  }

  function SessionReceiptId(sha: Hash, r: SessionReceipt): Text {
    SESSION_PREFIX + sha(JoinLines([sha(CanonicalSessionReceipt(sha, r)), r.signature]))
  }

  // ----- bundle verification -----

  predicate CertificateFields(sha: Hash, b: Bundle) {
    var c := b.certificate;
    && c.schemaVersion == 1 && c.voucherId == b.voucher.receiptId && ValidCertificateId(c.certificateId)
    && IsSha256(c.canonicalSha256) && IsSha256(c.childFingerprint) && IsSha256(c.scopeSha256)
    && c.scopeSha256 == sha(c.scopePath) && ValidCapabilities(c.capabilities)
    && c.issuedAt != 0 && c.issuedAt < c.expiresAt && 1 <= c.maxUses <= 1024 && ValidToken(c.nonce, 128)
  }

  predicate CertificateMatchesVoucher(b: Bundle) {
    var c, v := b.certificate, b.voucher.envelope;
    && c.parentSignerId == v.signerId && c.parentKeyId == v.signerKeyId && c.parentAlgorithm == b.voucher.algorithm
    && c.purpose == v.purpose && c.subjectId == v.subjectId && c.scopePath == v.scopePath && c.scopeSha256 == v.scopeSha256
    && ExactCapabilities(c.capabilities, v.capabilities)
    && c.issuedAt == v.issuedAt && c.expiresAt == v.expiresAt && c.maxUses == v.maxUses
  }

  predicate CertificateSigned(crypto: Crypto, c: Certificate) {
    && c.canonicalSha256 == crypto.sha(CanonicalCertificate(crypto.sha, c))
    && c.certificateId == CertificateId(crypto.sha, c)
    && crypto.knows(c.parentSignerId, c.parentAlgorithm)
    && crypto.verify(c.parentSignerId, c.parentAlgorithm, CanonicalCertificate(crypto.sha, c), c.parentSignature)
  }

  predicate VerifyCertificate(crypto: Crypto, b: Bundle) {
    CertificateFields(crypto.sha, b) && CertificateMatchesVoucher(b) && CertificateSigned(crypto, b.certificate)
  }

  predicate ReceiptFields(sha: Hash, b: Bundle) {
    var r := b.receipt;
    && r.schemaVersion == 1 && r.certificateId == b.certificate.certificateId && r.voucherId == b.certificate.voucherId
    && ValidSessionReceiptId(r.receiptId) && IsSha256(r.canonicalSha256) && IsSha256(r.fingerprint) && IsSha256(r.scopeSha256)
    && r.scopeSha256 == sha(r.scopePath) && ValidCapabilities(r.capabilities)
    && ValidToken(r.signerId, 128) && ValidToken(r.keyId, 128) && ValidToken(r.algorithm, 64) && ValidToken(r.nonce, 128)
    && r.issuedAt != 0 && r.issuedAt < r.expiresAt && 1 <= r.maxUses <= 1024
  }

  predicate ReceiptMatchesCertificate(b: Bundle) {
    var r, c := b.receipt, b.certificate;
    && r.signerId == c.childSignerId && r.keyId == c.childKeyId && r.algorithm == c.childAlgorithm
    && r.fingerprint == c.childFingerprint
    && r.purpose == c.purpose && r.subjectId == c.subjectId && r.scopePath == c.scopePath && r.scopeSha256 == c.scopeSha256
    && ExactCapabilities(r.capabilities, c.capabilities)
    && r.issuedAt == c.issuedAt && r.expiresAt == c.expiresAt && r.maxUses == c.maxUses
  }

  predicate FingerprintAgrees(kv: KeyVerifier, r: SessionReceipt) {
    var f := kv.fingerprintOf(r.signerId, r.keyId, r.algorithm);
    f.Some? && IsSha256(f.value) && f.value == r.fingerprint
  }

  predicate ReceiptSigned(sha: Hash, kv: KeyVerifier, r: SessionReceipt) {
    && r.canonicalSha256 == sha(CanonicalSessionReceipt(sha, r)) && r.receiptId == SessionReceiptId(sha, r)
    && kv.knowsKey(r.signerId, r.keyId, r.algorithm)
    && kv.verifyKey(r.signerId, r.keyId, r.algorithm, CanonicalSessionReceipt(sha, r), r.signature)
  }

  predicate VerifyChildReceipt(sha: Hash, kv: KeyVerifier, b: Bundle) {
    ReceiptFields(sha, b) && ReceiptMatchesCertificate(b) && ReceiptSigned(sha, kv, b.receipt) && FingerprintAgrees(kv, b.receipt)
  }

  // ----- ledger state -----

  datatype Registration = Registration(
    voucherId: Text, certificateId: Text, receiptId: Text,
    signerId: Text, keyId: Text, algorithm: Text, fingerprint: Text,
    expiresAt: u64, maxUses: u32)

  datatype SessionLedger = SessionLedger(
    registrations: map<Text, Registration>,
    uses: map<Text, nat>,
    revokedKeys: map<Text, u64>,
    revokedReceipts: map<Text, u64>,
    sequence: nat,
    head: Text,
    healthy: bool)
  {
    function UseCount(id: Text): nat {
      if id in uses then uses[id] else 0
    }

    predicate KeyTaken(signer: Text, key: Text) {
      exists id | id in registrations :: registrations[id].signerId == signer && registrations[id].keyId == key
    }
  }

  datatype SessionStore = SessionStore(ledger: SessionLedger, journal: seq<Text>)

  const EMPTY_SESSIONS := SessionLedger(map[], map[], map[], map[], 0, [], true)

  datatype SessionStatus =
    | Allowed | InvalidRequest | VoucherRejected | FingerprintMismatch | CertificateRejected | ReceiptRejected | NotRegistered
    | KeyIsRevoked | ReceiptIsRevoked | ReceiptExpired | CapabilityMismatch | ScopeMismatch | UseLimitReached
    | StorageError | Corrupt

  datatype SessionEvent =
    | HandedOff(registration: Registration)
    | SessionUsed(id: Text, use: u64, at: u64)
    | SessionKeyRevoked(signer: Text, key: Text, at: u64)
    | SessionReceiptRevoked(id: Text, at: u64)

  datatype SessionOp =
    | RegisterBundle(bundle: Bundle)
    | ConsumeSession(id: Text, now: u64)
    | RevokeSessionKey(signer: Text, key: Text, at: u64)
    | RevokeSessionReceipt(id: Text, at: u64)

  datatype SessionVerdict = Refuse(status: SessionStatus, useCount: nat) | Accept(event: SessionEvent, useCount: nat)

  function SessionKeyMapId(signer: Text, key: Text): Text {
    signer + "\n" + key
  }

  function RegistrationOf(b: Bundle): Registration {
    Registration(b.voucher.receiptId, b.certificate.certificateId, b.receipt.receiptId, b.receipt.signerId, b.receipt.keyId,
                 b.receipt.algorithm, b.receipt.fingerprint, b.receipt.expiresAt, b.receipt.maxUses)
  }

  predicate BundleCoheres(b: Bundle) {
    var c, r := b.certificate, b.receipt;
    && ValidReceiptId(b.voucher.receiptId) && ValidCertificateId(c.certificateId) && ValidSessionReceiptId(r.receiptId)
    && c.voucherId == b.voucher.receiptId && r.voucherId == b.voucher.receiptId && r.certificateId == c.certificateId
    && r.signerId == c.childSignerId && r.keyId == c.childKeyId && r.algorithm == c.childAlgorithm
    && r.fingerprint == c.childFingerprint && r.maxUses == c.maxUses && r.expiresAt == c.expiresAt
  }

  // ----- decisions -----

  function JudgeSession(l: SessionLedger, op: SessionOp): SessionVerdict {
    match op
    case RegisterBundle(b) =>
      if !l.healthy then Refuse(Corrupt, 0)
      else if !BundleCoheres(b) then Refuse(InvalidRequest, 0)
      else if b.receipt.receiptId in l.registrations then Refuse(InvalidRequest, 0)
      else if l.KeyTaken(b.receipt.signerId, b.receipt.keyId) then Refuse(InvalidRequest, 0)
      else Accept(HandedOff(RegistrationOf(b)), 0)
    case ConsumeSession(id, now) =>
      if !l.healthy then Refuse(Corrupt, 0)
      else if id !in l.registrations then Refuse(NotRegistered, 0)
      else if l.UseCount(id) >= l.registrations[id].maxUses then Refuse(UseLimitReached, l.UseCount(id))
      else Accept(SessionUsed(id, l.UseCount(id) + 1, now), l.UseCount(id) + 1)
    case RevokeSessionKey(signer, key, at) =>
      if !ValidToken(signer, 128) || !ValidToken(key, 128) || at == 0 then Refuse(InvalidRequest, 0)
      else if SessionKeyMapId(signer, key) in l.revokedKeys then Refuse(InvalidRequest, 0)
      else if !l.KeyTaken(signer, key) then Refuse(NotRegistered, 0)
      else Accept(SessionKeyRevoked(signer, key, at), 0)
    case RevokeSessionReceipt(id, at) =>
      if !ValidSessionReceiptId(id) || at == 0 then Refuse(InvalidRequest, 0)
      else if id !in l.registrations then Refuse(NotRegistered, 0)
      else if id in l.revokedReceipts then Refuse(InvalidRequest, 0)
      else Accept(SessionReceiptRevoked(id, at), 0)
  }

  predicate RegistrationMatches(g: Registration, b: Bundle) {
    && g.voucherId == b.voucher.receiptId && g.certificateId == b.certificate.certificateId
    && g.signerId == b.receipt.signerId && g.keyId == b.receipt.keyId && g.algorithm == b.receipt.algorithm
    && g.fingerprint == b.receipt.fingerprint && g.maxUses == b.receipt.maxUses
  }

  /** The part of preflight that needs no clock: registration, signatures, and fit to the operation. */
  function BundleChecks(crypto: Crypto, kv: KeyVerifier, l: SessionLedger, b: Bundle, purpose: Purpose, subject: Text,
                        scope: Text, capability: Text): SessionStatus {
    if !l.healthy then Corrupt
    else if b.receipt.receiptId !in l.registrations then NotRegistered
    else if !RegistrationMatches(l.registrations[b.receipt.receiptId], b) then NotRegistered
    else if VerifyReceipt(crypto, b.voucher, purpose, subject) != Valid then VoucherRejected
    else if !VerifyCertificate(crypto, b) then CertificateRejected
    else if !VerifyChildReceipt(crypto.sha, kv, b) then
      if kv.knowsKey(b.receipt.signerId, b.receipt.keyId, b.receipt.algorithm) && !FingerprintAgrees(kv, b.receipt)
      then FingerprintMismatch else ReceiptRejected
    else if !IsSha256(scope) || b.receipt.scopeSha256 != scope || b.voucher.envelope.scopeSha256 != scope then ScopeMismatch
    else if b.receipt.purpose != purpose || b.receipt.subjectId != subject then ReceiptRejected
    else if !ValidCapability(capability) || capability !in b.receipt.capabilities then CapabilityMismatch
    else Allowed
  }

  /** The part of preflight that depends on the clock and on use so far. */
  function StandingChecks(l: SessionLedger, r: SessionReceipt, now: u64): SessionStatus {
    if r.expiresAt <= now then ReceiptExpired
    else if r.receiptId in l.revokedReceipts && l.revokedReceipts[r.receiptId] <= now then ReceiptIsRevoked
    else if SessionKeyMapId(r.signerId, r.keyId) in l.revokedKeys && l.revokedKeys[SessionKeyMapId(r.signerId, r.keyId)] <= now
    then KeyIsRevoked
    else if l.UseCount(r.receiptId) >= r.maxUses then UseLimitReached
    else Allowed
  }

  function Preflight(crypto: Crypto, kv: KeyVerifier, l: SessionLedger, b: Bundle, purpose: Purpose, subject: Text,
                     scope: Text, capability: Text, now: u64): SessionStatus {
    var status := BundleChecks(crypto, kv, l, b, purpose, subject, scope, capability);
    if status != Allowed then status else StandingChecks(l, b.receipt, now)
  }

  // ----- state changes -----

  function ApplySession(l: SessionLedger, e: SessionEvent): SessionLedger {
    match e
    case HandedOff(g) => l.(registrations := l.registrations[g.receiptId := g])
    case SessionUsed(id, use, _) => l.(uses := l.uses[id := use])
    case SessionKeyRevoked(signer, key, at) => l.(revokedKeys := l.revokedKeys[SessionKeyMapId(signer, key) := at])
    case SessionReceiptRevoked(id, at) => l.(revokedReceipts := l.revokedReceipts[id := at])
  }

  function PrintSession(e: SessionEvent): seq<Text> {
    match e
    case HandedOff(g) =>
      ["H", HexEncode(g.voucherId), HexEncode(g.certificateId), HexEncode(g.receiptId), HexEncode(g.signerId),
       HexEncode(g.keyId), HexEncode(g.algorithm), g.fingerprint, Dec(g.expiresAt), Dec(g.maxUses)]
    case SessionUsed(id, use, at) => ["U", HexEncode(id), Dec(use), Dec(at)]
    case SessionKeyRevoked(signer, key, at) => ["R", HexEncode(signer), HexEncode(key), Dec(at)]
    case SessionReceiptRevoked(id, at) => ["X", HexEncode(id), Dec(at)]
  }

  function CommitSession(sha: Hash, st: SessionStore, e: SessionEvent): SessionStore {
    var l, body := st.ledger, PrintSession(e);
    SessionStore(ApplySession(l, e).(sequence := l.sequence + 1, head := sha(Canonical(l.sequence, l.head, body))),
                 st.journal + [Line(sha, l.sequence, l.head, body)])
  }

  datatype SessionOutcome = SessionOutcome(store: SessionStore, status: SessionStatus, useCount: nat)

  function StepSession(sha: Hash, st: SessionStore, op: SessionOp, appends: bool): SessionOutcome {
    match JudgeSession(st.ledger, op)
    case Refuse(status, useCount) => SessionOutcome(st, status, useCount)
    case Accept(e, useCount) =>
      if !(st.ledger.healthy && appends) then SessionOutcome(st, StorageError, 0)
      else SessionOutcome(CommitSession(sha, st, e), Allowed, useCount)
  }

  // ----- replay -----

  function Num(field: Text, max: nat): Option<nat> {
    ParseUnsigned(field, max)
  }

  function ParseHandOff(b: seq<Text>): Option<SessionEvent>
    requires |b| == 10
  {
    match (HexDecode(b[1]), HexDecode(b[2]), HexDecode(b[3]), HexDecode(b[4]), HexDecode(b[5]), HexDecode(b[6]))
    case (Some(v), Some(c), Some(r), Some(s), Some(k), Some(a)) =>
      (match (Num(b[8], MAX_U64), Num(b[9], MAX_U32))
       case (Some(x), Some(m)) =>
         if x <= MAX_U64 && m <= MAX_U32 then Some(HandedOff(Registration(v, c, r, s, k, a, b[7], x, m))) else None
       case _ => None)
    case _ => None
  }

  function ParseSessionUse(b: seq<Text>): Option<SessionEvent>
    requires |b| == 4
  {
    match (HexDecode(b[1]), Num(b[2], MAX_U64), Num(b[3], MAX_U64))
    case (Some(id), Some(use), Some(at)) => if use <= MAX_U64 && at <= MAX_U64 then Some(SessionUsed(id, use, at)) else None
    case _ => None
  }

  function ParseSessionKeyRevocation(b: seq<Text>): Option<SessionEvent>
    requires |b| == 4
  {
    match (HexDecode(b[1]), HexDecode(b[2]), Num(b[3], MAX_U64))
    case (Some(s), Some(k), Some(at)) => if at <= MAX_U64 then Some(SessionKeyRevoked(s, k, at)) else None
    case _ => None
  }

  function ParseSessionReceiptRevocation(b: seq<Text>): Option<SessionEvent>
    requires |b| == 3
  {
    match (HexDecode(b[1]), Num(b[2], MAX_U64))
    case (Some(id), Some(at)) => if at <= MAX_U64 then Some(SessionReceiptRevoked(id, at)) else None
    case _ => None
  }

  function ParseSession(b: seq<Text>): Option<SessionEvent> {
    if b == [] then None
    else if b[0] == "H" && |b| == 10 then ParseHandOff(b)
    else if b[0] == "U" && |b| == 4 then ParseSessionUse(b)
    else if b[0] == "R" && |b| == 4 then ParseSessionKeyRevocation(b)
    else if b[0] == "X" && |b| == 3 then ParseSessionReceiptRevocation(b)
    else None
  }

  predicate AdmitSession(l: SessionLedger, e: SessionEvent) {
    match e
    case HandedOff(g) =>
      && ValidReceiptId(g.voucherId) && ValidCertificateId(g.certificateId) && ValidSessionReceiptId(g.receiptId)
      && IsSha256(g.fingerprint) && g.expiresAt != 0 && g.maxUses != 0
      && g.receiptId !in l.registrations && !l.KeyTaken(g.signerId, g.keyId)
    case SessionUsed(id, use, at) =>
      && ValidSessionReceiptId(id) && id in l.registrations && use != 0 && at != 0
      && use == l.UseCount(id) + 1 && use <= l.registrations[id].maxUses
    case SessionKeyRevoked(signer, key, at) => at != 0 && SessionKeyMapId(signer, key) !in l.revokedKeys
    case SessionReceiptRevoked(id, at) => id in l.registrations && at != 0 && id !in l.revokedReceipts
  }

  function ReadSessionEvent(sha: Hash, l: SessionLedger, line: Text): Option<(SessionEvent, Text)> {
    match ReadLine(sha, l.sequence, l.head, 5, line)
    case None => None
    case Some(checked) =>
      match ParseSession(checked.body)
      case None => None
      case Some(e) => if AdmitSession(l, e) then Some((e, checked.hash)) else None
  }

  function ReplaySessionLine(sha: Hash, l: SessionLedger, line: Text): SessionLedger {
    if line == [] then l
    else
      match ReadSessionEvent(sha, l, line)
      case None => l.(healthy := false)
      case Some(read) => ApplySession(l, read.0).(sequence := l.sequence + 1, head := read.1)
  }

  function ReplaySessions(sha: Hash, journal: seq<Text>): SessionLedger {
    if journal == [] then EMPTY_SESSIONS
    else
      var l := ReplaySessions(sha, journal[..|journal| - 1]);
      if !l.healthy then l else ReplaySessionLine(sha, l, journal[|journal| - 1])
  }
}
