/**
 The durable authority ledger: trusted keys, receipt uses, reserved descendant uses, nonce
 bindings, revocations and the delegation forest, each change journaled before it takes effect.

 `Judge` is the decision a live call makes, `Apply` the state change both the live call and
 replay perform, `Admit` the contract replay demands of a journaled event.
 */
module AuthorityLedger {
  import opened Text
  import opened HashChain
  import opened AuthorityReceipt

  datatype Status =
    | Allowed | Rejected | Duplicate | NotFound | UnknownSigner | KeyInactive | ReceiptExpired | ReceiptIsRevoked
    | NonceReplay | UseLimitReached | DelegationRejected | StorageError | Corrupt

  datatype SignerKey = SignerKey(
    signerId: Text,
    keyId: Text,
    algorithm: Text,
    validFrom: u64,
    validUntil: u64,
    revokedAt: u64)

  datatype Ledger = Ledger(
    keys: map<Text, SignerKey>,
    uses: map<Text, nat>,
    reserved: map<Text, nat>,
    revoked: map<Text, u64>,
    nonces: map<Text, Text>,
    parent: map<Text, Text>,
    sequence: nat,
    head: Text,
    healthy: bool)
  {
    function UseCount(id: Text): nat {
      if id in uses then uses[id] else 0
    }

    function DelegatedUses(id: Text): nat {
      if id in reserved then reserved[id] else 0
    }

    predicate NonceFree(nonceKey: Text, id: Text) {
      nonceKey in nonces ==> nonces[nonceKey] == id
    }

    predicate Registered(r: Receipt) {
      r.receiptId in parent && parent[r.receiptId] == r.envelope.parentReceiptId
    }

    predicate RevokedAt(id: Text, now: u64) {
      id in revoked && revoked[id] <= now
    }
  }

  /** The ledger in memory together with the lines of its journal. */
  datatype Store = Store(ledger: Ledger, journal: seq<Text>)

  const EMPTY := Ledger(map[], map[], map[], map[], map[], map[], 0, [], true)

  datatype Event =
    | KeyTrusted(signer: Text, key: Text, algorithm: Text, validFrom: u64, validUntil: u64)
    | KeyRetired(signer: Text, key: Text, at: u64)
    | KeyRevoked(signer: Text, key: Text, at: u64)
    | ReceiptRevoked(id: Text, at: u64)
    | Used(id: Text, signer: Text, key: Text, nonce: Text, use: u64, at: u64)
    | Delegated(parentId: Text, childId: Text, signer: Text, key: Text, parentNonce: Text, childNonce: Text,
                use: u64, reservation: u64, at: u64)

  datatype Op =
    | TrustKey(trusted: SignerKey)
    | RetireKey(signer: Text, key: Text, at: u64)
    | RevokeKey(signer: Text, key: Text, at: u64)
    | RevokeReceipt(id: Text, at: u64)
    | RegisterDelegation(parent: Receipt, child: Receipt, now: u64)
    | Authorize(receipt: Receipt, purpose: Purpose, subject: Text, scope: Text, now: u64)

  datatype Verdict = Refuse(status: Status, useCount: nat) | Accept(event: Event, useCount: nat)

  function KeyMapId(signer: Text, key: Text): Text {
    signer + "\n" + key
  }

  function NonceKey(signer: Text, key: Text, nonce: Text): Text {
    signer + "\n" + key + "\n" + nonce
  }

  function EnvelopeKey(e: Envelope): Text {
    KeyMapId(e.signerId, e.signerKeyId)
  }

  function EnvelopeNonce(e: Envelope): Text {
    NonceKey(e.signerId, e.signerKeyId, e.nonce)
  }

  // ----- the ancestor walk -----

  const MAX_WALK := 9

  /** At most `steps` lookups; running out of them counts as revoked. */
  predicate AncestorRevokedWithin(l: Ledger, id: Text, now: u64, steps: nat)
    decreases steps
  {
    if steps == 0 then true
    else if id !in l.parent then false
    else l.RevokedAt(l.parent[id], now) || AncestorRevokedWithin(l, l.parent[id], now, steps - 1)
  }

  predicate AncestorRevoked(l: Ledger, id: Text, now: u64) {
    AncestorRevokedWithin(l, id, now, MAX_WALK)
  }

  /** Key events name a key the ledger holds. */
  predicate Applicable(l: Ledger, e: Event) {
    e.KeyRetired? || e.KeyRevoked? ==> KeyMapId(e.signer, e.key) in l.keys
  }

  // ----- live decisions -----

  predicate ValidKey(k: SignerKey) {
    && ValidToken(k.signerId, 128) && ValidToken(k.keyId, 128) && ValidToken(k.algorithm, 64)
    && k.validFrom != 0
    && (k.validUntil != 0 ==> k.validFrom < k.validUntil)
    && k.revokedAt == 0
  }

  predicate DepthContract(parent: Receipt, child: Receipt) {
    && child.envelope.parentReceiptId == parent.receiptId
    && child.envelope.delegationDepth == parent.envelope.delegationDepth + 1
    && parent.envelope.delegationDepth < parent.envelope.maxDelegationDepth
    && child.envelope.delegationDepth <= child.envelope.maxDelegationDepth
    && child.envelope.maxDelegationDepth <= parent.envelope.maxDelegationDepth
  }

  predicate SameAuthority(parent: Receipt, child: Receipt) {
    && parent.envelope.purpose == child.envelope.purpose
    && parent.envelope.subjectId == child.envelope.subjectId
    && parent.envelope.signerId == child.envelope.signerId
    && parent.envelope.signerKeyId == child.envelope.signerKeyId
    && parent.algorithm == child.algorithm
  }

  predicate NarrowerScope(parent: Receipt, child: Receipt) {
    && ScopeContains(parent.envelope.scopePath, child.envelope.scopePath)
    && CapabilitiesContain(parent.envelope.capabilities, child.envelope.capabilities)
  }

  predicate NarrowerLifetime(parent: Receipt, child: Receipt) {
    && parent.envelope.issuedAt <= child.envelope.issuedAt
    && child.envelope.expiresAt <= parent.envelope.expiresAt
    && child.envelope.issuedAt < child.envelope.expiresAt
    && StrictlyAttenuated(parent.envelope, child.envelope)
  }

  predicate IssuedInWindow(k: SignerKey, issuedAt: u64) {
    k.validFrom <= issuedAt && (k.validUntil != 0 ==> issuedAt < k.validUntil)
  }

  predicate KeyRevokedAt(k: SignerKey, now: u64) {
    k.revokedAt != 0 && k.revokedAt <= now
  }

  /** Both receipts are schema v3, genuine, and the child narrows the parent. */
  predicate DelegationContract(crypto: Crypto, parent: Receipt, child: Receipt) {
    && parent.envelope.schemaVersion == 3 && child.envelope.schemaVersion == 3
    && VerifyReceipt(crypto, parent, parent.envelope.purpose, parent.envelope.subjectId) == Valid
    && VerifyReceipt(crypto, child, child.envelope.purpose, child.envelope.subjectId) == Valid
    && DepthContract(parent, child)
    && SameAuthority(parent, child)
    && NarrowerScope(parent, child)
    && NarrowerLifetime(parent, child)
  }

  /** The earliest receipt status check made against the key and the clock. */
  predicate DelegationKeyActive(k: SignerKey, parent: Receipt, child: Receipt, now: u64) {
    && parent.envelope.issuedAt <= now && child.envelope.issuedAt <= now
    && k.validFrom <= parent.envelope.issuedAt
    && (k.validUntil != 0 ==> parent.envelope.issuedAt < k.validUntil && child.envelope.issuedAt < k.validUntil)
    && !KeyRevokedAt(k, now)
  }

  /** Everything tested before the use budget. */
  function DelegationChecks(crypto: Crypto, l: Ledger, parent: Receipt, child: Receipt, now: u64): Status {
    if !l.healthy then Corrupt
    else if !DelegationContract(crypto, parent, child) then DelegationRejected
    else LineageChecks(l, parent, child, now)
  }

  /** The checks of a delegation against the ledger's own maps. */
  function LineageChecks(l: Ledger, parent: Receipt, child: Receipt, now: u64): Status {
    var pe, ce := parent.envelope, child.envelope;
    if child.receiptId in l.parent || l.UseCount(child.receiptId) != 0 then Duplicate
    else if pe.parentReceiptId != [] && !l.Registered(parent) then DelegationRejected
    else if EnvelopeKey(pe) !in l.keys || l.keys[EnvelopeKey(pe)].algorithm != parent.algorithm then UnknownSigner
    else if !DelegationKeyActive(l.keys[EnvelopeKey(pe)], parent, child, now) then KeyInactive
    else if pe.expiresAt <= now || ce.expiresAt <= now then ReceiptExpired
    else if parent.receiptId in l.revoked || child.receiptId in l.revoked || AncestorRevoked(l, parent.receiptId, now)
    then ReceiptIsRevoked
    else if !l.NonceFree(EnvelopeNonce(pe), parent.receiptId) || !l.NonceFree(EnvelopeNonce(ce), child.receiptId)
    then NonceReplay
    else Allowed
  }

  /** The parent must have room for one use of its own and the child's whole budget. */
  function DelegationBudget(l: Ledger, parent: Receipt, child: Receipt, now: u64): (v: Verdict)
    ensures v.Accept? ==> v.event.Delegated?
  {
    var pe, ce := parent.envelope, child.envelope;
    var used, reserved, needed := l.UseCount(parent.receiptId), l.DelegatedUses(parent.receiptId), 1 + ce.maxUses;
    if used > pe.maxUses || reserved > pe.maxUses || needed > pe.maxUses || used + reserved > pe.maxUses - needed
    then Refuse(UseLimitReached, used)
    else
      Accept(Delegated(parent.receiptId, child.receiptId, pe.signerId, pe.signerKeyId, pe.nonce, ce.nonce,
                       used + 1, ce.maxUses, now),
             used + 1)
  }

  function JudgeDelegation(crypto: Crypto, l: Ledger, parent: Receipt, child: Receipt, now: u64): Verdict {
    var status := DelegationChecks(crypto, l, parent, child, now);
    if status != Allowed then Refuse(status, 0) else DelegationBudget(l, parent, child, now)
  }

  /** What the ledger itself tests of a verified receipt before the use budget. */
  function UseChecks(l: Ledger, r: Receipt, scope: Text, now: u64): Status {
    var e := r.envelope;
    if !IsSha256(scope) || e.scopeSha256 != scope then Rejected
    else if e.schemaVersion != 2 && e.schemaVersion != 3 then Rejected
    else if e.schemaVersion == 3 && e.parentReceiptId != [] && !l.Registered(r) then DelegationRejected
    else if EnvelopeKey(e) !in l.keys || l.keys[EnvelopeKey(e)].algorithm != r.algorithm then UnknownSigner
    else if e.issuedAt > now then KeyInactive
    else if !IssuedInWindow(l.keys[EnvelopeKey(e)], e.issuedAt) then KeyInactive
    else if KeyRevokedAt(l.keys[EnvelopeKey(e)], now) then KeyInactive
    else if e.expiresAt <= now then ReceiptExpired
    else if l.RevokedAt(r.receiptId, now) then ReceiptIsRevoked
    else if AncestorRevoked(l, r.receiptId, now) then ReceiptIsRevoked
    else if !l.NonceFree(EnvelopeNonce(e), r.receiptId) then NonceReplay
    else Allowed
  }

  /** Everything tested before the use budget. */
  function AuthorizationChecks(crypto: Crypto, l: Ledger, r: Receipt, purpose: Purpose, subject: Text, scope: Text, now: u64): Status {
    var verified := VerifyReceipt(crypto, r, purpose, subject);
    if !l.healthy then Corrupt
    else if verified != Valid then if verified == SignerUnknown then UnknownSigner else Rejected
    else UseChecks(l, r, scope, now)
  }

  /** One more use must fit beside the uses made and the uses reserved for children. */
  function UseBudget(l: Ledger, r: Receipt, now: u64): (v: Verdict)
    ensures v.Accept? ==> v.event.Used?
  {
    var e := r.envelope;
    var used, reserved := l.UseCount(r.receiptId), l.DelegatedUses(r.receiptId);
    if used > e.maxUses || reserved > e.maxUses || used + reserved >= e.maxUses then Refuse(UseLimitReached, used)
    else Accept(Used(r.receiptId, e.signerId, e.signerKeyId, e.nonce, used + 1, now), used + 1)
  }

  function JudgeAuthorize(crypto: Crypto, l: Ledger, r: Receipt, purpose: Purpose, subject: Text, scope: Text, now: u64): Verdict {
    var status := AuthorizationChecks(crypto, l, r, purpose, subject, scope, now);
    if status != Allowed then Refuse(status, 0) else UseBudget(l, r, now)
  }

  function JudgeRetire(l: Ledger, signer: Text, key: Text, at: u64): (v: Verdict)
    ensures v.Accept? ==> v.event.KeyRetired? && Applicable(l, v.event)
  {
    var id := KeyMapId(signer, key);
    if id !in l.keys then Refuse(NotFound, 0)
    else if at <= l.keys[id].validFrom || (l.keys[id].validUntil != 0 && at > l.keys[id].validUntil) then Refuse(Rejected, 0)
    else Accept(KeyRetired(signer, key, at), 0)
  }

  function JudgeRevokeKey(l: Ledger, signer: Text, key: Text, at: u64): (v: Verdict)
    ensures v.Accept? ==> v.event.KeyRevoked? && Applicable(l, v.event)
  {
    var id := KeyMapId(signer, key);
    if id !in l.keys then Refuse(NotFound, 0)
    else if at == 0 || l.keys[id].revokedAt != 0 then Refuse(Rejected, 0)
    else Accept(KeyRevoked(signer, key, at), 0)
  }

  function Judge(crypto: Crypto, l: Ledger, op: Op): (v: Verdict)
    ensures v.Accept? ==> Applicable(l, v.event)
  {
    match op
    case TrustKey(k) =>
      if !l.healthy then Refuse(Corrupt, 0)
      else if !ValidKey(k) then Refuse(Rejected, 0)
      else if KeyMapId(k.signerId, k.keyId) in l.keys then Refuse(Duplicate, 0)
      else Accept(KeyTrusted(k.signerId, k.keyId, k.algorithm, k.validFrom, k.validUntil), 0)
    case RetireKey(signer, key, at) => JudgeRetire(l, signer, key, at)
    case RevokeKey(signer, key, at) => JudgeRevokeKey(l, signer, key, at)
    case RevokeReceipt(id, at) =>
      if !ValidReceiptId(id) || at == 0 then Refuse(Rejected, 0)
      else if id in l.revoked then Refuse(Duplicate, 0)
      else Accept(ReceiptRevoked(id, at), 0)
    case RegisterDelegation(parent, child, now) => JudgeDelegation(crypto, l, parent, child, now)
    case Authorize(r, purpose, subject, scope, now) => JudgeAuthorize(crypto, l, r, purpose, subject, scope, now)
  }

  // ----- state changes -----

  function Apply(l: Ledger, e: Event): Ledger
    requires Applicable(l, e)
  {
    match e
    case KeyTrusted(signer, key, algorithm, from, until) =>
      l.(keys := l.keys[KeyMapId(signer, key) := SignerKey(signer, key, algorithm, from, until, 0)])
    case KeyRetired(signer, key, at) =>
      var id := KeyMapId(signer, key);
      l.(keys := l.keys[id := l.keys[id].(validUntil := at)])
    case KeyRevoked(signer, key, at) =>
      var id := KeyMapId(signer, key);
      l.(keys := l.keys[id := l.keys[id].(revokedAt := at)])
    case ReceiptRevoked(id, at) => l.(revoked := l.revoked[id := at])
    case Used(id, signer, key, nonce, use, _) =>
      l.(uses := l.uses[id := use], nonces := l.nonces[NonceKey(signer, key, nonce) := id])
    case Delegated(p, c, signer, key, pn, cn, use, reservation, _) =>
      l.(uses := l.uses[p := use],
         reserved := l.reserved[p := l.DelegatedUses(p) + reservation],
         nonces := l.nonces[NonceKey(signer, key, pn) := p][NonceKey(signer, key, cn) := c],
         parent := l.parent[c := p])
  }

  /** The fields of the event as journaled, type letter first. */
  function Print(e: Event): seq<Text> {
    match e
    case KeyTrusted(signer, key, algorithm, from, until) =>
      ["K", HexEncode(signer), HexEncode(key), HexEncode(algorithm), Dec(from), Dec(until)]
    case KeyRetired(signer, key, at) => ["T", HexEncode(signer), HexEncode(key), Dec(at)]
    case KeyRevoked(signer, key, at) => ["R", HexEncode(signer), HexEncode(key), Dec(at)]
    case ReceiptRevoked(id, at) => ["X", HexEncode(id), Dec(at)]
    case Used(id, signer, key, nonce, use, at) =>
      ["U", HexEncode(id), HexEncode(signer), HexEncode(key), HexEncode(nonce), Dec(use), Dec(at)]
    case Delegated(p, c, signer, key, pn, cn, use, reservation, at) =>
      ["D", HexEncode(p), HexEncode(c), HexEncode(signer), HexEncode(key), HexEncode(pn), HexEncode(cn),
       Dec(use), Dec(reservation), Dec(at)]
  }

  function Advance(sha: Hash, l: Ledger, body: seq<Text>): Ledger {
    l.(sequence := l.sequence + 1, head := sha(Canonical(l.sequence, l.head, body)))
  }

  function Commit(sha: Hash, st: Store, e: Event): Store
    requires Applicable(st.ledger, e)
  {
    var l := st.ledger;
    Store(Advance(sha, Apply(l, e), Print(e)), st.journal + [Line(sha, l.sequence, l.head, Print(e))])
  }

  datatype Outcome = Outcome(store: Store, status: Status, useCount: nat)

  /** A refused call, and an accepted one whose append fails, changes nothing. */
  function Settle(sha: Hash, st: Store, verdict: Verdict, appends: bool): Outcome
    requires verdict.Accept? ==> Applicable(st.ledger, verdict.event)
  {
    match verdict
    case Refuse(status, useCount) => Outcome(st, status, useCount)
    case Accept(e, useCount) =>
      if !(st.ledger.healthy && appends) then Outcome(st, StorageError, 0)
      else Outcome(Commit(sha, st, e), Allowed, useCount)
  }

  /** One live call. */
  function Step(crypto: Crypto, st: Store, op: Op, appends: bool): Outcome {
    Settle(crypto.sha, st, Judge(crypto, st.ledger, op), appends)
  }

  /** A live call and whether the disk accepts its line. */
  datatype Call = Call(op: Op, appends: bool)

  /** The store after a run of calls on an empty journal. */
  function Run(crypto: Crypto, calls: seq<Call>): Store {
    if calls == [] then Store(EMPTY, [])
    else
      var last := calls[|calls| - 1];
      Step(crypto, Run(crypto, calls[..|calls| - 1]), last.op, last.appends).store
  }
}
