/**
 Signed authority receipts: the envelope contract, content identity, verification, and the
 scope and capability containment that make delegation checkable.
 */
module AuthorityReceipt {
  import opened Wrappers
  import opened Text
  import opened HashChain
  import Ordering

  datatype Purpose = Recovery | DestructiveExecution | PersistentSymbiosis | CapabilityGrant {
    function Code(): nat {
      match this
      case Recovery => 0
      case DestructiveExecution => 1
      case PersistentSymbiosis => 2
      case CapabilityGrant => 3
    }
  }

  datatype Envelope = Envelope(
    schemaVersion: u32,
    purpose: Purpose,
    subjectId: Text,
    actorReference: Text,
    signerId: Text,
    signerKeyId: Text,
    issuedAtUtc: Text,
    issuedAt: u64,
    expiresAt: u64,
    maxUses: u32,
    nonce: Text,
    scopeSha256: Text,
    parentReceiptId: Text,
    delegationDepth: u32,
    maxDelegationDepth: u32,
    scopePath: Text,
    capabilities: seq<Text>)

  datatype Receipt = Receipt(
    envelope: Envelope,
    algorithm: Text,
    envelopeSha256: Text,
    signature: Text,
    receiptId: Text)

  datatype ReceiptStatus = Valid | Invalid | SignerUnknown | SignatureRejected | PurposeMismatch | SubjectMismatch

  /** The hash and the signature verifier, which this model leaves uninterpreted. */
  datatype Crypto = Crypto(
    sha: Hash,
    knows: (Text, Text) -> bool,
    verify: (Text, Text, Text, Text) -> bool)

  /** A signer: its identity, its algorithm, and a signature per message or a refusal. */
  datatype Signer = Signer(signerId: Text, algorithm: Text, sign: Text -> Option<Text>)

  const RECEIPT_PREFIX: Text := "guff:authority:sha256:"

  predicate ValidReceiptId(id: Text) {
    PrefixedSha256(id, RECEIPT_PREFIX)
  }

  predicate NoDuplicates(xs: seq<Text>) {
    forall i, j | 0 <= i < j < |xs| :: xs[i] != xs[j]
  }

  // ----- envelope contract -----

  predicate ValidCommon(e: Envelope) {
    && 1 <= e.schemaVersion <= 3
    && ValidToken(e.subjectId, 256)
    && 0 < |e.actorReference| <= 256
    && ValidToken(e.signerId, 128)
    && 0 < |e.issuedAtUtc| <= 128
    && ValidToken(e.nonce, 128)
    && IsSha256(e.scopeSha256)
  }

  predicate ValidBounded(e: Envelope) {
    && ValidToken(e.signerKeyId, 128)
    && e.issuedAt != 0
    && e.issuedAt < e.expiresAt
    && 1 <= e.maxUses <= 1024
  }

  predicate ValidDelegable(sha: Hash, e: Envelope) {
    && ValidToken(e.scopePath, 512)
    && e.scopeSha256 == sha(e.scopePath)
    && 1 <= |e.capabilities| <= 32
    && (forall i | 0 <= i < |e.capabilities| :: ValidToken(e.capabilities[i], 128))
    && NoDuplicates(e.capabilities)
    && e.maxDelegationDepth <= 8
    && e.delegationDepth <= e.maxDelegationDepth
    && (if e.delegationDepth == 0 then e.parentReceiptId == [] else ValidReceiptId(e.parentReceiptId))
  }

  /** No validation error is reported for the envelope. */
  predicate ValidEnvelope(sha: Hash, e: Envelope) {
    && ValidCommon(e)
    && (e.schemaVersion >= 2 ==> ValidBounded(e))
    && (e.schemaVersion == 3 ==> ValidDelegable(sha, e))
  }

  // ----- content identity -----

  function JoinLines(lines: seq<Text>): Text
    requires lines != []
  {
    if |lines| == 1 then lines[0] else lines[0] + "\n" + JoinLines(lines[1..])
  }

  /** Who signs what about whom, up to the issue time in words. */
  function IdentityLines(e: Envelope): seq<Text> {
    [Dec(e.schemaVersion), Dec(e.purpose.Code()), e.subjectId, e.actorReference, e.signerId]
    + (if e.schemaVersion >= 2 then [e.signerKeyId] else [])
    + [e.issuedAtUtc]
  }

  function LimitLines(e: Envelope): seq<Text> {
    (if e.schemaVersion >= 2 then [Dec(e.issuedAt), Dec(e.expiresAt), Dec(e.maxUses)] else []) + [e.nonce, e.scopeSha256]
  }

  function DelegationLines(e: Envelope): seq<Text> {
    var caps := Ordering.Sort(e.capabilities);
    if e.schemaVersion == 3
    then [e.parentReceiptId, Dec(e.delegationDepth), Dec(e.maxDelegationDepth), e.scopePath, Dec(|caps|)] + caps
    else []
  }

  function EnvelopeLines(e: Envelope): (lines: seq<Text>)
    ensures lines != []
  {
    IdentityLines(e) + LimitLines(e) + DelegationLines(e)
  }

  function CanonicalEnvelope(e: Envelope): Text {
    JoinLines(EnvelopeLines(e))
  }

  function ReceiptId(sha: Hash, e: Envelope, algorithm: Text, signature: Text): (id: Text)
    ensures ValidReceiptId(id)
  {
    var hash := sha(JoinLines([sha(CanonicalEnvelope(e)), algorithm, signature]));
    assert (RECEIPT_PREFIX + hash)[|RECEIPT_PREFIX|..] == hash;
    RECEIPT_PREFIX + hash
  }

  /** The receipt's stored identities are those its content hashes to. */
  predicate ContentAddressed(sha: Hash, r: Receipt) {
    && r.envelopeSha256 == sha(CanonicalEnvelope(r.envelope))
    && r.receiptId == ReceiptId(sha, r.envelope, r.algorithm, r.signature)
  }

  function VerifyReceipt(crypto: Crypto, r: Receipt, purpose: Purpose, subject: Text): ReceiptStatus {
    if !ValidEnvelope(crypto.sha, r.envelope) then Invalid
    else if r.envelope.purpose != purpose then PurposeMismatch
    else if r.envelope.subjectId != subject then SubjectMismatch
    else if !ValidToken(r.algorithm, 64) || !(0 < |r.signature| <= 2048) then Invalid
    else if !ContentAddressed(crypto.sha, r) then Invalid
    else if !crypto.knows(r.envelope.signerId, r.algorithm) then SignerUnknown
    else if !crypto.verify(r.envelope.signerId, r.algorithm, CanonicalEnvelope(r.envelope), r.signature) then SignatureRejected
    else Valid
  }

  function IssueReceipt(sha: Hash, e: Envelope, signer: Signer): Option<Receipt> {
    if !ValidEnvelope(sha, e) || signer.signerId != e.signerId || !ValidToken(signer.algorithm, 64) then None
    else
      match signer.sign(CanonicalEnvelope(e))
      case None => None
      case Some(signature) =>
        if !(0 < |signature| <= 2048) then None
        else Some(Receipt(e, signer.algorithm, sha(CanonicalEnvelope(e)), signature,
                          ReceiptId(sha, e, signer.algorithm, signature)))
  }

  /** A receipt issued by a signer the verifier trusts verifies for its own purpose and subject, and for no other. */
  lemma IssuedVerifies(crypto: Crypto, e: Envelope, signer: Signer, purpose: Purpose, subject: Text)
    requires crypto.knows(signer.signerId, signer.algorithm)
    requires forall message :: signer.sign(message).Some? ==>
               crypto.verify(signer.signerId, signer.algorithm, message, signer.sign(message).value)
    ensures var issued := IssueReceipt(crypto.sha, e, signer);
            issued.Some? ==>
              (VerifyReceipt(crypto, issued.value, purpose, subject) == Valid
               <==> purpose == e.purpose && subject == e.subjectId)
  {
  }

  // ----- attenuation -----

  predicate ScopeContains(parent: Text, child: Text) {
    if parent == [] || child == [] then false
    else if parent == child then true
    else if !(parent <= child) then false
    else if |child| <= |parent| then false
    else if parent[|parent| - 1] == '/' then true
    else child[|parent|] == '/'
  }

  /** Sorted-range inclusion counts repetitions, so it is inclusion of multisets. */
  predicate CapabilitiesContain(parent: seq<Text>, child: seq<Text>) {
    parent != [] && child != [] && multiset(child) <= multiset(parent)
  }

  /** Scope containment is a partial order on non-empty paths. */
  lemma ScopeIsPartialOrder(a: Text, b: Text, c: Text)
    requires a != []
    ensures ScopeContains(a, a)
    ensures ScopeContains(a, b) && ScopeContains(b, a) ==> a == b
    ensures ScopeContains(a, b) && ScopeContains(b, c) ==> ScopeContains(a, c)
  {
    if ScopeContains(a, b) && ScopeContains(b, c) && a != b && b != c {
      assert a <= c;
      assert c[|a|] == b[|a|];
      assert c[|a| - 1] == a[|a| - 1];
    }
  }

  lemma CapabilitiesTransitive(a: seq<Text>, b: seq<Text>, c: seq<Text>)
    requires CapabilitiesContain(a, b) && CapabilitiesContain(b, c)
    ensures CapabilitiesContain(a, c)
    ensures forall x | x in c :: x in a
  {
    forall x | x in c ensures x in a {
      assert x in multiset(c);
      assert x in multiset(a);
    }
  }

  predicate StrictlyAttenuated(parent: Envelope, child: Envelope) {
    || child.scopePath != parent.scopePath
    || |child.capabilities| < |parent.capabilities|
    || child.expiresAt < parent.expiresAt
    || child.maxUses < parent.maxUses
    || child.maxDelegationDepth < parent.maxDelegationDepth
  }
}
