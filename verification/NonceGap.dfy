/** A run in which a registered child takes over its parent's nonce and the parent's remaining budget is lost. */
module NonceGap {
  import opened Text
  import opened HashChain
  import opened AuthorityReceipt
  import opened AuthorityLedger
  import AB = AuthorityBook
  import AF = AuthorityFinality

  /** A verifier that knows every signer and accepts every signature. */
  function Trusting(sha: Hash): Crypto {
    Crypto(sha, (signer: Text, algorithm: Text) => true, (signer: Text, algorithm: Text, message: Text, signature: Text) => true)
  }

  const KEY := SignerKey("g", "k", "a", 1, 0, 0)

  function ParentEnvelope(sha: Hash): Envelope {
    Envelope(3, CapabilityGrant, "s", "b", "g", "k", "u", 1, 4, 3, "n", sha("p"), [], 0, 1, "p", ["c"])
  }

  function Signed(sha: Hash, e: Envelope, signature: Text): Receipt {
    Receipt(e, "a", sha(CanonicalEnvelope(e)), signature, ReceiptId(sha, e, "a", signature))
  }

  function Parent(sha: Hash): Receipt {
    Signed(sha, ParentEnvelope(sha), "x")
  }

  /** One level down, with a shorter life, one use, and the parent's own nonce. */
  function ChildEnvelope(sha: Hash): Envelope {
    ParentEnvelope(sha).(expiresAt := 3, maxUses := 1, parentReceiptId := Parent(sha).receiptId, delegationDepth := 1)
  }

  function Child(sha: Hash): Receipt {
    Signed(sha, ChildEnvelope(sha), "xy")
  }

  function Calls(sha: Hash): seq<Call> {
    [Call(TrustKey(KEY), true), Call(RegisterDelegation(Parent(sha), Child(sha), 2), true)]
  }

  lemma ParentVerifies(sha: Hash)
    ensures VerifyReceipt(Trusting(sha), Parent(sha), CapabilityGrant, "s") == Valid
  {
  }

  lemma ChildVerifies(sha: Hash)
    ensures VerifyReceipt(Trusting(sha), Child(sha), CapabilityGrant, "s") == Valid
  {
  }

  lemma ContractHolds(sha: Hash)
    ensures DelegationContract(Trusting(sha), Parent(sha), Child(sha))
  {
    ParentVerifies(sha);
    ChildVerifies(sha);
  }

  function Keyed(l: Ledger): Ledger {
    l.(keys := map[KeyMapId("g", "k") := KEY])
  }

  lemma LineageIsClear(sha: Hash, l: Ledger)
    requires l.keys == map[KeyMapId("g", "k") := KEY] && l.parent == map[] && l.uses == map[] && l.reserved == map[]
    requires l.revoked == map[] && l.nonces == map[]
    ensures LineageChecks(l, Parent(sha), Child(sha), 2) == Allowed && DelegationBudget(l, Parent(sha), Child(sha), 2).Accept?
  {
  }

  /** Under every hash, a registration with a shared nonce is accepted on a fresh ledger that trusts the key. */
  lemma SharedNonceIsAccepted(sha: Hash)
    ensures AF.Commits(Trusting(sha), Calls(sha), 1)
    ensures EnvelopeNonce(Parent(sha).envelope) == EnvelopeNonce(Child(sha).envelope)
  {
    assert Calls(sha)[..1][..0] == [];
    var l := Run(Trusting(sha), Calls(sha)[..1]).ledger;
    KeyIsTrusted(sha);
    ContractHolds(sha);
    LineageIsClear(sha, l);
  }

  lemma KeyIsTrusted(sha: Hash)
    ensures var l := Run(Trusting(sha), Calls(sha)[..1]).ledger;
            && l.keys == map[KeyMapId("g", "k") := KEY] && l.parent == map[] && l.uses == map[] && l.reserved == map[]
            && l.revoked == map[] && l.nonces == map[] && l.healthy
  {
    assert Calls(sha)[..1] == [Call(TrustKey(KEY), true)] && [Call(TrustKey(KEY), true)][..0] == [];
  }

  // ----- a hash under which the two receipts differ -----

  const ONES: Digest := Repeat('1', 64)

  /** A hash that tells apart texts of even and of odd length. */
  const PARITY: Hash := (t: Text) => if |t| % 2 == 0 then GENESIS else ONES

  lemma ParityTells(a: Text, b: Text)
    requires |a| % 2 == 0 && |b| % 2 == 1
    ensures RECEIPT_PREFIX + PARITY(a) != RECEIPT_PREFIX + PARITY(b)
  {
    assert (RECEIPT_PREFIX + PARITY(a))[|RECEIPT_PREFIX|] == GENESIS[0] == '0';
    assert (RECEIPT_PREFIX + PARITY(b))[|RECEIPT_PREFIX|] == ONES[0] == '1';
  }

  lemma IdentityLength(sha: Hash, e: Envelope, signature: Text)
    ensures |AB.IdentityText(sha, Signed(sha, e, signature))| == 67 + |signature|
    ensures Signed(sha, e, signature).receiptId == RECEIPT_PREFIX + sha(AB.IdentityText(sha, Signed(sha, e, signature)))
  {
    AB.ThreeLines(sha(CanonicalEnvelope(e)), "a", signature);
  }

  lemma SignedDiffer(e: Envelope, f: Envelope, even: Text, odd: Text)
    requires |even| % 2 == 1 && |odd| % 2 == 0
    ensures Signed(PARITY, e, even).receiptId != Signed(PARITY, f, odd).receiptId
  {
    IdentityLength(PARITY, e, even);
    IdentityLength(PARITY, f, odd);
    ParityTells(AB.IdentityText(PARITY, Signed(PARITY, e, even)), AB.IdentityText(PARITY, Signed(PARITY, f, odd)));
  }

  lemma IdsDiffer()
    ensures Parent(PARITY).receiptId != Child(PARITY).receiptId
  {
    SignedDiffer(ParentEnvelope(PARITY), ChildEnvelope(PARITY), "x", "xy");
  }

  // ----- the parent is stranded -----

  /**
   Under every hash that tells the two receipts' identities apart, the parent has a use left beside its child's budget
   and can never spend it. Such hashes exist.
   */
  lemma SharedNonceHappens(sha: Hash, purpose: Purpose, subject: Text, scope: Text, other: Receipt, now: u64)
    ensures Parent(PARITY).receiptId != Child(PARITY).receiptId
    ensures Parent(sha).receiptId != Child(sha).receiptId ==>
              var crypto, p := Trusting(sha), Parent(sha);
              var l := Run(crypto, Calls(sha)).ledger;
              && JudgeAuthorize(crypto, l, p, purpose, subject, scope, now).Refuse?
              && JudgeDelegation(crypto, l, p, other, now).Refuse?
              && l.UseCount(p.receiptId) + l.DelegatedUses(p.receiptId) < p.envelope.maxUses
  {
    IdsDiffer();
    if Parent(sha).receiptId != Child(sha).receiptId {
      SharedNonceIsAccepted(sha);
      AF.SharedNonceStrandsParent(Trusting(sha), Calls(sha), 1, purpose, subject, scope, other, now);
      BudgetRemains(sha);
    }
  }

  lemma FirstReservation(l: Ledger, p: Receipt, c: Receipt, now: u64, v: Verdict)
    requires l.uses == map[] && l.reserved == map[] && v == DelegationBudget(l, p, c, now) && v.Accept?
    ensures Applicable(l, v.event)
    ensures Apply(l, v.event).UseCount(p.receiptId) == 1 && Apply(l, v.event).DelegatedUses(p.receiptId) == c.envelope.maxUses
  {
  }

  lemma JudgedAsBudget(crypto: Crypto, l: Ledger, p: Receipt, c: Receipt, now: u64)
    requires Judge(crypto, l, RegisterDelegation(p, c, now)).Accept?
    ensures Judge(crypto, l, RegisterDelegation(p, c, now)) == DelegationBudget(l, p, c, now)
  {
  }

  lemma AfterFirstRegistration(crypto: Crypto, calls: seq<Call>, p: Receipt, c: Receipt, now: u64)
    requires |calls| == 2 && calls[1].op == RegisterDelegation(p, c, now) && AF.Commits(crypto, calls, 1)
    requires Run(crypto, calls[..1]).ledger.uses == map[] && Run(crypto, calls[..1]).ledger.reserved == map[]
    ensures var l := Run(crypto, calls).ledger; l.UseCount(p.receiptId) == 1 && l.DelegatedUses(p.receiptId) == c.envelope.maxUses
  {
    AF.AfterCommit(crypto, calls, 1);
    assert calls[..2] == calls;
    var l := Run(crypto, calls[..1]).ledger;
    JudgedAsBudget(crypto, l, p, c, now);
    FirstReservation(l, p, c, now, Judge(crypto, l, calls[1].op));
  }

  lemma BudgetRemains(sha: Hash)
    ensures var l, p := Run(Trusting(sha), Calls(sha)).ledger, Parent(sha);
            l.UseCount(p.receiptId) + l.DelegatedUses(p.receiptId) < p.envelope.maxUses
  {
    SharedNonceIsAccepted(sha);
    KeyIsTrusted(sha);
    AfterFirstRegistration(Trusting(sha), Calls(sha), Parent(sha), Child(sha), 2);
  }
}
