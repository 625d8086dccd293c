/** Delegating a child receipt, and the gate that spends one use of a receipt for a privileged operation. */
module AuthorityGate {
  import opened Wrappers
  import opened Text
  import opened AuthorityReceipt
  import AL = AuthorityLedger

  // ----- the delegator -----

  datatype DelegationStatus =
    | Issued | InvalidParent | ScopeAmplification | CapabilityAmplification | LifetimeAmplification
    | UseAmplification | DepthExceeded | SignerMismatch | NoAttenuation | SigningFailed | LedgerRejected

  datatype DelegationRequest = DelegationRequest(
    parent: Receipt,
    actorReference: Text,
    issuedAtUtc: Text,
    nonce: Text,
    scopePath: Text,
    capabilities: seq<Text>,
    issuedAt: u64,
    expiresAt: u64,
    maxUses: u32,
    maxDelegationDepth: u32)

  function ChildCeiling(request: DelegationRequest): u32 {
    if request.maxDelegationDepth == 0 then request.parent.envelope.maxDelegationDepth else request.maxDelegationDepth
  }

  /** The first check of the request that fails, or Issued when none does. */
  function RequestChecks(crypto: Crypto, request: DelegationRequest, signer: Signer): DelegationStatus {
    var parent := request.parent;
    var pe := parent.envelope;
    if pe.schemaVersion != 3 || |pe.parentReceiptId| > 96 then InvalidParent
    else if VerifyReceipt(crypto, parent, pe.purpose, pe.subjectId) != Valid then InvalidParent
    else if signer.signerId != pe.signerId || signer.algorithm != parent.algorithm then SignerMismatch
    else if pe.delegationDepth >= pe.maxDelegationDepth then DepthExceeded
    else if !ScopeContains(pe.scopePath, request.scopePath) then ScopeAmplification
    else if !CapabilitiesContain(pe.capabilities, request.capabilities) then CapabilityAmplification
    else if request.issuedAt < pe.issuedAt || request.expiresAt > pe.expiresAt || request.expiresAt <= request.issuedAt
    then LifetimeAmplification
    else if request.maxUses == 0 || request.maxUses > pe.maxUses then UseAmplification
    else if ChildCeiling(request) < pe.delegationDepth + 1 || ChildCeiling(request) > pe.maxDelegationDepth then DepthExceeded
    else if !(0 < |request.actorReference| <= 256) || !(0 < |request.issuedAtUtc| <= 128) || !(0 < |request.nonce| <= 128)
    then InvalidParent
    else Issued
  }

  function ChildEnvelope(crypto: Crypto, request: DelegationRequest): Envelope
    requires request.parent.envelope.delegationDepth < MAX_U32
  {
    var pe := request.parent.envelope;
    Envelope(3, pe.purpose, pe.subjectId, request.actorReference, pe.signerId, pe.signerKeyId, request.issuedAtUtc,
             request.issuedAt, request.expiresAt, request.maxUses, request.nonce, crypto.sha(request.scopePath),
             request.parent.receiptId, pe.delegationDepth + 1, ChildCeiling(request), request.scopePath, request.capabilities)
  }

  datatype DelegationOutcome = DelegationOutcome(store: AL.Store, status: DelegationStatus, child: Option<Receipt>)

  function Delegate(crypto: Crypto, st: AL.Store, request: DelegationRequest, signer: Signer, now: u64, appends: bool): DelegationOutcome {
    var status := RequestChecks(crypto, request, signer);
    if status != Issued then DelegationOutcome(st, status, None)
    else
      var e := ChildEnvelope(crypto, request);
      if !StrictlyAttenuated(request.parent.envelope, e) then DelegationOutcome(st, NoAttenuation, None)
      else
        match IssueReceipt(crypto.sha, e, signer)
        case None => DelegationOutcome(st, SigningFailed, None)
        case Some(child) =>
          var registered := AL.Step(crypto, st, AL.RegisterDelegation(request.parent, child, now), appends);
          if registered.status != AL.Allowed then DelegationOutcome(registered.store, LedgerRejected, None)
          else DelegationOutcome(registered.store, Issued, Some(child))
  }

  /**
   The delegator's own checks already establish the ledger's attenuation contract: once a trusted signer has signed
   the child, the ledger can refuse it only because of ledger state, the clock, or the budget.
   */
  lemma RequestMeetsContract(crypto: Crypto, request: DelegationRequest, signer: Signer, child: Receipt)
    requires RequestChecks(crypto, request, signer) == Issued
    requires StrictlyAttenuated(request.parent.envelope, ChildEnvelope(crypto, request))
    requires IssueReceipt(crypto.sha, ChildEnvelope(crypto, request), signer) == Some(child)
    requires crypto.verify(signer.signerId, signer.algorithm, CanonicalEnvelope(child.envelope), child.signature)
    ensures AL.DelegationContract(crypto, request.parent, child)
  {
    assert VerifyReceipt(crypto, child, child.envelope.purpose, child.envelope.subjectId) == Valid;
  }

  // ----- the gate -----

  datatype GateStatus = Allowed | ReceiptMissing | ReceiptRejected | ScopeMismatch | CapabilityMismatch | LedgerRejects

  datatype GateOutcome = GateOutcome(store: AL.Store, status: GateStatus, ledgerStatus: AL.Status, useCount: nat)

  /** What the gate refuses before it touches the ledger. */
  function GateChecks(r: Receipt, scope: Text, capability: Text): GateStatus {
    if r.envelope.scopeSha256 != scope then ScopeMismatch
    else if r.envelope.schemaVersion == 3 && (capability == [] || capability !in r.envelope.capabilities) then CapabilityMismatch
    else Allowed
  }

  function GateVerdict(s: AL.Status): GateStatus {
    match s
    case Allowed => GateStatus.Allowed
    case Rejected => ReceiptRejected
    case UnknownSigner => ReceiptRejected
    case _ => LedgerRejects
  }

  function GateAuthorize(crypto: Crypto, st: AL.Store, receipt: Option<Receipt>, purpose: Purpose, subject: Text, scope: Text,
                         capability: Text, now: u64, appends: bool): GateOutcome {
    match receipt
    case None => GateOutcome(st, ReceiptMissing, AL.Rejected, 0)
    case Some(r) =>
      if GateChecks(r, scope, capability) != Allowed then GateOutcome(st, GateChecks(r, scope, capability), AL.Rejected, 0)
      else
        var used := AL.Step(crypto, st, AL.Authorize(r, purpose, subject, scope, now), appends);
        GateOutcome(used.store, GateVerdict(used.status), used.status, used.useCount)
  }

  /** A verdict on a use settles to Allowed exactly when accepted and appended, and then adds one use of that receipt. */
  lemma SettleUse(crypto: Crypto, st: AL.Store, r: Receipt, verdict: AL.Verdict, now: u64, appends: bool)
    requires verdict == AL.UseBudget(st.ledger, r, now) || (verdict.Refuse? && verdict.status != AL.Allowed)
    ensures var o := AL.Settle(crypto.sha, st, verdict, appends);
            && (o.status == AL.Allowed <==> verdict.Accept? && st.ledger.healthy && appends)
            && (o.status == AL.Allowed ==> o.store.ledger.UseCount(r.receiptId) == st.ledger.UseCount(r.receiptId) + 1)
            && (o.status != AL.Allowed ==> o.store == st)
  {
  }

  function GateOf(used: AL.Outcome): GateOutcome {
    GateOutcome(used.store, GateVerdict(used.status), used.status, used.useCount)
  }

  lemma SettledGate(crypto: Crypto, st: AL.Store, r: Receipt, verdict: AL.Verdict, now: u64, appends: bool)
    requires verdict == AL.UseBudget(st.ledger, r, now) || (verdict.Refuse? && verdict.status != AL.Allowed)
    ensures var o := GateOf(AL.Settle(crypto.sha, st, verdict, appends));
            && (o.status == Allowed <==> verdict.Accept? && st.ledger.healthy && appends)
            && (o.status == Allowed ==> o.store.ledger.UseCount(r.receiptId) == st.ledger.UseCount(r.receiptId) + 1)
            && (o.status != Allowed ==> o.store == st)
  {
    SettleUse(crypto, st, r, verdict, now, appends);
  }

  /** A use is refused by its checks or judged by its budget. */
  lemma VerdictOnUse(crypto: Crypto, l: AL.Ledger, r: Receipt, purpose: Purpose, subject: Text, scope: Text, now: u64)
    ensures var verdict := AL.JudgeAuthorize(crypto, l, r, purpose, subject, scope, now);
            verdict == AL.UseBudget(l, r, now) || (verdict.Refuse? && verdict.status != AL.Allowed)
  {
  }

  lemma GatePasses(crypto: Crypto, st: AL.Store, r: Receipt, purpose: Purpose, subject: Text, scope: Text, capability: Text, now: u64,
                   appends: bool)
    requires GateChecks(r, scope, capability) == Allowed
    ensures GateAuthorize(crypto, st, Some(r), purpose, subject, scope, capability, now, appends)
         == GateOf(AL.Settle(crypto.sha, st, AL.JudgeAuthorize(crypto, st.ledger, r, purpose, subject, scope, now), appends))
  {
  }

  /** The gate opens exactly when the receipt fits the operation and the ledger commits one more use of it. */
  lemma GateOpensExactly(crypto: Crypto, st: AL.Store, receipt: Option<Receipt>, purpose: Purpose, subject: Text, scope: Text,
                         capability: Text, now: u64, appends: bool)
    ensures var o := GateAuthorize(crypto, st, receipt, purpose, subject, scope, capability, now, appends);
            && (o.status == Allowed <==>
                && receipt.Some? && GateChecks(receipt.value, scope, capability) == Allowed
                && AL.JudgeAuthorize(crypto, st.ledger, receipt.value, purpose, subject, scope, now).Accept?
                && st.ledger.healthy && appends)
            && (o.status == Allowed ==>
                  o.store.ledger.UseCount(receipt.value.receiptId) == st.ledger.UseCount(receipt.value.receiptId) + 1)
            && (o.status != Allowed ==> o.store == st)
  {
    if receipt.Some? && GateChecks(receipt.value, scope, capability) == Allowed {
      var r := receipt.value;
      VerdictOnUse(crypto, st.ledger, r, purpose, subject, scope, now);
      SettledGate(crypto, st, r, AL.JudgeAuthorize(crypto, st.ledger, r, purpose, subject, scope, now), now, appends);
      GatePasses(crypto, st, r, purpose, subject, scope, capability, now, appends);
    }
  }

  /**
   Callers that name no capability, as recovery decisions and destructive execution do, are closed to every schema v3
   receipt: delegated authority can never be spent there.
   */
  lemma UnnamedCapabilityExcludesDelegable(crypto: Crypto, st: AL.Store, r: Receipt, purpose: Purpose, subject: Text, scope: Text,
                                           now: u64, appends: bool)
    requires r.envelope.schemaVersion == 3
    ensures var o := GateAuthorize(crypto, st, Some(r), purpose, subject, scope, [], now, appends);
            o.status != Allowed && o.store == st
  {
  }
}
