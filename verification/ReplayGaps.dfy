/** Runs in which every live call succeeds and replay then rejects the journal. */
module ReplayGaps {
  import opened Wrappers
  import opened Text
  import opened HashChain
  import AR = AuthorityReceipt
  import SK = SessionKey
  import SR = SessionReplay
  import RL = RuntimeLease
  import LR = RuntimeLeaseReplay

  const NO_ENVELOPE := AR.Envelope(0, AR.Recovery, [], [], [], [], [], 0, 0, 0, [], [], [], 0, 0, [], [])

  /** A voucher that only lends its identity. */
  function SomeVoucher(): (r: AR.Receipt)
    ensures AR.ValidReceiptId(r.receiptId)
  {
    assert (AR.RECEIPT_PREFIX + GENESIS)[|AR.RECEIPT_PREFIX|..] == GENESIS;
    AR.Receipt(NO_ENVELOPE, [], [], [], AR.RECEIPT_PREFIX + GENESIS)
  }

  // ----- session keys -----

  /** A coherent bundle with the given fingerprint, expiry and budget. */
  function SomeBundle(fingerprint: Text, expiresAt: u64, maxUses: u32): (b: SK.Bundle)
    ensures SK.BundleCoheres(b) && b.receipt.fingerprint == fingerprint
    ensures b.receipt.expiresAt == expiresAt && b.receipt.maxUses == maxUses
  {
    var v := SomeVoucher();
    var certificate := SK.CERTIFICATE_PREFIX + GENESIS;
    var receipt := SK.SESSION_PREFIX + GENESIS;
    assert certificate[|SK.CERTIFICATE_PREFIX|..] == GENESIS && receipt[|SK.SESSION_PREFIX|..] == GENESIS;
    SK.Bundle(v,
              SK.Certificate(1, v.receiptId, [], [], [], "s", "k", "a", fingerprint, AR.Recovery, [], [], [], [], 0, expiresAt, maxUses,
                             [], [], [], certificate),
              SK.SessionReceipt(1, certificate, v.receiptId, "s", "k", "a", fingerprint, AR.Recovery, [], [], [], [], 0, expiresAt, maxUses,
                                [], [], [], receipt))
  }

  function Registering(b: SK.Bundle): SR.SessionCall {
    SR.SessionCall(SK.RegisterBundle(b), true)
  }

  /**
   Whatever the fingerprint, expiry and budget, the ledger takes this registration; and replay takes the journal back
   exactly when the fingerprint is a digest and neither number is zero.
   */
  lemma RegistrationGap(sha: Hash, fingerprint: Text, expiresAt: u64, maxUses: u32)
    ensures var calls := [Registering(SomeBundle(fingerprint, expiresAt, maxUses))];
            && SR.Commits(SR.RunSessions(sha, []), calls[0])
            && (SK.ReplaySessions(sha, SR.RunSessions(sha, calls).journal).healthy <==>
                  IsSha256(fingerprint) && expiresAt != 0 && maxUses != 0)
  {
    var calls := [Registering(SomeBundle(fingerprint, expiresAt, maxUses))];
    assert calls[..0] == [];
    SR.SessionReplayIsExact(sha, calls);
    assert SR.AllReplayable(sha, []);
  }

  /** After any run, an accepted use of a session key at time zero makes replay reject the journal. */
  lemma ZeroTimeSessionUse(sha: Hash, calls: seq<SR.SessionCall>, id: Text)
    requires |calls| < MAX_U64 && SK.JudgeSession(SR.RunSessions(sha, calls).ledger, SK.ConsumeSession(id, 0)).Accept?
    ensures !SK.ReplaySessions(sha, SR.RunSessions(sha, calls + [SR.SessionCall(SK.ConsumeSession(id, 0), true)]).journal).healthy
  {
    var last := SR.SessionCall(SK.ConsumeSession(id, 0), true);
    SR.SessionReplayIsExact(sha, calls);
    LastIsNotReplayable(sha, calls, last);
    SR.SessionReplayIsExact(sha, calls + [last]);
  }

  lemma LastIsNotReplayable(sha: Hash, calls: seq<SR.SessionCall>, last: SR.SessionCall)
    requires SR.Commits(SR.RunSessions(sha, calls), last) && !SR.Replayable(last.op)
    ensures !SR.AllReplayable(sha, calls + [last])
  {
    assert (calls + [last])[..|calls|] == calls;
  }

  /** Such a use is accepted: register a bundle, then spend it at time zero. */
  lemma ZeroTimeSessionUseHappens(sha: Hash)
    ensures var b := SomeBundle(GENESIS, 1, 1);
            SK.JudgeSession(SR.RunSessions(sha, [Registering(b)]).ledger, SK.ConsumeSession(b.receipt.receiptId, 0)).Accept?
  {
    var calls := [Registering(SomeBundle(GENESIS, 1, 1))];
    assert calls[..0] == [];
  }

  // ----- leases -----

  /** After any run, an accepted use of a lease at time zero makes replay reject the journal. */
  lemma ZeroTimeLeaseUse(sha: Hash, kv: SK.KeyVerifier, calls: seq<LR.LeaseCall>, id: Text)
    requires |calls| < MAX_U64 && RL.JudgeLeaseUse(LR.RunLeases(sha, kv, calls).ledger, id, 0).AcceptLease?
    ensures !LR.ReplayLeases(sha, LR.RunLeases(sha, kv, calls + [LR.LeaseCall(LR.ConsumeOp(id, 0), true)]).journal).healthy
  {
    var longer := calls + [LR.LeaseCall(LR.ConsumeOp(id, 0), true)];
    assert longer[..|calls|] == calls;
    LR.LeaseReplayIsExact(sha, kv, calls);
    LR.LeaseReplayIsExact(sha, kv, longer);
  }

  /** A verifier that knows every key under one fingerprint and accepts every signature. */
  const TRUSTING := SK.KeyVerifier(
    (signer: Text, key: Text, algorithm: Text) => true,
    (signer: Text, key: Text, algorithm: Text) => Some(GENESIS),
    (signer: Text, key: Text, algorithm: Text, message: Text, signature: Text) => true)

  /** A bundle with a branch to lend from. */
  function LendingBundle(): (b: SK.Bundle) {
    var b := SomeBundle(GENESIS, 2, 1);
    b.(receipt := b.receipt.(issuedAt := 1, scopeSha256 := GENESIS, capabilities := ["c"]))
  }

  function SomeBinding(): (b: RL.Binding)
    ensures RL.ValidBinding(b)
  {
    assert (RL.HARDWARE_PREFIX + GENESIS)[|RL.HARDWARE_PREFIX|..] == GENESIS;
    assert (RL.TRANSACTION_PREFIX + GENESIS)[|RL.TRANSACTION_PREFIX|..] == GENESIS;
    RL.Binding(RL.HARDWARE_PREFIX + GENESIS, GENESIS, GENESIS, "s", RL.TRANSACTION_PREFIX + GENESIS, 0)
  }

  const SIGNING := RL.KeySigner("s", "k", "a", GENESIS, (message: Text) => Some("g"))

  /** The lease is issued by the issuer's own rules, so it validates. */
  lemma SomeLeaseIsIssued(sha: Hash) returns (lease: RL.Lease)
    ensures RL.ValidateLease(sha, TRUSTING, lease, LendingBundle()) == RL.Granted && lease.expiresAt == 2 && lease.maxUses == 1
  {
    var b, q := LendingBundle(), RL.LeaseRequest(SomeBinding(), "c", 1, 2, 1, "n");
    assert b.receipt.capabilities[0] == "c";
    assert RL.LeaseRequestFits(b, q, SIGNING);
    lease := RL.IssueLease(sha, b, q, SIGNING).value;
    RL.IssuedLeaseValidates(sha, TRUSTING, b, q, SIGNING);
  }

  /** Such a use is accepted: register an issued lease, then use it at time zero. */
  lemma ZeroTimeLeaseUseHappens(sha: Hash) returns (calls: seq<LR.LeaseCall>, id: Text)
    ensures |calls| == 1 && RL.JudgeLeaseUse(LR.RunLeases(sha, TRUSTING, calls).ledger, id, 0).AcceptLease?
  {
    var lease := SomeLeaseIsIssued(sha);
    calls, id := [LR.LeaseCall(LR.RegisterOp(lease, LendingBundle(), 0), true)], lease.leaseId;
    RegisteredLeaseIsUsable(sha, lease, LendingBundle());
    assert calls[..0] == [];
  }

  lemma RegisteredLeaseIsUsable(sha: Hash, lease: RL.Lease, b: SK.Bundle)
    requires RL.ValidateLease(sha, TRUSTING, lease, b) == RL.Granted && lease.expiresAt > 0 && lease.maxUses > 0
    ensures var st := RL.SettleLease(sha, LR.RunLeases(sha, TRUSTING, []), RL.JudgeRegister(sha, TRUSTING, RL.EMPTY_LEASES, lease, b, 0), true).store;
            RL.JudgeLeaseUse(st.ledger, lease.leaseId, 0).AcceptLease?
  {
  }
}
