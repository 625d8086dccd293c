/** The gates over the three ledger objects, proved to perform the gate functions on their stores. */
module SpendingGateObjects {
  import opened Wrappers
  import opened Text
  import opened AuthorityReceipt
  import opened SessionKey
  import opened RuntimeLease
  import opened SpendingGates
  import opened AuthorityLedgerObject
  import opened SessionKeyLedgerObject
  import opened RuntimeLeaseLedgerObject
  import AG = AuthorityGate

  class LedgerGates {
    const crypto: Crypto
    const keyVerifier: KeyVerifier
    const authority: AuthorityLedgerFile
    const sessions: SessionKeyLedgerFile
    const leases: RuntimeLeaseLedgerFile

    ghost predicate Valid() {
      authority.crypto == crypto && sessions.sha == crypto.sha && leases.sha == crypto.sha
    }

    function View(): Stores
      reads authority, sessions, leases
    {
      Stores(authority.View(), sessions.View(), leases.View())
    }

    constructor (crypto: Crypto, keyVerifier: KeyVerifier, authority: AuthorityLedgerFile, sessions: SessionKeyLedgerFile,
                 leases: RuntimeLeaseLedgerFile)
      requires authority.crypto == crypto && sessions.sha == crypto.sha && leases.sha == crypto.sha
      ensures Valid() && this.crypto == crypto && this.keyVerifier == keyVerifier
      ensures this.authority == authority && this.sessions == sessions && this.leases == leases
    {
      this.crypto, this.keyVerifier := crypto, keyVerifier;
      this.authority, this.sessions, this.leases := authority, sessions, leases;
    }

    method AuthorizeVoucher(r: Receipt, q: Operation, now: u64, appends: bool) returns (status: AG.GateStatus)
      requires Valid()
      modifies authority
      ensures var o := AG.GateAuthorize(crypto, old(authority.View()), Some(r), q.purpose, q.subject, q.scope, q.capability, now, appends);
              authority.View() == o.store && status == o.status
    {
      var checked := AG.GateChecks(r, q.scope, q.capability);
      if checked != AG.Allowed {
        return checked;
      }
      var ledgerStatus, useCount := authority.AuthorizeAndConsume(r, q.purpose, q.subject, q.scope, now, appends);
      return AG.GateVerdict(ledgerStatus);
    }

    method AuthorizeSession(b: Bundle, q: Operation, c: Circumstances) returns (status: SessionStatus)
      requires Valid()
      modifies authority, sessions
      ensures SessionGateOutcome(View(), status) == SessionGate(crypto, keyVerifier, old(View()), b, q, c)
    {
      var preflight := Preflight(crypto, keyVerifier, sessions.Memory(), b, q.purpose, q.subject, q.scope, q.capability,
                                 c.sessionCheckAt);
      if preflight != Allowed {
        return preflight;
      }
      var backing := AuthorizeVoucher(b.voucher, q, c.authorityAt, c.authorityAppends);
      if backing != AG.Allowed {
        return VoucherRejected;
      }
      var useCount;
      status, useCount := sessions.Consume(b.receipt.receiptId, c.sessionUseAt, c.sessionAppends);
    }

    method AuthorizeLease(lease: Lease, b: Bundle, observed: Binding, c: Circumstances) returns (status: LeaseStatus)
      requires Valid()
      modifies authority, sessions, leases
      ensures LeaseGateOutcome(View(), status) == LeaseGate(crypto, keyVerifier, old(View()), lease, b, observed, c)
    {
      var preflight := LeasePreflight(crypto.sha, keyVerifier, leases.Memory(), lease, b, observed, c.leaseCheckAt);
      if preflight != Granted {
        return preflight;
      }
      var session := AuthorizeSession(b, LeaseOperation(lease), c);
      if session != Allowed {
        return SessionKeyRejected;
      }
      var useCount;
      status, useCount := leases.Consume(lease.leaseId, c.leaseUseAt, c.leaseAppends);
    }
  }
}
