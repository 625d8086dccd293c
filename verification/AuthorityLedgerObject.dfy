/**
 The ledger as the source has it: an object whose methods check, append to the journal, and then
 update its maps. Each method is proved to perform one `Step` of the value-level ledger.
 */
module AuthorityLedgerObject {
  import opened Text
  import opened HashChain
  import opened AuthorityReceipt
  import opened AuthorityLedger
  import opened AuthorityReplay

  /** The journal position and the maps change independently. */
  lemma AdvanceCommutes(sha: Hash, l: Ledger, e: Event, body: seq<Text>)
    requires Applicable(l, e)
    ensures Applicable(Advance(sha, l, body), e) && Apply(Advance(sha, l, body), e) == Advance(sha, Apply(l, e), body)
  {
  }

  class AuthorityLedgerFile {
    const crypto: Crypto
    var keys: map<Text, SignerKey>
    var receiptUses: map<Text, nat>
    var delegatedUses: map<Text, nat>
    var revokedReceipts: map<Text, u64>
    var nonceReceipts: map<Text, Text>
    var delegationParent: map<Text, Text>
    var sequence: nat
    var lastRecord: Text
    var healthy: bool
    var journal: seq<Text>

    function Memory(): Ledger
      reads this
    {
      Ledger(keys, receiptUses, delegatedUses, revokedReceipts, nonceReceipts, delegationParent, sequence, lastRecord, healthy)
    }

    function View(): Store
      reads this
    {
      Store(Memory(), journal)
    }

    /** Opens a ledger over an existing journal. */
    constructor (crypto: Crypto, journal: seq<Text>)
      ensures this.crypto == crypto && this.journal == journal
      ensures Memory() == Replay(crypto.sha, journal)
    {
      this.crypto := crypto;
      this.journal := journal;
      keys, receiptUses, delegatedUses, revokedReceipts := map[], map[], map[], map[];
      nonceReceipts, delegationParent := map[], map[];
      sequence, lastRecord, healthy := 0, [], true;
      new;
      var ok := ReplayJournal();
    }

    method AppendEvent(body: seq<Text>, appends: bool) returns (ok: bool)
      modifies this`sequence, this`lastRecord, this`journal
      ensures ok == (healthy && appends)
      ensures !ok ==> View() == old(View())
      ensures ok ==> Memory() == Advance(crypto.sha, old(Memory()), body)
      ensures ok ==> journal == old(journal) + [Line(crypto.sha, old(sequence), old(lastRecord), body)]
    {
      if !healthy || !appends {
        return false;
      }
      var canonical := Canonical(sequence, lastRecord, body);
      var record := crypto.sha(canonical);
      journal := journal + [canonical + "\t" + record];
      sequence := sequence + 1;
      lastRecord := record;
      return true;
    }

    /** Applies one admitted event to the maps, as both the live calls and replay do. */
    method ApplyEvent(e: Event)
      requires Applicable(Memory(), e)
      modifies this
      ensures Memory() == Apply(old(Memory()), e) && journal == old(journal)
    {
      match e
      case KeyTrusted(signer, key, algorithm, from, until) =>
        keys := keys[KeyMapId(signer, key) := SignerKey(signer, key, algorithm, from, until, 0)];
      case KeyRetired(signer, key, at) =>
        var id := KeyMapId(signer, key);
        keys := keys[id := keys[id].(validUntil := at)];
      case KeyRevoked(signer, key, at) =>
        var id := KeyMapId(signer, key);
        keys := keys[id := keys[id].(revokedAt := at)];
      case ReceiptRevoked(id, at) =>
        revokedReceipts := revokedReceipts[id := at];
      case Used(id, signer, key, nonce, use, _) =>
        receiptUses := receiptUses[id := use];
        nonceReceipts := nonceReceipts[NonceKey(signer, key, nonce) := id];
      case Delegated(p, c, signer, key, pn, cn, use, reservation, _) =>
        receiptUses := receiptUses[p := use];
        delegatedUses := delegatedUses[p := Memory().DelegatedUses(p) + reservation];
        nonceReceipts := nonceReceipts[NonceKey(signer, key, pn) := p];
        nonceReceipts := nonceReceipts[NonceKey(signer, key, cn) := c];
        delegationParent := delegationParent[c := p];
    }

    /** Journal first, then the maps: a failed append changes nothing. */
    method Record(e: Event, appends: bool) returns (status: Status)
      requires Applicable(Memory(), e)
      modifies this
      ensures status == if old(healthy) && appends then Allowed else StorageError
      ensures View() == if status == Allowed then Commit(crypto.sha, old(View()), e) else old(View())
    {
      var ok := AppendEvent(Print(e), appends);
      if !ok {
        return StorageError;
      }
      AdvanceCommutes(crypto.sha, old(Memory()), e, Print(e));
      ApplyEvent(e);
      return Allowed;
    }

    method AncestorIsRevoked(id: Text, now: u64) returns (r: bool)
      ensures r == AncestorRevoked(Memory(), id, now)
    {
      var current := id;
      for depth := 0 to MAX_WALK
        invariant AncestorRevoked(Memory(), id, now) == AncestorRevokedWithin(Memory(), current, now, MAX_WALK - depth)
      {
        if current !in delegationParent {
          return false;
        }
        var p := delegationParent[current];
        if p in revokedReceipts && revokedReceipts[p] <= now {
          return true;
        }
        current := p;
      }
      return true;
    }

    method TrustKey(k: SignerKey, appends: bool) returns (status: Status)
      modifies this
      ensures Outcome(View(), status, 0) == Step(crypto, old(View()), Op.TrustKey(k), appends)
    {
      if !healthy {
        return Corrupt;
      }
      if !ValidKey(k) {
        return Rejected;
      }
      var id := KeyMapId(k.signerId, k.keyId);
      if id in keys {
        return Duplicate;
      }
      status := Record(KeyTrusted(k.signerId, k.keyId, k.algorithm, k.validFrom, k.validUntil), appends);
    }

    method RetireKey(signer: Text, key: Text, at: u64, appends: bool) returns (status: Status)
      modifies this
      ensures Outcome(View(), status, 0) == Step(crypto, old(View()), Op.RetireKey(signer, key, at), appends)
    {
      var id := KeyMapId(signer, key);
      if id !in keys {
        return NotFound;
      }
      if at <= keys[id].validFrom || (keys[id].validUntil != 0 && at > keys[id].validUntil) {
        return Rejected;
      }
      status := Record(KeyRetired(signer, key, at), appends);
    }

    method RevokeKey(signer: Text, key: Text, at: u64, appends: bool) returns (status: Status)
      modifies this
      ensures Outcome(View(), status, 0) == Step(crypto, old(View()), Op.RevokeKey(signer, key, at), appends)
    {
      var id := KeyMapId(signer, key);
      if id !in keys {
        return NotFound;
      }
      if at == 0 || keys[id].revokedAt != 0 {
        return Rejected;
      }
      status := Record(KeyRevoked(signer, key, at), appends);
    }

    method RevokeReceipt(id: Text, at: u64, appends: bool) returns (status: Status)
      modifies this
      ensures Outcome(View(), status, 0) == Step(crypto, old(View()), Op.RevokeReceipt(id, at), appends)
    {
      if !ValidReceiptId(id) || at == 0 {
        return Rejected;
      }
      if id in revokedReceipts {
        return Duplicate;
      }
      status := Record(ReceiptRevoked(id, at), appends);
    }

    /** The checks of a delegation up to the use budget, in the order the source makes them. */
    method CheckDelegation(parent: Receipt, child: Receipt, now: u64) returns (status: Status)
      ensures status == DelegationChecks(crypto, Memory(), parent, child, now)
    {
      if !healthy {
        return Corrupt;
      }
      if !DelegationContract(crypto, parent, child) {
        return DelegationRejected;
      }
      status := CheckLineage(parent, child, now);
    }

    /** The checks against the ledger's own maps. */
    method CheckLineage(parent: Receipt, child: Receipt, now: u64) returns (status: Status)
      ensures status == LineageChecks(Memory(), parent, child, now)
    {
      var pe, ce := parent.envelope, child.envelope;
      if child.receiptId in delegationParent || Memory().UseCount(child.receiptId) != 0 {
        return Duplicate;
      }
      if pe.parentReceiptId != []
         && (parent.receiptId !in delegationParent || delegationParent[parent.receiptId] != pe.parentReceiptId) {
        return DelegationRejected;
      }
      var keyId := EnvelopeKey(pe);
      if keyId !in keys || keys[keyId].algorithm != parent.algorithm {
        return UnknownSigner;
      }
      if !DelegationKeyActive(keys[keyId], parent, child, now) {
        return KeyInactive;
      }
      if pe.expiresAt <= now || ce.expiresAt <= now {
        return ReceiptExpired;
      }
      var ancestor := AncestorIsRevoked(parent.receiptId, now);
      if parent.receiptId in revokedReceipts || child.receiptId in revokedReceipts || ancestor {
        return ReceiptIsRevoked;
      }
      var pn, cn := EnvelopeNonce(pe), EnvelopeNonce(ce);
      if (pn in nonceReceipts && nonceReceipts[pn] != parent.receiptId)
         || (cn in nonceReceipts && nonceReceipts[cn] != child.receiptId) {
        return NonceReplay;
      }
      return Allowed;
    }

    /** Reserves the child's budget out of the parent's, journal first. */
    method Reserve(parent: Receipt, child: Receipt, now: u64, appends: bool) returns (status: Status, useCount: nat)
      modifies this
      ensures Outcome(View(), status, useCount)
           == Settle(crypto.sha, old(View()), DelegationBudget(old(Memory()), parent, child, now), appends)
    {
      var pe, ce := parent.envelope, child.envelope;
      var used, reserved, needed := Memory().UseCount(parent.receiptId), Memory().DelegatedUses(parent.receiptId), 1 + ce.maxUses;
      if used > pe.maxUses || reserved > pe.maxUses || needed > pe.maxUses || used + reserved > pe.maxUses - needed {
        return UseLimitReached, used;
      }
      status := Record(Delegated(parent.receiptId, child.receiptId, pe.signerId, pe.signerKeyId, pe.nonce, ce.nonce,
                                 used + 1, ce.maxUses, now), appends);
      useCount := if status == Allowed then used + 1 else 0;
    }

    method RegisterDelegation(parent: Receipt, child: Receipt, now: u64, appends: bool) returns (status: Status, useCount: nat)
      modifies this
      ensures Outcome(View(), status, useCount)
           == Step(crypto, old(View()), Op.RegisterDelegation(parent, child, now), appends)
    {
      status, useCount := Delegate(parent, child, now, appends);
    }

    /** Checks, then reserves the child's budget together with one use of the parent. */
    method Delegate(parent: Receipt, child: Receipt, now: u64, appends: bool) returns (status: Status, useCount: nat)
      modifies this
      ensures Outcome(View(), status, useCount)
           == Settle(crypto.sha, old(View()), JudgeDelegation(crypto, old(Memory()), parent, child, now), appends)
    {
      status := CheckDelegation(parent, child, now);
      if status != Allowed {
        return status, 0;
      }
      status, useCount := Reserve(parent, child, now, appends);
    }

    /** The ledger's own checks of a verified receipt, in the order the source makes them. */
    method CheckUse(r: Receipt, scope: Text, now: u64) returns (status: Status)
      ensures status == UseChecks(Memory(), r, scope, now)
    {
      var e := r.envelope;
      if !IsSha256(scope) || e.scopeSha256 != scope {
        return Rejected;
      }
      if e.schemaVersion != 2 && e.schemaVersion != 3 {
        return Rejected;
      }
      if e.schemaVersion == 3 && e.parentReceiptId != []
         && (r.receiptId !in delegationParent || delegationParent[r.receiptId] != e.parentReceiptId) {
        return DelegationRejected;
      }
      var keyId := EnvelopeKey(e);
      if keyId !in keys || keys[keyId].algorithm != r.algorithm {
        return UnknownSigner;
      }
      if e.issuedAt > now || !IssuedInWindow(keys[keyId], e.issuedAt) || KeyRevokedAt(keys[keyId], now) {
        return KeyInactive;
      }
      if now >= e.expiresAt {
        return ReceiptExpired;
      }
      if r.receiptId in revokedReceipts && now >= revokedReceipts[r.receiptId] {
        return ReceiptIsRevoked;
      }
      var ancestor := AncestorIsRevoked(r.receiptId, now);
      if ancestor {
        return ReceiptIsRevoked;
      }
      var nonceKey := EnvelopeNonce(e);
      if nonceKey in nonceReceipts && nonceReceipts[nonceKey] != r.receiptId {
        return NonceReplay;
      }
      return Allowed;
    }

    /** Spends one use, journal first. */
    method Spend(r: Receipt, now: u64, appends: bool) returns (status: Status, useCount: nat)
      modifies this
      ensures Outcome(View(), status, useCount) == Settle(crypto.sha, old(View()), UseBudget(old(Memory()), r, now), appends)
    {
      var e := r.envelope;
      var used, reserved := Memory().UseCount(r.receiptId), Memory().DelegatedUses(r.receiptId);
      if used > e.maxUses || reserved > e.maxUses || used + reserved >= e.maxUses {
        return UseLimitReached, used;
      }
      status := Record(Used(r.receiptId, e.signerId, e.signerKeyId, e.nonce, used + 1, now), appends);
      useCount := if status == Allowed then used + 1 else 0;
    }

    method AuthorizeAndConsume(r: Receipt, purpose: Purpose, subject: Text, scope: Text, now: u64, appends: bool)
      returns (status: Status, useCount: nat)
      modifies this
      ensures Outcome(View(), status, useCount)
           == Step(crypto, old(View()), Op.Authorize(r, purpose, subject, scope, now), appends)
    {
      if !healthy {
        return Corrupt, 0;
      }
      var verified := VerifyReceipt(crypto, r, purpose, subject);
      if verified != Valid {
        return if verified == SignerUnknown then UnknownSigner else Rejected, 0;
      }
      status := CheckUse(r, scope, now);
      if status != Allowed {
        return status, 0;
      }
      status, useCount := Spend(r, now, appends);
    }

    method ReplayOne(line: Text)
      requires healthy
      modifies this
      ensures Memory() == ReplayLine(crypto.sha, old(Memory()), line) && journal == old(journal)
    {
      if line == [] {
        return;
      }
      var record := ReadEvent(crypto.sha, Memory(), line);
      if record.None? {
        healthy := false;
        return;
      }
      ApplyEvent(record.value.event);
      sequence := sequence + 1;
      lastRecord := record.value.hash;
    }

    /** Rebuilds the maps from the journal, stopping at the first bad line. */
    method ReplayJournal() returns (ok: bool)
      modifies this
      ensures Memory() == Replay(crypto.sha, journal) && journal == old(journal) && ok == healthy
    {
      keys, receiptUses, delegatedUses, revokedReceipts := map[], map[], map[], map[];
      nonceReceipts, delegationParent := map[], map[];
      sequence, lastRecord, healthy := 0, [], true;
      var i := 0;
      assert journal[..0] == [];
      while i < |journal| && healthy
        invariant 0 <= i <= |journal| && journal == old(journal)
        invariant Memory() == Replay(crypto.sha, journal[..i])
      {
        assert journal[..i + 1][..i] == journal[..i];
        ReplayOne(journal[i]);
        i := i + 1;
      }
      UnhealthyStays(crypto.sha, journal, i);
      assert journal[..|journal|] == journal;
      return healthy;
    }
  }

  /** Once a prefix is damaged, the rest of the journal changes nothing. */
  lemma {:induction false} UnhealthyStays(sha: Hash, journal: seq<Text>, i: nat)
    requires i <= |journal| && (i < |journal| ==> !Replay(sha, journal[..i]).healthy)
    ensures Replay(sha, journal) == Replay(sha, journal[..i])
    decreases |journal|
  {
    assert journal[..|journal|] == journal;
    if i < |journal| {
      var front := journal[..|journal| - 1];
      assert front[..i] == journal[..i];
      UnhealthyStays(sha, front, i);
    }
  }
}
