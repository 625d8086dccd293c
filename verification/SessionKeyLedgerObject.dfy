/**
 The session-key ledger as the source has it: an object that checks, appends to its journal, and
 then updates its maps. Each method performs one `StepSession` of the value-level ledger.
 */
module SessionKeyLedgerObject {
  import opened Text
  import opened HashChain
  import opened SessionKey

  class SessionKeyLedgerFile {
    const sha: Hash
    var registrations: map<Text, Registration>
    var receiptUses: map<Text, nat>
    var revokedKeys: map<Text, u64>
    var revokedReceipts: map<Text, u64>
    var sequence: nat
    var lastRecord: Text
    var healthy: bool
    var journal: seq<Text>

    function Memory(): SessionLedger
      reads this
    {
      SessionLedger(registrations, receiptUses, revokedKeys, revokedReceipts, sequence, lastRecord, healthy)
    }

    function View(): SessionStore
      reads this
    {
      SessionStore(Memory(), journal)
    }

    constructor (sha: Hash, journal: seq<Text>)
      ensures this.sha == sha && this.journal == journal
      ensures Memory() == ReplaySessions(sha, journal)
    {
      this.sha := sha;
      this.journal := journal;
      registrations, receiptUses, revokedKeys, revokedReceipts := map[], map[], map[], map[];
      sequence, lastRecord, healthy := 0, [], true;
      new;
      var ok := ReplayJournal();
    }

    method AppendEvent(body: seq<Text>, appends: bool) returns (ok: bool)
      modifies this`sequence, this`lastRecord, this`journal
      ensures ok == (healthy && appends)
      ensures !ok ==> View() == old(View())
      ensures ok ==> sequence == old(sequence) + 1
      ensures ok ==> lastRecord == sha(Canonical(old(sequence), old(lastRecord), body))
      ensures ok ==> journal == old(journal) + [Line(sha, old(sequence), old(lastRecord), body)]
    {
      if !healthy || !appends {
        return false;
      }
      var canonical := Canonical(sequence, lastRecord, body);
      var record := sha(canonical);
      journal := journal + [canonical + "\t" + record];
      sequence := sequence + 1;
      lastRecord := record;
      return true;
    }

    method ApplyEvent(e: SessionEvent)
      modifies this
      ensures Memory() == ApplySession(old(Memory()), e) && journal == old(journal)
    {
      match e
      case HandedOff(g) => registrations := registrations[g.receiptId := g];
      case SessionUsed(id, use, _) => receiptUses := receiptUses[id := use];
      case SessionKeyRevoked(signer, key, at) => revokedKeys := revokedKeys[SessionKeyMapId(signer, key) := at];
      case SessionReceiptRevoked(id, at) => revokedReceipts := revokedReceipts[id := at];
    }

    /** Journal first, then the maps: a failed append changes nothing. */
    method Record(e: SessionEvent, appends: bool) returns (status: SessionStatus)
      modifies this
      ensures status == if old(healthy) && appends then Allowed else StorageError
      ensures View() == if status == Allowed then CommitSession(sha, old(View()), e) else old(View())
    {
      var ok := AppendEvent(PrintSession(e), appends);
      if !ok {
        return StorageError;
      }
      ApplyEvent(e);
      return Allowed;
    }

    /** Whether some registration already binds this signer and key. */
    method KeyIsTaken(signer: Text, key: Text) returns (taken: bool)
      ensures taken == Memory().KeyTaken(signer, key)
    {
      var rest := registrations.Keys;
      while rest != {}
        invariant rest <= registrations.Keys
        invariant forall id | id in registrations.Keys - rest ::
          !(registrations[id].signerId == signer && registrations[id].keyId == key)
      {
        var id :| id in rest;
        if registrations[id].signerId == signer && registrations[id].keyId == key {
          return true;
        }
        rest := rest - {id};
      }
      return false;
    }

    method RegisterBundle(b: Bundle, appends: bool) returns (status: SessionStatus)
      modifies this
      ensures SessionOutcome(View(), status, 0) == StepSession(sha, old(View()), SessionOp.RegisterBundle(b), appends)
    {
      if !healthy {
        return Corrupt;
      }
      if !BundleCoheres(b) || b.receipt.receiptId in registrations {
        return InvalidRequest;
      }
      var taken := KeyIsTaken(b.receipt.signerId, b.receipt.keyId);
      if taken {
        return InvalidRequest;
      }
      var g := RegistrationOf(b);
      status := Record(HandedOff(g), appends);
    }

    method Consume(id: Text, now: u64, appends: bool) returns (status: SessionStatus, useCount: nat)
      modifies this
      ensures SessionOutcome(View(), status, useCount) == StepSession(sha, old(View()), ConsumeSession(id, now), appends)
    {
      if !healthy {
        return Corrupt, 0;
      }
      if id !in registrations {
        return NotRegistered, 0;
      }
      var used := if id in receiptUses then receiptUses[id] else 0;
      if used >= registrations[id].maxUses {
        return UseLimitReached, used;
      }
      status := Record(SessionUsed(id, used + 1, now), appends);
      useCount := if status == Allowed then used + 1 else 0;
    }

    method RevokeKey(signer: Text, key: Text, at: u64, appends: bool) returns (status: SessionStatus)
      modifies this
      ensures SessionOutcome(View(), status, 0) == StepSession(sha, old(View()), RevokeSessionKey(signer, key, at), appends)
    {
      if !ValidToken(signer, 128) || !ValidToken(key, 128) || at == 0 {
        return InvalidRequest;
      }
      var id := SessionKeyMapId(signer, key);
      if id in revokedKeys {
        return InvalidRequest;
      }
      var known := KeyIsTaken(signer, key);
      if !known {
        return NotRegistered;
      }
      status := Record(SessionKeyRevoked(signer, key, at), appends);
    }

    method RevokeReceipt(id: Text, at: u64, appends: bool) returns (status: SessionStatus)
      modifies this
      ensures SessionOutcome(View(), status, 0) == StepSession(sha, old(View()), RevokeSessionReceipt(id, at), appends)
    {
      if !ValidSessionReceiptId(id) || at == 0 {
        return InvalidRequest;
      }
      if id !in registrations {
        return NotRegistered;
      }
      if id in revokedReceipts {
        return InvalidRequest;
      }
      status := Record(SessionReceiptRevoked(id, at), appends);
    }

    method ReplayOne(line: Text)
      requires healthy
      modifies this
      ensures Memory() == ReplaySessionLine(sha, old(Memory()), line) && journal == old(journal)
    {
      if line == [] {
        return;
      }
      var read := ReadSessionEvent(sha, Memory(), line);
      if read.None? {
        healthy := false;
        return;
      }
      ApplyEvent(read.value.0);
      sequence := sequence + 1;
      lastRecord := read.value.1;
    }

    method ReplayJournal() returns (ok: bool)
      modifies this
      ensures Memory() == ReplaySessions(sha, journal) && journal == old(journal) && ok == healthy
    {
      registrations, receiptUses, revokedKeys, revokedReceipts := map[], map[], map[], map[];
      sequence, lastRecord, healthy := 0, [], true;
      var i := 0;
      assert journal[..0] == [];
      while i < |journal| && healthy
        invariant 0 <= i <= |journal| && journal == old(journal)
        invariant Memory() == ReplaySessions(sha, journal[..i])
      {
        assert journal[..i + 1][..i] == journal[..i];
        ReplayOne(journal[i]);
        i := i + 1;
      }
      DamageStays(sha, journal, i);
      assert journal[..|journal|] == journal;
      return healthy;
    }
  }

  /** Once a prefix is damaged, the rest of the journal changes nothing. */
  lemma {:induction false} DamageStays(sha: Hash, journal: seq<Text>, i: nat)
    requires i <= |journal| && (i < |journal| ==> !ReplaySessions(sha, journal[..i]).healthy)
    ensures ReplaySessions(sha, journal) == ReplaySessions(sha, journal[..i])
    decreases |journal|
  {
    assert journal[..|journal|] == journal;
    if i < |journal| {
      var front := journal[..|journal| - 1];
      assert front[..i] == journal[..i];
      DamageStays(sha, front, i);
    }
  }
}
