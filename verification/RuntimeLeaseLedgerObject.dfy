/** The runtime-lease ledger as an object; each method settles one verdict of the value-level ledger. */
module RuntimeLeaseLedgerObject {
  import opened Text
  import opened HashChain
  import opened SessionKey
  import opened RuntimeLease
  import opened RuntimeLeaseReplay

  class RuntimeLeaseLedgerFile {
    const sha: Hash
    var registrations: map<Text, LeaseRegistration>
    var leaseUses: map<Text, nat>
    var revokedLeases: map<Text, u64>
    var sequence: nat
    var lastRecord: Text
    var healthy: bool
    var journal: seq<Text>

    function Memory(): LeaseLedger
      reads this
    {
      LeaseLedger(registrations, leaseUses, revokedLeases, sequence, lastRecord, healthy)
    }

    function View(): LeaseStore
      reads this
    {
      LeaseStore(Memory(), journal)
    }

    constructor (sha: Hash, journal: seq<Text>)
      ensures this.sha == sha && this.journal == journal
      ensures Memory() == ReplayLeases(sha, journal)
    {
      this.sha := sha;
      this.journal := journal;
      registrations, leaseUses, revokedLeases := map[], map[], map[];
      sequence, lastRecord, healthy := 0, [], true;
      new;
      var ok := ReplayJournal();
    }

    method AppendEvent(body: seq<Text>, appends: bool) returns (ok: bool)
      modifies this`sequence, this`lastRecord, this`journal
      ensures ok == (healthy && appends)
      ensures !ok ==> View() == old(View())
      ensures ok ==> sequence == old(sequence) + 1
      ensures ok ==> lastRecord == sha(Canonical(old(sequence), old(lastRecord), body))
      ensures ok ==> journal == old(journal) + [Line(sha, old(sequence), old(lastRecord), body)]
    {
      if !healthy || !appends {
        return false;
      }
      var canonical := Canonical(sequence, lastRecord, body);
      var record := sha(canonical);
      journal := journal + [canonical + "\t" + record];
      sequence := sequence + 1;
      lastRecord := record;
      return true;
    }

    method ApplyEvent(e: LeaseEvent)
      modifies this
      ensures Memory() == ApplyLease(old(Memory()), e) && journal == old(journal)
    {
      match e
      case Leased(id, g) => registrations := registrations[id := g];
      case LeaseUsed(id, use, _) => leaseUses := leaseUses[id := use];
      case LeaseWasRevoked(id, at) => revokedLeases := revokedLeases[id := at];
    }

    /** Journal first, then the maps: a failed append changes nothing. */
    method Record(e: LeaseEvent, appends: bool) returns (status: LeaseStatus)
      modifies this
      ensures status == if old(healthy) && appends then Granted else LeaseStorageError
      ensures View() == if status == Granted then CommitLease(sha, old(View()), e) else old(View())
    {
      var ok := AppendEvent(PrintLease(e), appends);
      if !ok {
        return LeaseStorageError;
      }
      ApplyEvent(e);
      return Granted;
    }

    method RegisterLease(kv: KeyVerifier, lease: Lease, b: Bundle, now: u64, appends: bool) returns (status: LeaseStatus)
      modifies this
      ensures LeaseOutcome(View(), status, 0)
           == SettleLease(sha, old(View()), JudgeRegister(sha, kv, old(Memory()), lease, b, now), appends)
    {
      if !healthy {
        return LeaseCorrupt;
      }
      var validated := ValidateLease(sha, kv, lease, b);
      if validated != Granted {
        return validated;
      }
      if lease.leaseId in registrations {
        return LeaseNotRegistered;
      }
      if now >= lease.expiresAt {
        return LeaseExpired;
      }
      var g := LeaseRegistrationOf(sha, lease);
      status := Record(Leased(lease.leaseId, g), appends);
    }

    method Consume(id: Text, now: u64, appends: bool) returns (status: LeaseStatus, useCount: nat)
      modifies this
      ensures LeaseOutcome(View(), status, useCount)
           == SettleLease(sha, old(View()), JudgeLeaseUse(old(Memory()), id, now), appends)
    {
      if !healthy {
        return LeaseCorrupt, 0;
      }
      if id !in registrations {
        return LeaseNotRegistered, 0;
      }
      if id in revokedLeases {
        return LeaseRevoked, 0;
      }
      if now >= registrations[id].expiresAt {
        return LeaseExpired, 0;
      }
      var used := if id in leaseUses then leaseUses[id] else 0;
      if used >= registrations[id].maxUses {
        return LeaseUseLimitReached, used;
      }
      status := Record(LeaseUsed(id, used + 1, now), appends);
      useCount := if status == Granted then used + 1 else 0;
    }

    method RevokeLease(id: Text, at: u64, appends: bool) returns (status: LeaseStatus)
      modifies this
      ensures LeaseOutcome(View(), status, 0) == SettleLease(sha, old(View()), JudgeLeaseRevoke(old(Memory()), id, at), appends)
    {
      if !PrefixedSha256(id, LEASE_PREFIX) || at == 0 {
        return InvalidLease;
      }
      if id !in registrations {
        return LeaseNotRegistered;
      }
      if id in revokedLeases {
        return LeaseRevoked;
      }
      status := Record(LeaseWasRevoked(id, at), appends);
    }

    method ReplayOne(line: Text)
      requires healthy
      modifies this
      ensures Memory() == ReplayLeaseLine(sha, old(Memory()), line) && journal == old(journal)
    {
      if line == [] {
        return;
      }
      var read := ReadLeaseEvent(sha, Memory(), line);
      if read.None? {
        healthy := false;
        return;
      }
      ApplyEvent(read.value.0);
      sequence := sequence + 1;
      lastRecord := read.value.1;
    }

    method ReplayJournal() returns (ok: bool)
      modifies this
      ensures Memory() == ReplayLeases(sha, journal) && journal == old(journal) && ok == healthy
    {
      registrations, leaseUses, revokedLeases := map[], map[], map[];
      sequence, lastRecord, healthy := 0, [], true;
      var i := 0;
      assert journal[..0] == [];
      while i < |journal| && healthy
        invariant 0 <= i <= |journal| && journal == old(journal)
        invariant Memory() == ReplayLeases(sha, journal[..i])
      {
        assert journal[..i + 1][..i] == journal[..i];
        ReplayOne(journal[i]);
        i := i + 1;
      }
      LeaseDamageStays(sha, journal, i);
      assert journal[..|journal|] == journal;
      return healthy;
    }
  }

  /** Once a prefix is damaged, the rest of the journal changes nothing. */
  lemma {:induction false} LeaseDamageStays(sha: Hash, journal: seq<Text>, i: nat)
    requires i <= |journal| && (i < |journal| ==> !ReplayLeases(sha, journal[..i]).healthy)
    ensures ReplayLeases(sha, journal) == ReplayLeases(sha, journal[..i])
    decreases |journal|
  {
    assert journal[..|journal|] == journal;
    if i < |journal| {
      var front := journal[..|journal| - 1];
      assert front[..i] == journal[..i];
      LeaseDamageStays(sha, front, i);
    }
  }
}
