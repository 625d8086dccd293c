/** The identity store as an object; each method settles one verdict of the value-level store. */
module RuntimeIdentityObject {
  import opened Wrappers
  import opened Text
  import opened HashChain
  import opened RuntimeIdentity
  import opened RuntimeIdentityLaws
  import opened RuntimeIdentityReplay

  class RuntimeIdentityStoreFile {
    const sha: Hash
    const budget: Budget
    var devices: map<Text, Device>
    var executables: map<Text, Executable>
    var processes: map<Text, Process>
    var attestations: map<Text, Observation>
    var sequence: nat
    var lastRecord: Text
    var healthy: bool
    var journal: seq<Text>

    function Memory(): Identities
      reads this
    {
      Identities(devices, executables, processes, attestations, sequence, lastRecord, healthy)
    }

    function View(): IdentityStore
      reads this
    {
      IdentityStore(Memory(), journal)
    }

    constructor (sha: Hash, budget: Budget, journal: seq<Text>)
      ensures this.sha == sha && this.budget == budget && this.journal == journal
      ensures budget.Valid() ==> Memory() == ReplayIdentities(sha, budget, journal)
      ensures !budget.Valid() ==> !healthy
    {
      this.sha, this.budget, this.journal := sha, budget, journal;
      devices, executables, processes, attestations := map[], map[], map[], map[];
      sequence, lastRecord, healthy := 0, [], true;
      new;
      if !budget.Valid() {
        healthy := false;
        return;
      }
      var ok := ReplayJournal();
    }

    method AppendEvent(body: seq<Text>, appends: bool) returns (ok: bool)
      modifies this`sequence, this`lastRecord, this`journal
      ensures ok == (healthy && appends)
      ensures !ok ==> View() == old(View())
      ensures ok ==> sequence == old(sequence) + 1
      ensures ok ==> lastRecord == sha(Canonical(old(sequence), old(lastRecord), body))
      ensures ok ==> journal == old(journal) + [Line(sha, old(sequence), old(lastRecord), body)]
    {
      if !healthy || !appends {
        return false;
      }
      var canonical := Canonical(sequence, lastRecord, body);
      var record := sha(canonical);
      journal := journal + [canonical + "\t" + record];
      sequence := sequence + 1;
      lastRecord := record;
      return true;
    }

    /** The first and later sightings of one device. */
    method SeeDevice(o: Observation)
      modifies this`devices
      ensures Memory() == WithDevice(old(Memory()), o)
    {
      var id, at := o.measured.deviceRecord, o.observedAt;
      if id !in devices {
        devices := devices[id := Device(o.measured.providerId, o.measured.deviceId, o.trust, Tally(at, at, 1, 0, []))];
      } else {
        var d := devices[id];
        var t := d.tally.(first := Min(d.tally.first, at), last := Max(d.tally.last, at), observations := d.tally.observations + 1);
        devices := devices[id := d.(strongest := Stronger(d.strongest, o.trust), tally := t)];
      }
    }

    method SeeExecutable(o: Observation)
      modifies this`executables
      ensures Memory() == WithExecutable(old(Memory()), o)
    {
      var id, at := o.measured.executableRecord, o.observedAt;
      if id !in executables {
        executables := executables[id := Executable(o.measured.executableSha256, Tally(at, at, 1, 0, []))];
      } else {
        var t := executables[id].tally;
        t := t.(first := Min(t.first, at), last := Max(t.last, at), observations := t.observations + 1);
        executables := executables[id := executables[id].(tally := t)];
      }
    }

    method SeeProcess(o: Observation)
      modifies this`processes
      ensures Memory() == WithProcess(old(Memory()), o)
    {
      var id, at := o.processRecord, o.observedAt;
      if id !in processes {
        processes := processes[id := Process(o.measured, Tally(at, at, 1, 0, []))];
      } else {
        var t := processes[id].tally;
        t := t.(first := Min(t.first, at), last := Max(t.last, at), observations := t.observations + 1);
        processes := processes[id := processes[id].(tally := t)];
      }
    }

    method See(o: Observation)
      modifies this`devices, this`executables, this`processes, this`attestations
      ensures Memory() == WithObservation(old(Memory()), o)
    {
      SeeDevice(o);
      SeeExecutable(o);
      SeeProcess(o);
      attestations := attestations[o.attestationId := o];
    }

    /** The checks of record_attestation that follow validation. */
    method CheckObservation(o: Observation) returns (refusal: Option<Status>)
      ensures JudgeObservation(budget, Memory(), o)
           == if refusal.Some? then RefuseIdentity(refusal.value) else AcceptIdentity(Observed(o))
    {
      var m := o.measured;
      if o.attestationId in attestations {
        return Some(if SameObservation(attestations[o.attestationId], o) then AlreadyRecorded else Collision);
      }
      if m.deviceRecord in devices && devices[m.deviceRecord].tally.Revoked() {
        return Some(DeviceRevoked);
      }
      if m.executableRecord in executables && executables[m.executableRecord].tally.Revoked() {
        return Some(ExecutableRevoked);
      }
      if o.processRecord in processes {
        if processes[o.processRecord].measured != m {
          return Some(Collision);
        }
        if processes[o.processRecord].tally.Revoked() {
          return Some(ProcessRevoked);
        }
      }
      var newDevice, newExecutable := m.deviceRecord !in devices, m.executableRecord !in executables;
      var newProcess := o.processRecord !in processes;
      if (newDevice && |devices| >= budget.maxDevices) || (newExecutable && |executables| >= budget.maxExecutables)
         || (newProcess && |processes| >= budget.maxProcesses) || |attestations| >= budget.maxAttestations
      {
        return Some(CapacityExceeded);
      }
      return None;
    }

    method RecordAttestation(e: Evidence, appends: bool) returns (status: Status)
      modifies this
      ensures Outcome(View(), status) == StepIdentity(sha, budget, old(View()), IdentityCall(Record(e), appends))
    {
      if !healthy {
        return Corrupt;
      }
      if !ValidEvidence(sha, e) {
        return InvalidEvidence;
      }
      status := RecordObservation(ObservationOf(sha, e), appends);
    }

    method RecordObservation(o: Observation, appends: bool) returns (status: Status)
      requires healthy
      modifies this
      ensures Outcome(View(), status) == SettleIdentity(sha, old(View()), JudgeObservation(budget, old(Memory()), o), appends)
    {
      var refusal := CheckObservation(o);
      if refusal.Some? {
        return refusal.value;
      }
      var ok := AppendObservation(o, appends);
      return if ok then Recorded else StorageError;
    }

    method AppendObservation(o: Observation, appends: bool) returns (ok: bool)
      requires healthy
      modifies this
      ensures ok == appends
      ensures View() == if ok then CommitIdentity(sha, old(View()), Observed(o)) else old(View())
    {
      ok := AppendEvent(PrintIdentity(Observed(o)), appends);
      if ok {
        See(o);
      }
    }

    /** The shared body of revoke_device, revoke_executable and revoke_process. */
    method Withdraw(kind: Kind, id: Text, at: u64, reason: Text, appends: bool) returns (status: Status)
      modifies this
      ensures Outcome(View(), status) == StepIdentity(sha, budget, old(View()), IdentityCall(Revoke(kind, id, at, reason), appends))
    {
      if !healthy {
        return Corrupt;
      }
      if at == 0 || !ValidReason(reason) {
        return InvalidEvidence;
      }
      var tally := TallyAt(Memory(), kind, id);
      if tally.None? {
        return NotFound;
      }
      if tally.value.Revoked() {
        return AlreadyRecorded;
      }
      var ok := AppendEvent(PrintIdentity(Withdrawn(kind, id, at, reason)), appends);
      if !ok {
        return StorageError;
      }
      Mark(kind, id, at, reason);
      return Recorded;
    }

    method Mark(kind: Kind, id: Text, at: u64, reason: Text)
      requires TallyAt(Memory(), kind, id).Some?
      modifies this`devices, this`executables, this`processes
      ensures Memory() == WithWithdrawal(old(Memory()), kind, id, at, reason)
    {
      match kind
      case DeviceKind =>
        var d := devices[id];
        devices := devices[id := d.(tally := d.tally.(revokedAt := at, reason := reason))];
      case ExecutableKind =>
        var x := executables[id];
        executables := executables[id := x.(tally := x.tally.(revokedAt := at, reason := reason))];
      case ProcessKind =>
        var p := processes[id];
        processes := processes[id := p.(tally := p.tally.(revokedAt := at, reason := reason))];
    }

    method Active(e: Evidence) returns (active: bool)
      ensures active == IdentityActive(sha, Memory(), e)
    {
      if !healthy || !ValidEvidence(sha, e) {
        return false;
      }
      var o := ObservationOf(sha, e);
      active := o.measured.deviceRecord in devices && !devices[o.measured.deviceRecord].tally.Revoked()
                && o.measured.executableRecord in executables && !executables[o.measured.executableRecord].tally.Revoked()
                && o.processRecord in processes && !processes[o.processRecord].tally.Revoked();
    }

    /** A collision leaves behind what was updated before it was found. */
    method ReplayObserved(o: Observation)
      requires healthy
      modifies this
      ensures Memory() == ReplayObservation(old(Memory()), o) && journal == old(journal)
    {
      if DeviceCollides(Memory(), o) {
        healthy := false;
        return;
      }
      SeeDevice(o);
      if ExecutableCollides(Memory(), o) {
        healthy := false;
        return;
      }
      SeeExecutable(o);
      if ProcessCollides(Memory(), o) {
        healthy := false;
        return;
      }
      SeeProcess(o);
      attestations := attestations[o.attestationId := o];
    }

    method ReplayEventInto(e: Event)
      requires healthy
      modifies this
      ensures Memory() == ReplayEvent(sha, budget, old(Memory()), e) && journal == old(journal)
    {
      match e
      case Observed(o) =>
        if AdmitObservation(sha, budget, Memory(), o) {
          ReplayObserved(o);
        } else {
          healthy := false;
        }
      case Withdrawn(kind, id, at, reason) =>
        if AdmitWithdrawal(Memory(), e) {
          Mark(kind, id, at, reason);
        } else {
          healthy := false;
        }
    }

    method ReplayOne(line: Text)
      requires healthy
      modifies this
      ensures Memory() == ReplayIdentityLine(sha, budget, old(Memory()), line) && journal == old(journal)
    {
      if line == [] {
        return;
      }
      var read := ReadIdentity(sha, Memory(), line);
      if read.None? {
        healthy := false;
        return;
      }
      var next := sequence + 1;
      ReplayEventInto(read.value.0);
      if healthy {
        sequence := next;
        lastRecord := read.value.1;
      }
    }

    method ReplayJournal() returns (ok: bool)
      modifies this
      ensures Memory() == ReplayIdentities(sha, budget, journal) && journal == old(journal) && ok == healthy
    {
      devices, executables, processes, attestations := map[], map[], map[], map[];
      sequence, lastRecord, healthy := 0, [], budget.Valid();
      var i := 0;
      NothingReplays(sha, budget, journal);
      while i < |journal| && healthy
        invariant 0 <= i <= |journal| && journal == old(journal)
        invariant Memory() == ReplayIdentities(sha, budget, journal[..i])
      {
        IdentityLineReplays(sha, budget, journal, i);
        ReplayOne(journal[i]);
        i := i + 1;
      }
      IdentityDamageStays(sha, budget, journal, i);
      assert journal[..|journal|] == journal;
      return healthy;
    }
  }

  lemma NothingReplays(sha: Hash, budget: Budget, journal: seq<Text>)
    ensures ReplayIdentities(sha, budget, journal[..0]) == NO_IDENTITIES.(healthy := budget.Valid())
  {
  }

  lemma IdentityLineReplays(sha: Hash, budget: Budget, journal: seq<Text>, i: nat)
    requires i < |journal| && ReplayIdentities(sha, budget, journal[..i]).healthy
    ensures ReplayIdentities(sha, budget, journal[..i + 1])
         == ReplayIdentityLine(sha, budget, ReplayIdentities(sha, budget, journal[..i]), journal[i])
  {
    assert journal[..i + 1][..i] == journal[..i];
  }

  /** Once a prefix is damaged, the rest of the journal changes nothing. */
  lemma {:induction false} IdentityDamageStays(sha: Hash, budget: Budget, journal: seq<Text>, i: nat)
    requires i <= |journal| && (i < |journal| ==> !ReplayIdentities(sha, budget, journal[..i]).healthy)
    ensures ReplayIdentities(sha, budget, journal) == ReplayIdentities(sha, budget, journal[..i])
    decreases |journal|
  {
    assert journal[..|journal|] == journal;
    if i < |journal| {
      var front := journal[..|journal| - 1];
      assert front[..i] == journal[..i];
      IdentityDamageStays(sha, budget, front, i);
    }
  }
}
