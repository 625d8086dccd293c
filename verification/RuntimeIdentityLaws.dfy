/** What every run of the identity store keeps: the indexes summarise the attestations, and revocation is final. */
module RuntimeIdentityLaws {
  import opened Wrappers
  import opened Text
  import opened HashChain
  import opened RuntimeLease
  import opened RuntimeIdentity

  type Attestations = map<Text, Observation>

  // ----- the indexes, restated from the attestations alone -----

  function KeyOf(kind: Kind, o: Observation): Text {
    match kind
    case DeviceKind => o.measured.deviceRecord
    case ExecutableKind => o.measured.executableRecord
    case ProcessKind => o.processRecord
  }

  /** The stored attestations that name a record. */
  ghost function Naming(atts: Attestations, kind: Kind, id: Text): set<Text> {
    set a | a in atts && KeyOf(kind, atts[a]) == id
  }

  /** Count, minimum and maximum of the sightings, each bound attained. */
  ghost predicate Summarises(t: Tally, atts: Attestations, names: set<Text>)
    requires names <= atts.Keys
  {
    && t.observations == |names|
    && (forall a | a in names :: t.first <= atts[a].observedAt <= t.last)
    && (exists a | a in names :: atts[a].observedAt == t.first)
    && (exists a | a in names :: atts[a].observedAt == t.last)
  }

  /** A record exists exactly when some attestation names it, and then its tally summarises those attestations. */
  ghost predicate TallyFits(t: Option<Tally>, atts: Attestations, names: set<Text>)
    requires names <= atts.Keys
  {
    if t.None? then names == {} else Summarises(t.value, atts, names)
  }

  ghost predicate Entry(s: Identities, kind: Kind, id: Text) {
    TallyFits(TallyAt(s, kind, id), s.attestations, Naming(s.attestations, kind, id))
  }

  ghost predicate Indexed(s: Identities) {
    forall kind: Kind, id: Text :: Entry(s, kind, id)
  }

  /** A device's trust is native exactly when some attestation naming it was. */
  ghost predicate TrustFits(t: Trust, atts: Attestations, names: set<Text>)
    requires names <= atts.Keys
  {
    t == NativeOsLocal <==> exists a | a in names :: atts[a].trust == NativeOsLocal
  }

  ghost predicate TrustEntry(s: Identities, d: Text) {
    d in s.devices ==> TrustFits(s.devices[d].strongest, s.attestations, Naming(s.attestations, DeviceKind, d))
  }

  ghost predicate TrustIndexed(s: Identities) {
    forall d: Text :: TrustEntry(s, d)
  }

  /** An attestation is stored under its own identity, and its process carries its very measurements. */
  predicate AttestationLinked(s: Identities, a: Text) {
    a in s.attestations ==>
      var o := s.attestations[a];
      o.attestationId == a && o.processRecord in s.processes && s.processes[o.processRecord].measured == o.measured
  }

  /** A process refers to a device and an executable that are on record. */
  predicate ProcessLinked(s: Identities, p: Text) {
    p in s.processes ==>
      s.processes[p].measured.deviceRecord in s.devices && s.processes[p].measured.executableRecord in s.executables
  }

  ghost predicate Linked(s: Identities) {
    (forall a: Text :: AttestationLinked(s, a)) && (forall p: Text :: ProcessLinked(s, p))
  }

  predicate Bounded(budget: Budget, s: Identities) {
    && |s.devices| <= budget.maxDevices && |s.executables| <= budget.maxExecutables
    && |s.processes| <= budget.maxProcesses && |s.attestations| <= budget.maxAttestations
  }

  ghost predicate Consistent(budget: Budget, s: Identities) {
    Indexed(s) && TrustIndexed(s) && Linked(s) && Bounded(budget, s)
  }

  // ----- one more observation -----

  lemma NamingGrows(atts: Attestations, kind: Kind, id: Text, a: Text, o: Observation)
    requires a !in atts
    ensures Naming(atts[a := o], kind, id) == Naming(atts, kind, id) + (if KeyOf(kind, o) == id then {a} else {})
  {
  }

  lemma TallyGrows(t: Option<Tally>, atts: Attestations, names: set<Text>, a: Text, o: Observation)
    requires a !in atts && names <= atts.Keys && TallyFits(t, atts, names)
    ensures Summarises(Sighted(t, o.observedAt), atts[a := o], names + {a})
    ensures TallyFits(t, atts[a := o], names)
  {
    var after, more := atts[a := o], names + {a};
    assert after[a].observedAt == o.observedAt && a in more;
    if t.Some? {
      var f :| f in names && atts[f].observedAt == t.value.first;
      var l :| l in names && atts[l].observedAt == t.value.last;
      assert after[f].observedAt == t.value.first && f in more;
      assert after[l].observedAt == t.value.last && l in more;
    }
  }

  lemma TallyAfter(s: Identities, o: Observation, kind: Kind, id: Text)
    ensures TallyAt(WithObservation(s, o), kind, id)
         == if id == KeyOf(kind, o) then Some(Sighted(TallyAt(s, kind, id), o.observedAt)) else TallyAt(s, kind, id)
  {
  }

  lemma ObservationKeepsIndex(s: Identities, o: Observation)
    requires Indexed(s) && o.attestationId !in s.attestations
    ensures Indexed(WithObservation(s, o))
  {
    var a := o.attestationId;
    forall kind: Kind, id: Text ensures Entry(WithObservation(s, o), kind, id) {
      assert Entry(s, kind, id);
      NamingGrows(s.attestations, kind, id, a, o);
      TallyGrows(TallyAt(s, kind, id), s.attestations, Naming(s.attestations, kind, id), a, o);
      TallyAfter(s, o, kind, id);
    }
  }

  lemma TrustGrows(t: Trust, atts: Attestations, names: set<Text>, a: Text, o: Observation)
    requires a !in atts && names <= atts.Keys && TrustFits(t, atts, names)
    ensures TrustFits(Stronger(t, o.trust), atts[a := o], names + {a})
    ensures TrustFits(t, atts[a := o], names)
  {
    var after, more := atts[a := o], names + {a};
    assert a in more && after[a].trust == o.trust;
    if t == NativeOsLocal {
      var n :| n in names && atts[n].trust == NativeOsLocal;
      assert n in more && after[n].trust == NativeOsLocal;
    }
  }

  lemma ObservationKeepsTrust(s: Identities, o: Observation)
    requires Indexed(s) && TrustIndexed(s) && o.attestationId !in s.attestations
    ensures TrustIndexed(WithObservation(s, o))
  {
    var a := o.attestationId;
    forall d: Text ensures TrustEntry(WithObservation(s, o), d) {
      NamingGrows(s.attestations, DeviceKind, d, a, o);
      var names := Naming(s.attestations, DeviceKind, d);
      assert TrustEntry(s, d) && Entry(s, DeviceKind, d);
      if d in s.devices {
        TrustGrows(s.devices[d].strongest, s.attestations, names, a, o);
      } else {
        assert names + {a} == {a} && a in {a};
      }
    }
  }

  lemma ObservationKeepsLinks(s: Identities, o: Observation)
    requires Linked(s)
    requires o.processRecord in s.processes ==> s.processes[o.processRecord].measured == o.measured
    ensures Linked(WithObservation(s, o))
  {
    forall a: Text ensures AttestationLinked(WithObservation(s, o), a) {
      assert AttestationLinked(s, a);
    }
    forall p: Text ensures ProcessLinked(WithObservation(s, o), p) {
      assert ProcessLinked(s, p);
    }
  }

  lemma ObservationKeepsBounds(budget: Budget, s: Identities, o: Observation)
    requires Bounded(budget, s) && !OverCapacity(budget, s, o) && o.attestationId !in s.attestations
    ensures Bounded(budget, WithObservation(s, o))
  {
  }

  lemma ObservationKeepsAll(budget: Budget, s: Identities, o: Observation)
    requires Consistent(budget, s) && !OverCapacity(budget, s, o) && o.attestationId !in s.attestations
    requires o.processRecord in s.processes ==> s.processes[o.processRecord].measured == o.measured
    ensures Consistent(budget, WithObservation(s, o))
  {
    ObservationKeepsIndex(s, o);
    ObservationKeepsTrust(s, o);
    ObservationKeepsLinks(s, o);
    ObservationKeepsBounds(budget, s, o);
  }

  // ----- one more withdrawal -----

  lemma TallyAfterWithdrawal(s: Identities, kind: Kind, id: Text, at: u64, reason: Text, k: Kind, i: Text)
    requires TallyAt(s, kind, id).Some?
    ensures TallyAt(WithWithdrawal(s, kind, id, at, reason), k, i)
         == if k == kind && i == id then Some(TallyAt(s, kind, id).value.(revokedAt := at, reason := reason)) else TallyAt(s, k, i)
  {
  }

  lemma WithdrawalKeepsAll(budget: Budget, s: Identities, kind: Kind, id: Text, at: u64, reason: Text)
    requires Consistent(budget, s) && TallyAt(s, kind, id).Some?
    ensures Consistent(budget, WithWithdrawal(s, kind, id, at, reason))
  {
    var s' := WithWithdrawal(s, kind, id, at, reason);
    forall k: Kind, i: Text ensures Entry(s', k, i) {
      TallyAfterWithdrawal(s, kind, id, at, reason, k, i);
      assert Entry(s, k, i);
    }
    forall d: Text ensures TrustEntry(s', d) {
      assert TrustEntry(s, d);
    }
    forall a: Text ensures AttestationLinked(s', a) {
      assert AttestationLinked(s, a);
    }
    forall p: Text ensures ProcessLinked(s', p) {
      assert ProcessLinked(s, p);
    }
  }

  // ----- runs -----

  datatype IdentityOp = Record(evidence: Evidence) | Revoke(kind: Kind, id: Text, at: u64, reason: Text)

  datatype IdentityCall = IdentityCall(op: IdentityOp, appends: bool)

  predicate Judged(budget: Budget, s: Identities, e: Event) {
    e.Observed? ==> JudgeObservation(budget, s, e.o).AcceptIdentity?
  }

  function JudgeIdentity(sha: Hash, budget: Budget, s: Identities, op: IdentityOp): (v: Verdict)
    ensures v.AcceptIdentity? ==> s.healthy && Applies(s, v.event) && Judged(budget, s, v.event)
  {
    match op
    case Record(e) => JudgeEvidence(sha, budget, s, e)
    case Revoke(kind, id, at, reason) => JudgeWithdrawal(s, kind, id, at, reason)
  }

  function StepIdentity(sha: Hash, budget: Budget, st: IdentityStore, call: IdentityCall): Outcome {
    SettleIdentity(sha, st, JudgeIdentity(sha, budget, st.memory, call.op), call.appends)
  }

  function RunIdentities(sha: Hash, budget: Budget, calls: seq<IdentityCall>): IdentityStore {
    if calls == [] then IdentityStore(NO_IDENTITIES, [])
    else StepIdentity(sha, budget, RunIdentities(sha, budget, calls[..|calls| - 1]), calls[|calls| - 1]).store
  }

  lemma HeadKeepsAll(budget: Budget, s: Identities, sequence: nat, head: Text)
    requires Consistent(budget, s)
    ensures Consistent(budget, s.(sequence := sequence, head := head))
  {
    var s' := s.(sequence := sequence, head := head);
    forall k: Kind, i: Text ensures Entry(s', k, i) {
      assert Entry(s, k, i);
    }
    forall d: Text ensures TrustEntry(s', d) {
      assert TrustEntry(s, d);
    }
    forall a: Text ensures AttestationLinked(s', a) {
      assert AttestationLinked(s, a);
    }
    forall p: Text ensures ProcessLinked(s', p) {
      assert ProcessLinked(s, p);
    }
  }

  lemma EventKeepsAll(budget: Budget, s: Identities, e: Event)
    requires Consistent(budget, s) && Applies(s, e)
    requires Judged(budget, s, e)
    ensures Consistent(budget, ApplyIdentity(s, e))
  {
    match e
    case Observed(o) => ObservationKeepsAll(budget, s, o);
    case Withdrawn(kind, id, at, reason) => WithdrawalKeepsAll(budget, s, kind, id, at, reason);
  }

  /**
   After any run: for every device, executable and process record the count, first and last sighting (and a device's
   strongest trust) are those of the stored attestations naming it; referenced records exist; capacities hold.
   */
  lemma {:induction false} RunIsConsistent(sha: Hash, budget: Budget, calls: seq<IdentityCall>)
    ensures Consistent(budget, RunIdentities(sha, budget, calls).memory)
    ensures RunIdentities(sha, budget, calls).memory.healthy
  {
    if calls == [] {
    } else {
      var front, last := calls[..|calls| - 1], calls[|calls| - 1];
      RunIsConsistent(sha, budget, front);
      StepIsConsistent(sha, budget, RunIdentities(sha, budget, front), last);
    }
  }

  lemma StepIsConsistent(sha: Hash, budget: Budget, st: IdentityStore, call: IdentityCall)
    requires Consistent(budget, st.memory) && st.memory.healthy
    ensures Consistent(budget, StepIdentity(sha, budget, st, call).store.memory)
    ensures StepIdentity(sha, budget, st, call).store.memory.healthy
  {
    SettleIsConsistent(sha, budget, st, JudgeIdentity(sha, budget, st.memory, call.op), call.appends);
  }

  lemma CommittedMemory(sha: Hash, st: IdentityStore, e: Event) returns (head: Text)
    requires Applies(st.memory, e)
    ensures CommitIdentity(sha, st, e).memory == ApplyIdentity(st.memory, e).(sequence := st.memory.sequence + 1, head := head)
  {
    head := sha(Canonical(st.memory.sequence, st.memory.head, PrintIdentity(e)));
  }

  lemma CommitIsConsistent(sha: Hash, budget: Budget, st: IdentityStore, e: Event)
    requires Consistent(budget, st.memory) && st.memory.healthy && Applies(st.memory, e) && Judged(budget, st.memory, e)
    ensures Consistent(budget, CommitIdentity(sha, st, e).memory)
  {
    EventKeepsAll(budget, st.memory, e);
    var head := CommittedMemory(sha, st, e);
    HeadKeepsAll(budget, ApplyIdentity(st.memory, e), st.memory.sequence + 1, head);
  }

  lemma SettleIsConsistent(sha: Hash, budget: Budget, st: IdentityStore, v: Verdict, appends: bool)
    requires Consistent(budget, st.memory) && st.memory.healthy
    requires v.AcceptIdentity? ==> Applies(st.memory, v.event) && Judged(budget, st.memory, v.event)
    ensures Consistent(budget, SettleIdentity(sha, st, v, appends).store.memory)
    ensures SettleIdentity(sha, st, v, appends).store.memory.healthy
  {
    if v.AcceptIdentity? && appends {
      CommitIsConsistent(sha, budget, st, v.event);
      SettledStore(sha, st, v);
      CommitKeepsHealth(sha, st, v.event);
    }
  }

  lemma SettledStore(sha: Hash, st: IdentityStore, v: Verdict)
    requires v.AcceptIdentity? && Applies(st.memory, v.event) && st.memory.healthy
    ensures SettleIdentity(sha, st, v, true) == Outcome(CommitIdentity(sha, st, v.event), Recorded)
  {
  }

  lemma CommitKeepsHealth(sha: Hash, st: IdentityStore, e: Event)
    requires Applies(st.memory, e)
    ensures CommitIdentity(sha, st, e).memory.healthy == st.memory.healthy
  {
    ApplyKeepsHealth(st.memory, e);
    var head := CommittedMemory(sha, st, e);
  }

  lemma ApplyKeepsHealth(s: Identities, e: Event)
    requires Applies(s, e)
    ensures ApplyIdentity(s, e).healthy == s.healthy
  {
  }

  // ----- activity and revocation -----

  /**
   Success does not mean the identity is live: after an Ok result the identity is active exactly when none of its
   three records is revoked, and that can fail only for an attestation that was already on record, because the
   duplicate check comes before the revocation checks.
   */
  lemma OkMeansOnRecord(sha: Hash, budget: Budget, st: IdentityStore, e: Evidence, appends: bool)
    requires Indexed(st.memory) && st.memory.healthy
    requires StepIdentity(sha, budget, st, IdentityCall(Record(e), appends)).status.Ok()
    ensures var out, o := StepIdentity(sha, budget, st, IdentityCall(Record(e), appends)), ObservationOf(sha, e);
            && (forall kind: Kind :: TallyAt(out.store.memory, kind, KeyOf(kind, o)).Some?)
            && (IdentityActive(sha, out.store.memory, e) <==>
                  forall kind: Kind :: !TallyAt(out.store.memory, kind, KeyOf(kind, o)).value.Revoked())
            && (out.status == Recorded ==> IdentityActive(sha, out.store.memory, e))
  {
    SettledOk(sha, budget, st, ObservationOf(sha, e), appends);
  }

  lemma SettledOk(sha: Hash, budget: Budget, st: IdentityStore, o: Observation, appends: bool)
    requires Indexed(st.memory) && st.memory.healthy
    requires SettleIdentity(sha, st, JudgeObservation(budget, st.memory, o), appends).status.Ok()
    ensures var out := SettleIdentity(sha, st, JudgeObservation(budget, st.memory, o), appends);
            && out.store.memory.healthy
            && (forall kind: Kind :: TallyAt(out.store.memory, kind, KeyOf(kind, o)).Some?)
            && (AllUnrevoked(out.store.memory, o) <==>
                  forall kind: Kind :: !TallyAt(out.store.memory, kind, KeyOf(kind, o)).value.Revoked())
            && (out.status == Recorded ==> AllUnrevoked(out.store.memory, o))
  {
    var s, v := st.memory, JudgeObservation(budget, st.memory, o);
    if v.AcceptIdentity? {
      SettledStore(sha, st, v);
      CommittedIsUnrevoked(sha, budget, st, o);
      EachUnrevoked(CommitIdentity(sha, st, v.event).memory, o);
    } else {
      RecordedIsIndexed(s, o);
      EachUnrevoked(s, o);
    }
  }

  lemma CommittedIsUnrevoked(sha: Hash, budget: Budget, st: IdentityStore, o: Observation)
    requires JudgeObservation(budget, st.memory, o).AcceptIdentity?
    ensures forall kind: Kind :: Unrevoked(CommitIdentity(sha, st, Observed(o)).memory, kind, KeyOf(kind, o))
    ensures CommitIdentity(sha, st, Observed(o)).memory.healthy == st.memory.healthy
  {
    AcceptedIsUnrevoked(budget, st.memory, o);
    var head := CommittedMemory(sha, st, Observed(o));
    forall kind: Kind ensures Unrevoked(CommitIdentity(sha, st, Observed(o)).memory, kind, KeyOf(kind, o)) {
      assert Unrevoked(WithObservation(st.memory, o), kind, KeyOf(kind, o));
    }
  }

  lemma EachUnrevoked(s: Identities, o: Observation)
    requires forall kind: Kind :: TallyAt(s, kind, KeyOf(kind, o)).Some?
    ensures AllUnrevoked(s, o) <==> forall kind: Kind :: !TallyAt(s, kind, KeyOf(kind, o)).value.Revoked()
  {
    assert KeyOf(DeviceKind, o) == o.measured.deviceRecord && KeyOf(ExecutableKind, o) == o.measured.executableRecord;
    assert KeyOf(ProcessKind, o) == o.processRecord;
  }

  lemma RecordedIsIndexed(s: Identities, o: Observation)
    requires Indexed(s) && o.attestationId in s.attestations && SameObservation(s.attestations[o.attestationId], o)
    ensures forall kind: Kind :: TallyAt(s, kind, KeyOf(kind, o)).Some?
  {
    forall kind: Kind ensures TallyAt(s, kind, KeyOf(kind, o)).Some? {
      assert Entry(s, kind, KeyOf(kind, o));
      assert o.attestationId in Naming(s.attestations, kind, KeyOf(kind, o));
    }
  }

  lemma AcceptedIsUnrevoked(budget: Budget, s: Identities, o: Observation)
    requires JudgeObservation(budget, s, o).AcceptIdentity?
    ensures forall kind: Kind :: Unrevoked(WithObservation(s, o), kind, KeyOf(kind, o))
  {
    forall kind: Kind ensures Unrevoked(WithObservation(s, o), kind, KeyOf(kind, o)) {
      TallyAfter(s, o, kind, KeyOf(kind, o));
    }
  }

  lemma ResentObservation(budget: Budget, s: Identities, o: Observation, at: u64, reason: Text)
    requires s.healthy && at != 0 && ValidReason(reason) && JudgeObservation(budget, s, o).AcceptIdentity?
    ensures var s1, id := WithObservation(s, o), o.measured.deviceRecord;
            && JudgeWithdrawal(s1, DeviceKind, id, at, reason) == AcceptIdentity(Withdrawn(DeviceKind, id, at, reason))
            && JudgeObservation(budget, WithWithdrawal(s1, DeviceKind, id, at, reason), o) == RefuseIdentity(AlreadyRecorded)
            && !Unrevoked(WithWithdrawal(s1, DeviceKind, id, at, reason), DeviceKind, id)
  {
    TallyAfter(s, o, DeviceKind, o.measured.deviceRecord);
    TallyAfterWithdrawal(WithObservation(s, o), DeviceKind, o.measured.deviceRecord, at, reason, DeviceKind, o.measured.deviceRecord);
  }

  lemma HeadIsNotJudged(budget: Budget, s: Identities, sequence: nat, head: Text)
    ensures var s' := s.(sequence := sequence, head := head);
            && (forall o :: JudgeObservation(budget, s', o) == JudgeObservation(budget, s, o))
            && (forall kind, id, at, reason :: JudgeWithdrawal(s', kind, id, at, reason) == JudgeWithdrawal(s, kind, id, at, reason))
            && (forall kind, id :: TallyAt(s', kind, id) == TallyAt(s, kind, id))
  {
  }

  /** The case just described does occur: a re-sent attestation of a revoked device is reported Ok. */
  lemma ResentAfterRevocation(sha: Hash, budget: Budget, st: IdentityStore, e: Evidence, at: u64, reason: Text)
    requires st.memory.healthy && at != 0 && ValidReason(reason)
    requires JudgeEvidence(sha, budget, st.memory, e).AcceptIdentity?
    ensures var first := StepIdentity(sha, budget, st, IdentityCall(Record(e), true));
            var id := DeviceId(sha, e.providerId, e.binding.deviceId);
            var revoked := StepIdentity(sha, budget, first.store, IdentityCall(Revoke(DeviceKind, id, at, reason), true));
            var again := StepIdentity(sha, budget, revoked.store, IdentityCall(Record(e), true));
            && first.status == Recorded && revoked.status == Recorded && again.status == AlreadyRecorded
            && !IdentityActive(sha, again.store.memory, e)
  {
    var s, o := st.memory, ObservationOf(sha, e);
    ResentObservation(budget, s, o, at, reason);
    var first := StepIdentity(sha, budget, st, IdentityCall(Record(e), true)).store.memory;
    HeadIsNotJudged(budget, WithObservation(s, o), first.sequence, first.head);
  }

  function UnsignedEvidence(): (e: Evidence) {
    Attestation(1, "p", NativeOsLocal, Binding(HARDWARE_PREFIX + GENESIS, GENESIS, GENESIS, "s", TRANSACTION_PREFIX + GENESIS, 0),
                1, 1, 1, 2, "c", GENESIS, [], [])
  }

  /** A valid attestation under any hash. */
  function SomeEvidence(sha: Hash): (e: Evidence) {
    var e := UnsignedEvidence();
    e.(canonicalSha256 := sha(CanonicalAttestation(e)), attestationId := ATTESTATION_PREFIX + sha(CanonicalAttestation(e)))
  }

  lemma SomeEvidenceIsValid(sha: Hash)
    ensures ValidEvidence(sha, SomeEvidence(sha))
  {
    var e := UnsignedEvidence();
    assert e.binding.deviceId[|HARDWARE_PREFIX|..] == GENESIS && e.binding.sessionId[|TRANSACTION_PREFIX|..] == GENESIS;
    assert CanonicalAttestation(SomeEvidence(sha)) == CanonicalAttestation(e);
  }

  lemma FreshStoreAccepts(budget: Budget, o: Observation)
    requires budget.Valid()
    ensures JudgeObservation(budget, NO_IDENTITIES, o).AcceptIdentity?
  {
  }

  /** A fresh store does just that with any reason code at any time but zero. */
  lemma ResentHappens(sha: Hash, budget: Budget, at: u64, reason: Text)
    requires budget.Valid() && at != 0 && ValidReason(reason)
    ensures var e, empty := SomeEvidence(sha), IdentityStore(NO_IDENTITIES, []);
            var first := StepIdentity(sha, budget, empty, IdentityCall(Record(e), true));
            var id := DeviceId(sha, e.providerId, e.binding.deviceId);
            var revoked := StepIdentity(sha, budget, first.store, IdentityCall(Revoke(DeviceKind, id, at, reason), true));
            var again := StepIdentity(sha, budget, revoked.store, IdentityCall(Record(e), true));
            revoked.status == Recorded && again.status.Ok() && !IdentityActive(sha, again.store.memory, e)
  {
    SomeEvidenceIsValid(sha);
    FreshStoreAccepts(budget, ObservationOf(sha, SomeEvidence(sha)));
    ResentAfterRevocation(sha, budget, IdentityStore(NO_IDENTITIES, []), SomeEvidence(sha), at, reason);
  }

  lemma EventKeepsRevoked(budget: Budget, s: Identities, e: Event, kind: Kind, id: Text)
    requires TallyAt(s, kind, id).Some? && TallyAt(s, kind, id).value.Revoked()
    requires Applies(s, e) && Judged(budget, s, e)
    requires e.Withdrawn? ==> Unrevoked(s, e.kind, e.id)
    ensures var after := ApplyIdentity(s, e);
            && TallyAt(after, kind, id) == TallyAt(s, kind, id)
            && Naming(after.attestations, kind, id) == Naming(s.attestations, kind, id)
  {
    match e
    case Observed(o) =>
      AcceptedNamesNoRevoked(budget, s, o, kind, id);
      OtherKeepsRecord(s, o, kind, id);
    case Withdrawn(k, i, at, reason) =>
      TallyAfterWithdrawal(s, k, i, at, reason, kind, id);
      assert ApplyIdentity(s, e).attestations == s.attestations;
  }

  lemma OtherKeepsRecord(s: Identities, o: Observation, kind: Kind, id: Text)
    requires KeyOf(kind, o) != id && o.attestationId !in s.attestations
    ensures TallyAt(WithObservation(s, o), kind, id) == TallyAt(s, kind, id)
    ensures Naming(WithObservation(s, o).attestations, kind, id) == Naming(s.attestations, kind, id)
  {
    TallyAfter(s, o, kind, id);
    NamingGrows(s.attestations, kind, id, o.attestationId, o);
  }

  lemma AcceptedNamesNoRevoked(budget: Budget, s: Identities, o: Observation, kind: Kind, id: Text)
    requires JudgeObservation(budget, s, o).AcceptIdentity?
    requires TallyAt(s, kind, id).Some? && TallyAt(s, kind, id).value.Revoked()
    ensures KeyOf(kind, o) != id && o.attestationId !in s.attestations
  {
  }

  lemma SettleKeepsRevoked(sha: Hash, budget: Budget, st: IdentityStore, v: Verdict, appends: bool, kind: Kind, id: Text)
    requires TallyAt(st.memory, kind, id).Some? && TallyAt(st.memory, kind, id).value.Revoked()
    requires v.AcceptIdentity? ==> Applies(st.memory, v.event) && Judged(budget, st.memory, v.event)
    requires v.AcceptIdentity? && v.event.Withdrawn? ==> Unrevoked(st.memory, v.event.kind, v.event.id)
    ensures var after := SettleIdentity(sha, st, v, appends).store.memory;
            && TallyAt(after, kind, id) == TallyAt(st.memory, kind, id)
            && Naming(after.attestations, kind, id) == Naming(st.memory.attestations, kind, id)
  {
    if v.AcceptIdentity? && st.memory.healthy && appends {
      EventKeepsRevoked(budget, st.memory, v.event, kind, id);
      SettledStore(sha, st, v);
      var head := CommittedMemory(sha, st, v.event);
    }
  }

  lemma StepKeepsRevoked(sha: Hash, budget: Budget, st: IdentityStore, call: IdentityCall, kind: Kind, id: Text)
    requires TallyAt(st.memory, kind, id).Some? && TallyAt(st.memory, kind, id).value.Revoked()
    ensures var after := StepIdentity(sha, budget, st, call).store.memory;
            && TallyAt(after, kind, id) == TallyAt(st.memory, kind, id)
            && Naming(after.attestations, kind, id) == Naming(st.memory.attestations, kind, id)
  {
    SettleKeepsRevoked(sha, budget, st, JudgeIdentity(sha, budget, st.memory, call.op), call.appends, kind, id);
  }

  /**
   Revocation is final: from the moment a record is revoked its time, reason and tally never change again, and no
   later attestation naming it is stored.
   */
  lemma {:induction false} RevocationIsFinal(sha: Hash, budget: Budget, calls: seq<IdentityCall>, k: nat, kind: Kind, id: Text)
    requires k <= |calls|
    requires var t := TallyAt(RunIdentities(sha, budget, calls[..k]).memory, kind, id); t.Some? && t.value.Revoked()
    ensures var then_, now := RunIdentities(sha, budget, calls[..k]).memory, RunIdentities(sha, budget, calls).memory;
            && TallyAt(now, kind, id) == TallyAt(then_, kind, id)
            && Naming(now.attestations, kind, id) == Naming(then_.attestations, kind, id)
    decreases |calls|
  {
    if k == |calls| {
      assert calls[..k] == calls;
    } else {
      var front := calls[..|calls| - 1];
      assert front[..k] == calls[..k];
      RevocationIsFinal(sha, budget, front, k, kind, id);
      StepKeepsRevoked(sha, budget, RunIdentities(sha, budget, front), calls[|calls| - 1], kind, id);
    }
  }
}
