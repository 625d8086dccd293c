/**
 The runtime identity store: devices, executables and processes seen in attestations, indexed with running
 aggregates, revocable, and journaled.
 */
module RuntimeIdentity {
  import opened Wrappers
  import opened Text
  import opened HashChain
  import opened AuthorityReceipt
  import opened RuntimeLease

  // ----- evidence -----

  datatype Trust = NativeOsLocal | NativeOsLocalDegraded {
    function Code(): (n: nat)
      ensures n <= 1
    {
      if NativeOsLocal? then 0 else 1
    }
  }

  /** The enumerated reality layers, by position. */
  type Layer = n: nat | n < 10

  datatype Attestation = Attestation(
    schemaVersion: u32, providerId: Text, trust: Trust, binding: Binding, processId: u64, startedAt: u64,
    observedAt: u64, validUntil: u64, challenge: Text, locatorSha256: Text, canonicalSha256: Text, attestationId: Text)

  const NO_ATTESTATION := Attestation(0, [], NativeOsLocal, Binding([], [], [], [], [], 0), 0, 0, 0, 0, [], [], [], [])

  type Evidence = a: Attestation | a.binding.layer < 10 witness NO_ATTESTATION

  const ATTESTATION_PREFIX: Text := "guff:attestation:sha256:"
  const DEVICE_PREFIX: Text := "guff:identity-device:sha256:"
  const IMAGE_PREFIX: Text := "guff:identity-image:sha256:"
  const PROCESS_PREFIX: Text := "guff:identity-process:sha256:"

  function CanonicalAttestation(e: Evidence): Text {
    JoinLines([Dec(e.schemaVersion), e.providerId, Dec(e.trust.Code())] + BindingLines(e.binding)
              + [Dec(e.processId), Dec(e.startedAt), Dec(e.observedAt), Dec(e.validUntil), e.challenge, e.locatorSha256])
  }

  predicate ValidEvidence(sha: Hash, e: Evidence) {
    && e.schemaVersion == 1 && e.providerId != []
    && PrefixedSha256(e.binding.deviceId, HARDWARE_PREFIX)
    && IsSha256(e.binding.executableSha256) && IsSha256(e.binding.processSha256)
    && PrefixedSha256(e.binding.sessionId, TRANSACTION_PREFIX) && ValidToken(e.binding.slotId, 192)
    && e.processId != 0 && e.startedAt != 0 && e.observedAt != 0 && e.observedAt < e.validUntil
    && ValidToken(e.challenge, 128) && IsSha256(e.locatorSha256)
    && e.canonicalSha256 == sha(CanonicalAttestation(e))
    && e.attestationId == ATTESTATION_PREFIX + sha(CanonicalAttestation(e))
  }

  // ----- records -----

  function DeviceText(providerId: Text, deviceId: Text): Text {
    providerId + "\n" + deviceId
  }

  function DeviceId(sha: Hash, providerId: Text, deviceId: Text): Text {
    DEVICE_PREFIX + sha(DeviceText(providerId, deviceId))
  }

  function ExecutableId(sha: Hash, executableSha256: Text): Text {
    IMAGE_PREFIX + sha(executableSha256)
  }

  function ProcessId(sha: Hash, providerId: Text, instanceSha256: Text): Text {
    PROCESS_PREFIX + sha(DeviceText(providerId, instanceSha256))
  }

  /** First and last sighting, how many, and the revocation (time zero: none). */
  datatype Tally = Tally(first: u64, last: u64, observations: nat, revokedAt: u64, reason: Text) {
    predicate Revoked() {
      revokedAt != 0
    }
  }

  datatype Device = Device(providerId: Text, deviceId: Text, strongest: Trust, tally: Tally)
  datatype Executable = Executable(sha256: Text, tally: Tally)

  /** The measurements a process record fixes for good. */
  datatype Measured = Measured(
    providerId: Text, instanceSha256: Text, deviceRecord: Text, executableRecord: Text, deviceId: Text,
    executableSha256: Text, processId: u64, startedAt: u64)

  datatype Process = Process(measured: Measured, tally: Tally)

  datatype Observation = Observation(
    attestationId: Text, canonicalSha256: Text, trust: Trust, processRecord: Text, measured: Measured,
    slotId: Text, sessionId: Text, layer: Layer, observedAt: u64, validUntil: u64, challengeSha256: Text, locatorSha256: Text)

  datatype Budget = Budget(maxDevices: nat, maxExecutables: nat, maxProcesses: nat, maxAttestations: nat) {
    predicate Valid() {
      maxDevices > 0 && maxExecutables > 0 && maxProcesses > 0 && maxAttestations > 0
    }
  }

  datatype Identities = Identities(
    devices: map<Text, Device>, executables: map<Text, Executable>, processes: map<Text, Process>,
    attestations: map<Text, Observation>, sequence: nat, head: Text, healthy: bool)

  datatype IdentityStore = IdentityStore(memory: Identities, journal: seq<Text>)

  const NO_IDENTITIES := Identities(map[], map[], map[], map[], 0, [], true)

  datatype Status =
    | Recorded | AlreadyRecorded | InvalidEvidence | DeviceRevoked | ExecutableRevoked | ProcessRevoked
    | Collision | CapacityExceeded | NotFound | StorageError | Corrupt
  {
    predicate Ok() {
      Recorded? || AlreadyRecorded?
    }
  }

  datatype Kind = DeviceKind | ExecutableKind | ProcessKind

  datatype Event = Observed(o: Observation) | Withdrawn(kind: Kind, id: Text, at: u64, reason: Text)

  datatype Verdict = RefuseIdentity(status: Status) | AcceptIdentity(event: Event)

  // ----- judging -----

  function MeasuredOf(sha: Hash, e: Evidence): Measured {
    var b := e.binding;
    Measured(e.providerId, b.processSha256, DeviceId(sha, e.providerId, b.deviceId), ExecutableId(sha, b.executableSha256),
             b.deviceId, b.executableSha256, e.processId, e.startedAt)
  }

  function ObservationOf(sha: Hash, e: Evidence): Observation {
    var b := e.binding;
    Observation(e.attestationId, e.canonicalSha256, e.trust, ProcessId(sha, e.providerId, b.processSha256), MeasuredOf(sha, e),
                b.slotId, b.sessionId, b.layer, e.observedAt, e.validUntil, sha(e.challenge), e.locatorSha256)
  }

  predicate SameObservation(x: Observation, y: Observation) {
    && x.canonicalSha256 == y.canonicalSha256 && x.processRecord == y.processRecord
    && x.measured.deviceRecord == y.measured.deviceRecord && x.measured.executableRecord == y.measured.executableRecord
  }

  predicate OverCapacity(budget: Budget, s: Identities, o: Observation) {
    || (o.measured.deviceRecord !in s.devices && |s.devices| >= budget.maxDevices)
    || (o.measured.executableRecord !in s.executables && |s.executables| >= budget.maxExecutables)
    || (o.processRecord !in s.processes && |s.processes| >= budget.maxProcesses)
    || |s.attestations| >= budget.maxAttestations
  }

  /** The checks after validation, on the observation the evidence becomes. */
  function JudgeObservation(budget: Budget, s: Identities, o: Observation): Verdict {
    var m := o.measured;
    if o.attestationId in s.attestations then
      RefuseIdentity(if SameObservation(s.attestations[o.attestationId], o) then AlreadyRecorded else Collision)
    else if m.deviceRecord in s.devices && s.devices[m.deviceRecord].tally.Revoked() then RefuseIdentity(DeviceRevoked)
    else if m.executableRecord in s.executables && s.executables[m.executableRecord].tally.Revoked() then
      RefuseIdentity(ExecutableRevoked)
    else if o.processRecord in s.processes && s.processes[o.processRecord].measured != m then RefuseIdentity(Collision)
    else if o.processRecord in s.processes && s.processes[o.processRecord].tally.Revoked() then RefuseIdentity(ProcessRevoked)
    else if OverCapacity(budget, s, o) then RefuseIdentity(CapacityExceeded)
    else AcceptIdentity(Observed(o))
  }

  function JudgeEvidence(sha: Hash, budget: Budget, s: Identities, e: Evidence): Verdict {
    if !s.healthy then RefuseIdentity(Corrupt)
    else if !ValidEvidence(sha, e) then RefuseIdentity(InvalidEvidence)
    else JudgeObservation(budget, s, ObservationOf(sha, e))
  }

  predicate ValidReason(reason: Text) {
    ValidToken(reason, 128)
  }

  function TallyAt(s: Identities, kind: Kind, id: Text): Option<Tally> {
    match kind
    case DeviceKind => if id in s.devices then Some(s.devices[id].tally) else None
    case ExecutableKind => if id in s.executables then Some(s.executables[id].tally) else None
    case ProcessKind => if id in s.processes then Some(s.processes[id].tally) else None
  }

  function JudgeWithdrawal(s: Identities, kind: Kind, id: Text, at: u64, reason: Text): Verdict {
    if !s.healthy then RefuseIdentity(Corrupt)
    else if at == 0 || !ValidReason(reason) then RefuseIdentity(InvalidEvidence)
    else
      match TallyAt(s, kind, id)
      case None => RefuseIdentity(NotFound)
      case Some(t) => if t.Revoked() then RefuseIdentity(AlreadyRecorded) else AcceptIdentity(Withdrawn(kind, id, at, reason))
  }

  // ----- applying -----

  function Min(a: u64, b: u64): u64 {
    if b < a then b else a
  }

  function Max(a: u64, b: u64): u64 {
    if a < b then b else a
  }

  function Sighted(before: Option<Tally>, at: u64): Tally {
    match before
    case None => Tally(at, at, 1, 0, [])
    case Some(t) => t.(first := Min(t.first, at), last := Max(t.last, at), observations := t.observations + 1)
  }

  function Stronger(a: Trust, b: Trust): Trust {
    if a == NativeOsLocal || b == NativeOsLocal then NativeOsLocal else NativeOsLocalDegraded
  }

  function WithDevice(s: Identities, o: Observation): Identities {
    var id := o.measured.deviceRecord;
    var seen := Sighted(TallyAt(s, DeviceKind, id), o.observedAt);
    var device := if id in s.devices
                  then s.devices[id].(strongest := Stronger(s.devices[id].strongest, o.trust), tally := seen)
                  else Device(o.measured.providerId, o.measured.deviceId, o.trust, seen);
    s.(devices := s.devices[id := device])
  }

  function WithExecutable(s: Identities, o: Observation): Identities {
    var id := o.measured.executableRecord;
    var seen := Sighted(TallyAt(s, ExecutableKind, id), o.observedAt);
    var executable := if id in s.executables then s.executables[id].(tally := seen)
                      else Executable(o.measured.executableSha256, seen);
    s.(executables := s.executables[id := executable])
  }

  function WithProcess(s: Identities, o: Observation): Identities {
    var id := o.processRecord;
    var seen := Sighted(TallyAt(s, ProcessKind, id), o.observedAt);
    var process := if id in s.processes then s.processes[id].(tally := seen) else Process(o.measured, seen);
    s.(processes := s.processes[id := process])
  }

  function WithObservation(s: Identities, o: Observation): Identities {
    var t := WithProcess(WithExecutable(WithDevice(s, o), o), o);
    t.(attestations := t.attestations[o.attestationId := o])
  }

  function WithWithdrawal(s: Identities, kind: Kind, id: Text, at: u64, reason: Text): Identities
    requires TallyAt(s, kind, id).Some?
  {
    var gone := TallyAt(s, kind, id).value.(revokedAt := at, reason := reason);
    match kind
    case DeviceKind => s.(devices := s.devices[id := s.devices[id].(tally := gone)])
    case ExecutableKind => s.(executables := s.executables[id := s.executables[id].(tally := gone)])
    case ProcessKind => s.(processes := s.processes[id := s.processes[id].(tally := gone)])
  }

  /** An event may be applied when what it withdraws is on record. */
  predicate Applies(s: Identities, e: Event) {
    e.Withdrawn? ==> TallyAt(s, e.kind, e.id).Some?
  }

  function ApplyIdentity(s: Identities, e: Event): Identities
    requires Applies(s, e)
  {
    match e
    case Observed(o) => WithObservation(s, o)
    case Withdrawn(kind, id, at, reason) => WithWithdrawal(s, kind, id, at, reason)
  }

  // ----- journaling -----

  function KindTag(kind: Kind): Text {
    match kind
    case DeviceKind => "D"
    case ExecutableKind => "E"
    case ProcessKind => "P"
  }

  function PrintObservation(o: Observation): (body: seq<Text>)
    ensures |body| == 20
  {
    var m := o.measured;
    ["O", HexEncode(o.attestationId), o.canonicalSha256, HexEncode(m.providerId), Dec(o.trust.Code()),
     HexEncode(m.deviceRecord), HexEncode(m.deviceId), HexEncode(m.executableRecord), m.executableSha256,
     HexEncode(o.processRecord), m.instanceSha256, Dec(m.processId), Dec(m.startedAt),
     HexEncode(o.slotId), HexEncode(o.sessionId), Dec(o.layer), Dec(o.observedAt), Dec(o.validUntil),
     o.challengeSha256, o.locatorSha256]
  }

  function PrintIdentity(e: Event): (body: seq<Text>)
    ensures body != []
  {
    match e
    case Observed(o) => PrintObservation(o)
    case Withdrawn(kind, id, at, reason) => [KindTag(kind), HexEncode(id), Dec(at), HexEncode(reason)]
  }

  function CommitIdentity(sha: Hash, st: IdentityStore, e: Event): IdentityStore
    requires Applies(st.memory, e)
  {
    var s, body := st.memory, PrintIdentity(e);
    IdentityStore(ApplyIdentity(s, e).(sequence := s.sequence + 1, head := sha(Canonical(s.sequence, s.head, body))),
                  st.journal + [Line(sha, s.sequence, s.head, body)])
  }

  datatype Outcome = Outcome(store: IdentityStore, status: Status)

  function SettleIdentity(sha: Hash, st: IdentityStore, verdict: Verdict, appends: bool): Outcome
    requires verdict.AcceptIdentity? ==> Applies(st.memory, verdict.event)
  {
    match verdict
    case RefuseIdentity(status) => Outcome(st, status)
    case AcceptIdentity(e) =>
      if !(st.memory.healthy && appends) then Outcome(st, StorageError) else Outcome(CommitIdentity(sha, st, e), Recorded)
  }

  // ----- activity -----

  predicate Unrevoked(s: Identities, kind: Kind, id: Text) {
    TallyAt(s, kind, id).Some? && !TallyAt(s, kind, id).value.Revoked()
  }

  predicate AllUnrevoked(s: Identities, o: Observation) {
    && Unrevoked(s, DeviceKind, o.measured.deviceRecord)
    && Unrevoked(s, ExecutableKind, o.measured.executableRecord)
    && Unrevoked(s, ProcessKind, o.processRecord)
  }

  predicate IdentityActive(sha: Hash, s: Identities, e: Evidence) {
    s.healthy && ValidEvidence(sha, e) && AllUnrevoked(s, ObservationOf(sha, e))
  }
}
