/** Replay of the identity journal, and exactly when it rebuilds the live store. */
module RuntimeIdentityReplay {
  import opened Wrappers
  import opened Text
  import opened HashChain
  import opened RuntimeLease
  import opened RuntimeIdentity
  import opened RuntimeIdentityLaws

  // ----- parsing -----

  datatype EightTexts = EightTexts(a: Text, b: Text, c: Text, d: Text, e: Text, f: Text, g: Text, h: Text)

  datatype SixNumbers = SixNumbers(trust: nat, processId: u64, startedAt: u64, layer: Layer, observedAt: u64, validUntil: u64)

  function HexEight(b: seq<Text>): Option<EightTexts>
    requires |b| == 20
  {
    match (HexDecode(b[1]), HexDecode(b[3]), HexDecode(b[5]), HexDecode(b[6]),
           HexDecode(b[7]), HexDecode(b[9]), HexDecode(b[13]), HexDecode(b[14]))
    case (Some(p), Some(q), Some(r), Some(s), Some(t), Some(u), Some(v), Some(w)) => Some(EightTexts(p, q, r, s, t, u, v, w))
    case _ => None
  }

  function Num(field: Text, max: nat): (r: Option<nat>)
    ensures r.Some? ==> r.value <= max
  {
    ParseUnsigned(field, max)
  }

  function NumbersSix(b: seq<Text>): Option<SixNumbers>
    requires |b| == 20
  {
    match (Num(b[4], 1), Num(b[11], MAX_U64), Num(b[12], MAX_U64), Num(b[15], 9), Num(b[16], MAX_U64), Num(b[17], MAX_U64))
    case (Some(t), Some(p), Some(s), Some(l), Some(o), Some(v)) => Some(SixNumbers(t, p, s, l, o, v))
    case _ => None
  }

  function Assemble(b: seq<Text>, x: EightTexts, n: SixNumbers): Observation
    requires |b| == 20
  {
    Observation(x.a, b[2], if n.trust == 0 then NativeOsLocal else NativeOsLocalDegraded, x.f,
                Measured(x.b, b[10], x.c, x.e, x.d, b[8], n.processId, n.startedAt),
                x.g, x.h, n.layer, n.observedAt, n.validUntil, b[18], b[19])
  }

  function ParseObservation(b: seq<Text>): Option<Event>
    requires |b| == 20
  {
    match (HexEight(b), NumbersSix(b))
    case (Some(x), Some(n)) => Some(Observed(Assemble(b, x, n)))
    case _ => None
  }

  function ParseWithdrawal(kind: Kind, b: seq<Text>): Option<Event>
    requires |b| == 4
  {
    match (HexDecode(b[1]), Num(b[2], MAX_U64), HexDecode(b[3]))
    case (Some(id), Some(at), Some(reason)) => Some(Withdrawn(kind, id, at, reason))
    case _ => None
  }

  function ParseIdentity(b: seq<Text>): Option<Event> {
    if b == [] then None
    else if b[0] == "O" then (if |b| == 20 then ParseObservation(b) else None)
    else if |b| != 4 then None
    else if b[0] == "D" then ParseWithdrawal(DeviceKind, b)
    else if b[0] == "E" then ParseWithdrawal(ExecutableKind, b)
    else if b[0] == "P" then ParseWithdrawal(ProcessKind, b)
    else None
  }

  // ----- what replay admits -----

  predicate WellShaped(o: Observation) {
    var m := o.measured;
    && PrefixedSha256(o.attestationId, ATTESTATION_PREFIX) && IsSha256(o.canonicalSha256)
    && IsSha256(m.executableSha256) && IsSha256(m.instanceSha256)
    && IsSha256(o.challengeSha256) && IsSha256(o.locatorSha256)
    && o.observedAt != 0 && o.observedAt < o.validUntil && m.processId != 0 && m.startedAt != 0
  }

  predicate NamesItsContent(sha: Hash, o: Observation) {
    var m := o.measured;
    && m.deviceRecord == DeviceId(sha, m.providerId, m.deviceId)
    && m.executableRecord == ExecutableId(sha, m.executableSha256)
    && o.processRecord == ProcessId(sha, m.providerId, m.instanceSha256)
  }

  predicate AdmitObservation(sha: Hash, budget: Budget, s: Identities, o: Observation) {
    WellShaped(o) && NamesItsContent(sha, o) && o.attestationId !in s.attestations && !OverCapacity(budget, s, o)
  }

  predicate DeviceCollides(s: Identities, o: Observation) {
    var id := o.measured.deviceRecord;
    id in s.devices && (s.devices[id].providerId != o.measured.providerId || s.devices[id].deviceId != o.measured.deviceId)
  }

  predicate ExecutableCollides(s: Identities, o: Observation) {
    var id := o.measured.executableRecord;
    id in s.executables && s.executables[id].sha256 != o.measured.executableSha256
  }

  predicate ProcessCollides(s: Identities, o: Observation) {
    o.processRecord in s.processes && s.processes[o.processRecord].measured != o.measured
  }

  /** A collision stops replay after the records before it have already been updated. */
  function ReplayObservation(s: Identities, o: Observation): Identities {
    if DeviceCollides(s, o) then s.(healthy := false)
    else if ExecutableCollides(s, o) then WithDevice(s, o).(healthy := false)
    else if ProcessCollides(s, o) then WithExecutable(WithDevice(s, o), o).(healthy := false)
    else WithObservation(s, o)
  }

  predicate AdmitWithdrawal(s: Identities, e: Event)
    requires e.Withdrawn?
  {
    e.at != 0 && ValidReason(e.reason) && Unrevoked(s, e.kind, e.id)
  }

  function ReplayEvent(sha: Hash, budget: Budget, s: Identities, e: Event): Identities {
    match e
    case Observed(o) => if AdmitObservation(sha, budget, s, o) then ReplayObservation(s, o) else s.(healthy := false)
    case Withdrawn(kind, id, at, reason) =>
      if AdmitWithdrawal(s, e) then WithWithdrawal(s, kind, id, at, reason) else s.(healthy := false)
  }

  /** The event of a line whose sequence, chain and hash check, with the line's hash. */
  function ReadIdentity(sha: Hash, s: Identities, line: Text): Option<(Event, Text)> {
    match ReadLine(sha, s.sequence, s.head, 4, line)
    case None => None
    case Some(checked) =>
      match ParseIdentity(checked.body)
      case None => None
      case Some(e) => Some((e, checked.hash))
  }

  /** An event that left the store healthy moves the chain forward. */
  function Stamped(after: Identities, sequence: nat, hash: Text): Identities {
    if after.healthy then after.(sequence := sequence, head := hash) else after
  }

  function ReplayIdentityLine(sha: Hash, budget: Budget, s: Identities, line: Text): Identities {
    if line == [] then s
    else
      match ReadIdentity(sha, s, line)
      case None => s.(healthy := false)
      case Some(read) => Stamped(ReplayEvent(sha, budget, s, read.0), s.sequence + 1, read.1)
  }

  function ReplayIdentities(sha: Hash, budget: Budget, journal: seq<Text>): Identities {
    if journal == [] then NO_IDENTITIES.(healthy := budget.Valid())
    else
      var s := ReplayIdentities(sha, budget, journal[..|journal| - 1]);
      if !s.healthy then s else ReplayIdentityLine(sha, budget, s, journal[|journal| - 1])
  }

  // ----- printing and parsing undo each other -----

  lemma HexField(t: Text)
    ensures HexDecode(HexEncode(t)) == Some(t) && Clean(HexEncode(t))
  {
    HexRoundTrip(t);
    HexIsClean(t);
  }

  lemma DecField(n: nat, max: nat)
    requires n <= max
    ensures Num(Dec(n), max) == Some(n) && Clean(Dec(n))
  {
    ParseDec(n, max);
  }

  lemma HexFields(b: seq<Text>, x: EightTexts)
    requires |b| == 20
    requires b[1] == HexEncode(x.a) && b[3] == HexEncode(x.b) && b[5] == HexEncode(x.c) && b[6] == HexEncode(x.d)
    requires b[7] == HexEncode(x.e) && b[9] == HexEncode(x.f) && b[13] == HexEncode(x.g) && b[14] == HexEncode(x.h)
    ensures HexEight(b) == Some(x)
  {
    HexRoundTrip(x.a); HexRoundTrip(x.b); HexRoundTrip(x.c); HexRoundTrip(x.d);
    HexRoundTrip(x.e); HexRoundTrip(x.f); HexRoundTrip(x.g); HexRoundTrip(x.h);
  }

  lemma NumberFields(b: seq<Text>, n: SixNumbers)
    requires |b| == 20 && n.trust <= 1
    requires b[4] == Dec(n.trust) && b[11] == Dec(n.processId) && b[12] == Dec(n.startedAt)
    requires b[15] == Dec(n.layer) && b[16] == Dec(n.observedAt) && b[17] == Dec(n.validUntil)
    ensures NumbersSix(b) == Some(n)
  {
    DecField(n.trust, 1); DecField(n.processId, MAX_U64); DecField(n.startedAt, MAX_U64);
    DecField(n.layer, 9); DecField(n.observedAt, MAX_U64); DecField(n.validUntil, MAX_U64);
  }

  function HexPart(o: Observation): EightTexts {
    var m := o.measured;
    EightTexts(o.attestationId, m.providerId, m.deviceRecord, m.deviceId, m.executableRecord, o.processRecord,
               o.slotId, o.sessionId)
  }

  function NumberPart(o: Observation): SixNumbers {
    SixNumbers(o.trust.Code(), o.measured.processId, o.measured.startedAt, o.layer, o.observedAt, o.validUntil)
  }

  lemma Reassembled(o: Observation)
    ensures Assemble(PrintObservation(o), HexPart(o), NumberPart(o)) == o
  {
  }

  lemma HexPartReads(o: Observation)
    ensures HexEight(PrintObservation(o)) == Some(HexPart(o))
  {
    HexFields(PrintObservation(o), HexPart(o));
  }

  lemma NumberPartReads(o: Observation)
    ensures NumbersSix(PrintObservation(o)) == Some(NumberPart(o))
  {
    NumberFields(PrintObservation(o), NumberPart(o));
  }

  lemma ObservationRoundTrip(o: Observation)
    ensures ParseIdentity(PrintObservation(o)) == Some(Observed(o))
  {
    HexPartReads(o);
    NumberPartReads(o);
    Reassembled(o);
    assert ParseObservation(PrintObservation(o)) == Some(Observed(o));
    assert PrintObservation(o)[0] == "O";
  }

  lemma EightAreClean(x: EightTexts)
    ensures AllClean([HexEncode(x.a), HexEncode(x.b), HexEncode(x.c), HexEncode(x.d), HexEncode(x.e), HexEncode(x.f), HexEncode(x.g),
                      HexEncode(x.h)])
  {
    HexIsClean(x.a); HexIsClean(x.b); HexIsClean(x.c); HexIsClean(x.d);
    HexIsClean(x.e); HexIsClean(x.f); HexIsClean(x.g); HexIsClean(x.h);
  }

  lemma SixAreClean(n: SixNumbers)
    requires n.trust <= 1
    ensures AllClean([Dec(n.trust), Dec(n.processId), Dec(n.startedAt), Dec(n.layer), Dec(n.observedAt), Dec(n.validUntil)])
  {
    ParseDec(n.trust, 1); ParseDec(n.processId, MAX_U64); ParseDec(n.startedAt, MAX_U64);
    ParseDec(n.layer, 9); ParseDec(n.observedAt, MAX_U64); ParseDec(n.validUntil, MAX_U64);
  }

  lemma DigestsAreClean(o: Observation)
    requires WellShaped(o)
    ensures AllClean(["O", o.canonicalSha256, o.measured.executableSha256, o.measured.instanceSha256, o.challengeSha256, o.locatorSha256])
  {
    Sha256IsClean(o.canonicalSha256); Sha256IsClean(o.measured.executableSha256); Sha256IsClean(o.measured.instanceSha256);
    Sha256IsClean(o.challengeSha256); Sha256IsClean(o.locatorSha256);
  }

  lemma CleanMembers(fields: seq<Text>, clean: seq<Text>)
    requires AllClean(clean) && forall i | 0 <= i < |fields| :: fields[i] in clean
    ensures AllClean(fields)
  {
  }

  lemma ObservationIsClean(o: Observation)
    requires WellShaped(o)
    ensures AllClean(PrintObservation(o))
  {
    var x, n := HexPart(o), NumberPart(o);
    EightAreClean(x);
    SixAreClean(n);
    DigestsAreClean(o);
    var texts := [HexEncode(x.a), HexEncode(x.b), HexEncode(x.c), HexEncode(x.d), HexEncode(x.e), HexEncode(x.f), HexEncode(x.g),
                  HexEncode(x.h)];
    var numbers := [Dec(n.trust), Dec(n.processId), Dec(n.startedAt), Dec(n.layer), Dec(n.observedAt), Dec(n.validUntil)];
    var digests := ["O", o.canonicalSha256, o.measured.executableSha256, o.measured.instanceSha256, o.challengeSha256, o.locatorSha256];
    CleanMembers(PrintObservation(o), texts + numbers + digests);
  }

  /** Every event a live call journals is read back as it was, from one line with no stray tab or line break. */
  lemma EventRoundTrip(e: Event)
    requires e.Observed? ==> WellShaped(e.o)
    ensures ParseIdentity(PrintIdentity(e)) == Some(e)
    ensures AllClean(PrintIdentity(e))
  {
    match e
    case Observed(o) =>
      ObservationRoundTrip(o);
      ObservationIsClean(o);
    case Withdrawn(kind, id, at, reason) =>
      WithdrawalRoundTrip(kind, id, at, reason);
  }

  lemma WithdrawalReads(kind: Kind, b: seq<Text>, id: Text, at: u64, reason: Text)
    requires b == [KindTag(kind), HexEncode(id), Dec(at), HexEncode(reason)]
    ensures ParseWithdrawal(kind, b) == Some(Withdrawn(kind, id, at, reason)) && AllClean(b)
  {
    HexField(id); DecField(at, MAX_U64); HexField(reason);
  }

  lemma WithdrawalRoundTrip(kind: Kind, id: Text, at: u64, reason: Text)
    ensures var b := PrintIdentity(Withdrawn(kind, id, at, reason));
            ParseIdentity(b) == Some(Withdrawn(kind, id, at, reason)) && AllClean(b)
  {
    WithdrawalReads(kind, PrintIdentity(Withdrawn(kind, id, at, reason)), id, at, reason);
  }

  // ----- whatever replay accepts is consistent -----

  lemma ReplayedObservation(sha: Hash, budget: Budget, s: Identities, o: Observation)
    requires Consistent(budget, s) && s.healthy && AdmitObservation(sha, budget, s, o) && ReplayObservation(s, o).healthy
    ensures Consistent(budget, ReplayObservation(s, o))
  {
    ObservationKeepsAll(budget, s, o);
  }

  lemma ReplayedEventIsConsistent(sha: Hash, budget: Budget, s: Identities, e: Event)
    requires Consistent(budget, s) && ReplayEvent(sha, budget, s, e).healthy && s.healthy
    ensures Consistent(budget, ReplayEvent(sha, budget, s, e))
  {
    match e
    case Observed(o) => ReplayedObservation(sha, budget, s, o);
    case Withdrawn(kind, id, at, reason) => WithdrawalKeepsAll(budget, s, kind, id, at, reason);
  }

  lemma StampedIsConsistent(budget: Budget, after: Identities, sequence: nat, hash: Text)
    requires Consistent(budget, after)
    ensures Consistent(budget, Stamped(after, sequence, hash))
  {
    if after.healthy {
      HeadKeepsAll(budget, after, sequence, hash);
    }
  }

  lemma HealthyLine(sha: Hash, budget: Budget, s: Identities, line: Text) returns (after: Identities, sequence: nat, hash: Text)
    requires Consistent(budget, s) && s.healthy && ReplayIdentityLine(sha, budget, s, line).healthy && line != []
    ensures Consistent(budget, after) && ReplayIdentityLine(sha, budget, s, line) == Stamped(after, sequence, hash)
  {
    var read := ReadIdentity(sha, s, line).value;
    after, sequence, hash := ReplayEvent(sha, budget, s, read.0), s.sequence + 1, read.1;
    assert Stamped(after, sequence, hash).healthy == after.healthy;
    ReplayedEventIsConsistent(sha, budget, s, read.0);
  }

  lemma ReplayedLineIsConsistent(sha: Hash, budget: Budget, s: Identities, line: Text)
    requires Consistent(budget, s) && s.healthy && ReplayIdentityLine(sha, budget, s, line).healthy
    ensures Consistent(budget, ReplayIdentityLine(sha, budget, s, line))
  {
    if line != [] {
      var after, sequence, hash := HealthyLine(sha, budget, s, line);
      StampedIsConsistent(budget, after, sequence, hash);
    }
  }

  /** Any journal text whatever: if replay reports it healthy, the rebuilt indexes summarise the rebuilt attestations. */
  lemma {:induction false} ReplayedIsConsistent(sha: Hash, budget: Budget, journal: seq<Text>)
    requires ReplayIdentities(sha, budget, journal).healthy
    ensures Consistent(budget, ReplayIdentities(sha, budget, journal))
  {
    if journal == [] {
      RunIsConsistent(sha, budget, []);
    } else {
      var front := journal[..|journal| - 1];
      ReplayedIsConsistent(sha, budget, front);
      ReplayedLineIsConsistent(sha, budget, ReplayIdentities(sha, budget, front), journal[|journal| - 1]);
    }
  }

  // ----- live state and replayed state -----

  /** Two different contents under one record identity, which the live call does not look for. */
  predicate Collides(s: Identities, o: Observation) {
    DeviceCollides(s, o) || ExecutableCollides(s, o)
  }

  lemma PrefixedDigest(prefix: Text, digest: Digest)
    ensures PrefixedSha256(prefix + digest, prefix)
  {
    assert (prefix + digest)[|prefix|..] == digest;
  }

  lemma EvidenceIsWellShaped(sha: Hash, e: Evidence)
    requires ValidEvidence(sha, e)
    ensures WellShaped(ObservationOf(sha, e)) && NamesItsContent(sha, ObservationOf(sha, e))
  {
    PrefixedDigest(ATTESTATION_PREFIX, sha(CanonicalAttestation(e)));
  }

  predicate WouldReplay(s: Identities, e: Event) {
    e.Observed? ==> !Collides(s, e.o)
  }

  /** What the live store accepts, replay admits exactly when no record identity collides. */
  lemma AcceptedReplays(sha: Hash, budget: Budget, s: Identities, op: IdentityOp)
    requires JudgeIdentity(sha, budget, s, op).AcceptIdentity?
    ensures var e := JudgeIdentity(sha, budget, s, op).event;
            && (e.Observed? ==> WellShaped(e.o))
            && (WouldReplay(s, e) ==> ReplayEvent(sha, budget, s, e) == ApplyIdentity(s, e))
            && (!WouldReplay(s, e) ==> !ReplayEvent(sha, budget, s, e).healthy)
  {
    if op.Record? {
      EvidenceIsWellShaped(sha, op.evidence);
      ObservationReplays(sha, budget, s, ObservationOf(sha, op.evidence));
    }
  }

  lemma ObservationReplays(sha: Hash, budget: Budget, s: Identities, o: Observation)
    requires JudgeObservation(budget, s, o).AcceptIdentity? && WellShaped(o) && NamesItsContent(sha, o)
    ensures !Collides(s, o) ==> ReplayEvent(sha, budget, s, Observed(o)) == WithObservation(s, o)
    ensures Collides(s, o) ==> !ReplayEvent(sha, budget, s, Observed(o)).healthy
  {
  }

  /** No committed call of the run observed a record identity already holding different content. */
  predicate NoCollision(sha: Hash, budget: Budget, calls: seq<IdentityCall>) {
    calls == [] ||
    (var front, last := calls[..|calls| - 1], calls[|calls| - 1];
     var s := RunIdentities(sha, budget, front).memory;
     NoCollision(sha, budget, front)
     && (JudgeIdentity(sha, budget, s, last.op).AcceptIdentity? && last.appends ==>
           WouldReplay(s, JudgeIdentity(sha, budget, s, last.op).event)))
  }

  ghost predicate Tracks(sha: Hash, budget: Budget, st: IdentityStore, exact: bool) {
    && (st.memory.head == [] || IsSha256(st.memory.head)) && st.memory.healthy && st.memory.sequence == |st.journal|
    && (exact ==> ReplayIdentities(sha, budget, st.journal) == st.memory)
    && (!exact ==> !ReplayIdentities(sha, budget, st.journal).healthy)
  }

  lemma WrittenLineReads(sha: Hash, s: Identities, e: Event)
    requires (s.head == [] || IsSha256(s.head)) && s.sequence < MAX_U64
    requires ParseIdentity(PrintIdentity(e)) == Some(e) && AllClean(PrintIdentity(e))
    ensures ReadIdentity(sha, s, Line(sha, s.sequence, s.head, PrintIdentity(e)))
         == Some((e, sha(Canonical(s.sequence, s.head, PrintIdentity(e)))))
  {
    CleanIsTabFree(PrintIdentity(e));
    ReadWritten(sha, s.sequence, s.head, PrintIdentity(e), 4);
  }

  lemma CommitTracks(sha: Hash, budget: Budget, st: IdentityStore, op: IdentityOp, exact: bool)
    requires Tracks(sha, budget, st, exact) && |st.journal| < MAX_U64
    requires JudgeIdentity(sha, budget, st.memory, op).AcceptIdentity?
    ensures var e := JudgeIdentity(sha, budget, st.memory, op).event;
            Tracks(sha, budget, CommitIdentity(sha, st, e), exact && WouldReplay(st.memory, e))
  {
    var s, e := st.memory, JudgeIdentity(sha, budget, st.memory, op).event;
    AcceptedReplays(sha, budget, s, op);
    EventRoundTrip(e);
    WrittenLineReads(sha, s, e);
    EventTracks(sha, budget, st, e, exact);
  }

  lemma EventTracks(sha: Hash, budget: Budget, st: IdentityStore, e: Event, exact: bool)
    requires Tracks(sha, budget, st, exact) && Applies(st.memory, e)
    requires WouldReplay(st.memory, e) ==> ReplayEvent(sha, budget, st.memory, e) == ApplyIdentity(st.memory, e)
    requires !WouldReplay(st.memory, e) ==> !ReplayEvent(sha, budget, st.memory, e).healthy
    requires ReadIdentity(sha, st.memory, Line(sha, st.memory.sequence, st.memory.head, PrintIdentity(e)))
          == Some((e, sha(Canonical(st.memory.sequence, st.memory.head, PrintIdentity(e)))))
    ensures Tracks(sha, budget, CommitIdentity(sha, st, e), exact && WouldReplay(st.memory, e))
  {
    var st' := CommitIdentity(sha, st, e);
    ApplyKeepsHealth(st.memory, e);
    assert st'.journal[..|st.journal|] == st.journal;
    assert Line(sha, st.memory.sequence, st.memory.head, PrintIdentity(e)) != [];
  }

  lemma {:induction false} RunTracks(sha: Hash, budget: Budget, calls: seq<IdentityCall>)
    requires budget.Valid() && |calls| <= MAX_U64
    ensures Tracks(sha, budget, RunIdentities(sha, budget, calls), NoCollision(sha, budget, calls))
    ensures |RunIdentities(sha, budget, calls).journal| <= |calls|
  {
    if calls != [] {
      var front, last := calls[..|calls| - 1], calls[|calls| - 1];
      RunTracks(sha, budget, front);
      var st := RunIdentities(sha, budget, front);
      if JudgeIdentity(sha, budget, st.memory, last.op).AcceptIdentity? && last.appends {
        CommitTracks(sha, budget, st, last.op, NoCollision(sha, budget, front));
      }
    }
  }

  /**
   After any run, replaying the written journal rebuilds exactly the live store if and only if no committed observation
   met a record identity holding different content; otherwise replay reports the journal damaged.
   */
  lemma IdentityReplayIsExact(sha: Hash, budget: Budget, calls: seq<IdentityCall>)
    requires budget.Valid() && |calls| <= MAX_U64
    ensures var st := RunIdentities(sha, budget, calls);
            && (ReplayIdentities(sha, budget, st.journal) == st.memory <==> NoCollision(sha, budget, calls))
            && (!NoCollision(sha, budget, calls) ==> !ReplayIdentities(sha, budget, st.journal).healthy)
  {
    RunTracks(sha, budget, calls);
  }

  // ----- a collision is a hash collision -----

  /** The texts a run hashes into device and executable identities. */
  ghost function Hashed(calls: seq<IdentityCall>): set<Text> {
    if calls == [] then {}
    else
      var last := calls[|calls| - 1].op;
      Hashed(calls[..|calls| - 1])
      + (if last.Record? then HashedBy(last.evidence.providerId, last.evidence.binding) else {})
  }

  ghost function HashedBy(providerId: Text, b: Binding): set<Text> {
    {DeviceText(providerId, b.deviceId), b.executableSha256}
  }

  /** A stored device's text determines its provider and device, because hardware identities have one length. */
  lemma DeviceTextSplits(p: Text, d: Text, p': Text, d': Text)
    requires DeviceText(p, d) == DeviceText(p', d')
    requires PrefixedSha256(d, HARDWARE_PREFIX) && PrefixedSha256(d', HARDWARE_PREFIX)
    ensures p == p' && d == d'
  {
    assert |d| == |HARDWARE_PREFIX| + 64 == |d'|;
    assert p == DeviceText(p, d)[..|p|] && p' == DeviceText(p', d')[..|p'|];
    assert d == DeviceText(p, d)[|p| + 1..] && d' == DeviceText(p', d')[|p'| + 1..];
  }

  predicate DeviceKeyed(sha: Hash, d: Text, device: Device, texts: set<Text>) {
    && d == DeviceId(sha, device.providerId, device.deviceId) && DeviceText(device.providerId, device.deviceId) in texts
    && PrefixedSha256(device.deviceId, HARDWARE_PREFIX)
  }

  ghost predicate Keyed(sha: Hash, s: Identities, texts: set<Text>) {
    && (forall d | d in s.devices :: DeviceKeyed(sha, d, s.devices[d], texts))
    && (forall x | x in s.executables :: x == ExecutableId(sha, s.executables[x].sha256) && s.executables[x].sha256 in texts)
  }

  lemma SameDigest(prefix: Text, a: Digest, b: Digest)
    requires prefix + a == prefix + b
    ensures a == b
  {
    assert a == (prefix + a)[|prefix|..] && b == (prefix + b)[|prefix|..];
  }

  /** The observation names its content, and its texts are among these. */
  ghost predicate DrawnFrom(sha: Hash, o: Observation, texts: set<Text>) {
    && NamesItsContent(sha, o) && PrefixedSha256(o.measured.deviceId, HARDWARE_PREFIX)
    && DeviceText(o.measured.providerId, o.measured.deviceId) in texts && o.measured.executableSha256 in texts
  }

  lemma NoHashCollision(sha: Hash, s: Identities, texts: set<Text>, o: Observation)
    requires Keyed(sha, s, texts) && HashedApart(sha, texts) && DrawnFrom(sha, o, texts)
    ensures !Collides(s, o)
  {
    var m := o.measured;
    if m.deviceRecord in s.devices {
      var device := s.devices[m.deviceRecord];
      assert DeviceKeyed(sha, m.deviceRecord, device, texts);
      SameDigest(DEVICE_PREFIX, sha(DeviceText(m.providerId, m.deviceId)), sha(DeviceText(device.providerId, device.deviceId)));
      DeviceTextSplits(m.providerId, m.deviceId, device.providerId, device.deviceId);
    }
    if m.executableRecord in s.executables {
      SameDigest(IMAGE_PREFIX, sha(m.executableSha256), sha(s.executables[m.executableRecord].sha256));
    }
  }

  /** An accepted operation's event is an observation only of its own evidence. */
  lemma AcceptedEvent(sha: Hash, budget: Budget, s: Identities, op: IdentityOp, texts: set<Text>)
    requires op.Record? ==> HashedBy(op.evidence.providerId, op.evidence.binding) <= texts
    requires JudgeIdentity(sha, budget, s, op).AcceptIdentity?
    ensures var e := JudgeIdentity(sha, budget, s, op).event;
            Applies(s, e) && (e.Observed? ==> DrawnFrom(sha, e.o, texts))
  {
    if op.Record? {
      EvidenceIsWellShaped(sha, op.evidence);
      assert PrefixedSha256(op.evidence.binding.deviceId, HARDWARE_PREFIX);
    }
  }

  lemma StepKeepsKeyed(sha: Hash, budget: Budget, st: IdentityStore, call: IdentityCall, texts: set<Text>)
    requires Keyed(sha, st.memory, texts)
    requires call.op.Record? ==> HashedBy(call.op.evidence.providerId, call.op.evidence.binding) <= texts
    ensures Keyed(sha, StepIdentity(sha, budget, st, call).store.memory, texts)
  {
    var v := JudgeIdentity(sha, budget, st.memory, call.op);
    if v.AcceptIdentity? && call.appends {
      AcceptedEvent(sha, budget, st.memory, call.op, texts);
      SettledStore(sha, st, v);
      CommitKeepsKeyed(sha, st, v.event, texts);
    }
  }

  lemma CommitKeepsKeyed(sha: Hash, st: IdentityStore, e: Event, texts: set<Text>)
    requires Keyed(sha, st.memory, texts) && Applies(st.memory, e)
    requires e.Observed? ==> DrawnFrom(sha, e.o, texts)
    ensures Keyed(sha, CommitIdentity(sha, st, e).memory, texts)
  {
    match e
    case Observed(o) => ObservationKeepsKeyed(sha, st.memory, o, texts);
    case Withdrawn(kind, id, at, reason) => WithdrawalKeepsKeyed(sha, st.memory, kind, id, at, reason, texts);
    var head := CommittedMemory(sha, st, e);
    HeadKeepsKeyed(sha, ApplyIdentity(st.memory, e), st.memory.sequence + 1, head, texts);
  }

  lemma HeadKeepsKeyed(sha: Hash, s: Identities, sequence: nat, head: Text, texts: set<Text>)
    requires Keyed(sha, s, texts)
    ensures Keyed(sha, s.(sequence := sequence, head := head), texts)
  {
  }

  lemma WithdrawalKeepsKeyed(sha: Hash, s: Identities, kind: Kind, id: Text, at: u64, reason: Text, texts: set<Text>)
    requires Keyed(sha, s, texts) && TallyAt(s, kind, id).Some?
    ensures Keyed(sha, WithWithdrawal(s, kind, id, at, reason), texts)
  {
    var s' := WithWithdrawal(s, kind, id, at, reason);
    forall d | d in s'.devices ensures DeviceKeyed(sha, d, s'.devices[d], texts) {
      assert DeviceKeyed(sha, d, s.devices[d], texts);
    }
  }

  lemma ObservationKeepsKeyed(sha: Hash, s: Identities, o: Observation, texts: set<Text>)
    requires Keyed(sha, s, texts) && DrawnFrom(sha, o, texts)
    ensures Keyed(sha, WithObservation(s, o), texts)
  {
  }

  lemma {:induction false} RunKeepsKeyed(sha: Hash, budget: Budget, calls: seq<IdentityCall>, texts: set<Text>)
    requires Hashed(calls) <= texts
    ensures Keyed(sha, RunIdentities(sha, budget, calls).memory, texts)
  {
    if calls != [] {
      RunKeepsKeyed(sha, budget, calls[..|calls| - 1], texts);
      StepKeepsKeyed(sha, budget, RunIdentities(sha, budget, calls[..|calls| - 1]), calls[|calls| - 1], texts);
    }
  }

  lemma AcceptedWouldReplay(sha: Hash, budget: Budget, s: Identities, op: IdentityOp, texts: set<Text>)
    requires Keyed(sha, s, texts) && HashedApart(sha, texts)
    requires op.Record? ==> HashedBy(op.evidence.providerId, op.evidence.binding) <= texts
    requires JudgeIdentity(sha, budget, s, op).AcceptIdentity?
    ensures WouldReplay(s, JudgeIdentity(sha, budget, s, op).event)
  {
    var e := JudgeIdentity(sha, budget, s, op).event;
    AcceptedEvent(sha, budget, s, op, texts);
    if e.Observed? {
      NoHashCollision(sha, s, texts, e.o);
    }
  }

  /** Unless the hash maps two of the run's own inputs to one digest, replay rebuilds the live store. */
  lemma {:induction false} ApartMeansNoCollision(sha: Hash, budget: Budget, calls: seq<IdentityCall>, texts: set<Text>)
    requires Hashed(calls) <= texts && HashedApart(sha, texts)
    ensures NoCollision(sha, budget, calls)
  {
    if calls != [] {
      var front, last := calls[..|calls| - 1], calls[|calls| - 1];
      ApartMeansNoCollision(sha, budget, front, texts);
      RunKeepsKeyed(sha, budget, front, texts);
      if JudgeIdentity(sha, budget, RunIdentities(sha, budget, front).memory, last.op).AcceptIdentity? {
        AcceptedWouldReplay(sha, budget, RunIdentities(sha, budget, front).memory, last.op, texts);
      }
    }
  }
}
