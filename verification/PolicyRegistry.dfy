/**
 The signed policy registry: registrations and control records as text lines, the scan that replays
 them, and the two operations that append. Activation is compare-and-swap on the active policy.
 */
module PolicyRegistry {
  import opened Wrappers
  import opened Text
  import opened HashChain
  import AR = AuthorityReceipt
  import PE = PolicyEngine

  datatype Kind = Register | Activate | Rollback | Revoke {
    function Code(): u32 {
      match this
      case Register => 0
      case Activate => 1
      case Rollback => 2
      case Revoke => 3
    }
  }

  datatype Record = Record(
    schemaVersion: u32, sequence: u64, kind: Kind, policyId: Text, packageId: Text, signerId: Text, algorithm: Text,
    signedAt: u64, signature: Text, controlId: Text, nonce: Text, actor: Text, expectedActive: Text, issuedAt: u64,
    reasonSha256: Text, previous: Text, recordSha256: Text)

  datatype Package = Package(
    schemaVersion: u32, policyId: Text, signerId: Text, algorithm: Text, signedAt: u64, signature: Text, packageId: Text)

  datatype Action = ActivateAction | RollbackAction | RevokeAction {
    function Name(): Text {
      match this
      case ActivateAction => "ACTIVATE"
      case RollbackAction => "ROLLBACK"
      case RevokeAction => "REVOKE"
    }

    function RecordKind(): Kind {
      match this
      case ActivateAction => Activate
      case RollbackAction => Rollback
      case RevokeAction => Revoke
    }
  }

  datatype Envelope = Envelope(
    schemaVersion: u32, action: Action, packageId: Text, policyId: Text, expectedActive: Text, actor: Text, signerId: Text,
    issuedAt: u64, nonce: Text, reasonSha256: Text)

  datatype Control = Control(envelope: Envelope, algorithm: Text, envelopeSha256: Text, signature: Text, controlId: Text)

  const PACKAGE_PREFIX: Text := "guff:policy-package:sha256:"
  const CONTROL_PREFIX: Text := "guff:policy-control:sha256:"
  const MARKER: Text := "PREG"
  const MAX_LINE := 65536
  const MAX_SIGNATURE := 8192

  // ----- identities -----

  function PackageId(sha: Hash, p: Package): (id: Text)
    ensures PrefixedSha256(id, PACKAGE_PREFIX)
  {
    var digest := sha(AR.JoinLines([Dec(p.schemaVersion), p.policyId, p.signerId, p.algorithm, Dec(p.signedAt), p.signature]));
    assert (PACKAGE_PREFIX + digest)[|PACKAGE_PREFIX|..] == digest;
    PACKAGE_PREFIX + digest
  }

  function CanonicalControl(e: Envelope): Text {
    AR.JoinLines([Dec(e.schemaVersion), e.action.Name(), e.packageId, e.policyId, e.expectedActive, e.actor, e.signerId,
                  Dec(e.issuedAt), e.nonce, e.reasonSha256])
  }

  function ControlId(sha: Hash, e: Envelope, algorithm: Text, signature: Text): (id: Text)
    ensures PrefixedSha256(id, CONTROL_PREFIX)
  {
    var digest := sha(AR.JoinLines([CanonicalControl(e), algorithm, signature]));
    assert (CONTROL_PREFIX + digest)[|CONTROL_PREFIX|..] == digest;
    CONTROL_PREFIX + digest
  }

  function CanonicalRecord(r: Record): Text {
    AR.JoinLines([Dec(r.schemaVersion), Dec(r.sequence), Dec(r.kind.Code()), r.policyId, r.packageId, r.signerId, r.algorithm,
                  Dec(r.signedAt), r.signature, r.controlId, r.nonce, r.actor, r.expectedActive, Dec(r.issuedAt), r.reasonSha256,
                  r.previous])
  }

  /** The package a registration record carries. */
  function PackageOf(r: Record): Package {
    Package(1, r.policyId, r.signerId, r.algorithm, r.signedAt, r.signature, r.packageId)
  }

  function ActionOf(k: Kind): Action {
    if k == Activate then ActivateAction else if k == Rollback then RollbackAction else RevokeAction
  }

  /** The control envelope a control record carries. */
  function EnvelopeOf(r: Record): Envelope {
    Envelope(1, ActionOf(r.kind), r.packageId, r.policyId, r.expectedActive, r.actor, r.signerId, r.issuedAt, r.nonce, r.reasonSha256)
  }

  // ----- records as text -----

  function OrDash(t: Text): Text {
    if t == [] then "-" else t
  }

  function FromDash(t: Text): Text {
    if t == "-" then [] else t
  }

  function Fields(r: Record): seq<Text> {
    [MARKER, Dec(r.schemaVersion), Dec(r.sequence), Dec(r.kind.Code()), r.policyId, r.packageId, HexEncode(r.signerId),
     HexEncode(r.algorithm), Dec(r.signedAt), HexEncode(r.signature), OrDash(r.controlId), HexEncode(r.nonce), HexEncode(r.actor),
     OrDash(r.expectedActive), Dec(r.issuedAt), OrDash(r.reasonSha256), r.previous, r.recordSha256]
  }

  function Serialize(r: Record): Text {
    JoinTabs(Fields(r))
  }

  predicate ValidCommonFields(r: Record) {
    && r.schemaVersion == 1
    && PrefixedSha256(r.policyId, PE.POLICY_PREFIX) && PrefixedSha256(r.packageId, PACKAGE_PREFIX)
    && ValidText(r.signerId, 256) && ValidText(r.algorithm, 128) && 0 < |r.signature| <= MAX_SIGNATURE
    && IsSha256(r.previous) && IsSha256(r.recordSha256)
  }

  predicate ValidControlFields(r: Record) {
    && PrefixedSha256(r.controlId, CONTROL_PREFIX) && ValidText(r.nonce, 128) && ValidText(r.actor, 256)
    && (r.expectedActive == [] || PrefixedSha256(r.expectedActive, PE.POLICY_PREFIX))
    && IsSha256(r.reasonSha256)
  }

  predicate NoControlFields(r: Record) {
    && r.controlId == [] && r.nonce == [] && r.actor == [] && r.expectedActive == [] && r.issuedAt == 0 && r.reasonSha256 == []
  }

  predicate ValidFields(r: Record) {
    ValidCommonFields(r) && (if r.kind == Register then NoControlFields(r) else ValidControlFields(r))
  }

  /** The identity the record names is the one its content hashes to. */
  predicate ContentAddressed(sha: Hash, r: Record) {
    if r.kind == Register then r.packageId == PackageId(sha, PackageOf(r))
    else r.controlId == ControlId(sha, EnvelopeOf(r), r.algorithm, r.signature)
  }

  /** Everything the reader checks of one record on its own. */
  predicate ValidRecord(sha: Hash, r: Record) {
    ValidFields(r) && ContentAddressed(sha, r) && r.recordSha256 == sha(CanonicalRecord(r))
  }

  datatype HexFields = HexFields(signer: Text, algorithm: Text, signature: Text, nonce: Text, actor: Text)

  function DecodeHexFields(f: seq<Text>): Option<HexFields>
    requires |f| == 18
  {
    match (HexDecode(f[6]), HexDecode(f[7]), HexDecode(f[9]), HexDecode(f[11]), HexDecode(f[12]))
    case (Some(s), Some(a), Some(g), Some(n), Some(c)) => Some(HexFields(s, a, g, n, c))
    case _ => None
  }

  datatype Numbers = Numbers(schema: u32, sequence: u64, kind: u32, signedAt: u64, issuedAt: u64)

  function DecodeNumbers(f: seq<Text>): Option<Numbers>
    requires |f| == 18
  {
    match (ParseUnsigned(f[1], MAX_U32), ParseUnsigned(f[2], MAX_U64), ParseUnsigned(f[3], MAX_U32),
           ParseUnsigned(f[8], MAX_U64), ParseUnsigned(f[14], MAX_U64))
    case (Some(v), Some(q), Some(k), Some(s), Some(i)) =>
      if v <= MAX_U32 && q <= MAX_U64 && k <= MAX_U32 && s <= MAX_U64 && i <= MAX_U64 then Some(Numbers(v, q, k, s, i)) else None
    case _ => None
  }

  function KindOf(code: nat): Kind
    requires code <= 3
  {
    match code
    case 0 => Register
    case 1 => Activate
    case 2 => Rollback
    case _ => Revoke
  }

  function ParseRecord(f: seq<Text>): Option<Record>
    requires |f| == 18
  {
    match (DecodeNumbers(f), DecodeHexFields(f))
    case (Some(n), Some(h)) =>
      if n.schema != 1 || n.kind > 3 then None
      else
        Some(Record(n.schema, n.sequence, KindOf(n.kind), f[4], f[5], h.signer, h.algorithm, n.signedAt, h.signature, FromDash(f[10]),
                    h.nonce, h.actor, FromDash(f[13]), n.issuedAt, FromDash(f[15]), f[16], f[17]))
    case _ => None
  }

  function Deserialize(sha: Hash, line: Text): Option<Record> {
    if line == [] || |line| > MAX_LINE then None
    else
      var f := SplitTabs(line);
      if |f| != 18 || f[0] != MARKER then None
      else
        match ParseRecord(f)
        case None => None
        case Some(r) => if ValidRecord(sha, r) then Some(r) else None
  }

  // ----- scanning -----

  datatype Stored = Stored(package: Package, revoked: bool, everActive: bool)

  datatype Scan = Scan(
    healthy: bool, next: nat, head: Text, policies: map<Text, Stored>, packages: map<Text, Text>, controls: set<Text>,
    nonces: map<Text, Text>, active: Text, activePackage: Text, generation: nat)

  datatype Budget = Budget(maxPolicies: nat, maxRecords: nat, maxActorBytes: nat, maxNonceBytes: nat)

  const FRESH := Scan(true, 0, GENESIS, map[], map[], {}, map[], [], [], 0)

  function NonceKey(signer: Text, nonce: Text): Text {
    signer + "\n" + nonce
  }

  function ScanRegister(s: Scan, maxPolicies: nat, r: Record): Option<Scan> {
    if |s.policies| >= maxPolicies || r.policyId in s.policies || r.packageId in s.packages then None
    else
      Some(s.(packages := s.packages[r.packageId := r.policyId],
              policies := s.policies[r.policyId := Stored(PackageOf(r), false, false)]))
  }

  /** The control checks that do not depend on its kind. */
  predicate ControlFits(s: Scan, r: Record) {
    && r.expectedActive == s.active
    && r.controlId !in s.controls
    && (NonceKey(r.signerId, r.nonce) in s.nonces ==> s.nonces[NonceKey(r.signerId, r.nonce)] == r.controlId)
    && r.packageId in s.packages && s.packages[r.packageId] == r.policyId && r.policyId in s.policies
  }

  function Consume(s: Scan, r: Record): Scan {
    s.(controls := s.controls + {r.controlId}, nonces := s.nonces[NonceKey(r.signerId, r.nonce) := r.controlId])
  }

  function ScanRevoke(s: Scan, r: Record): Option<Scan> {
    if !ControlFits(s, r) || s.policies[r.policyId].revoked then None
    else
      var s' := Consume(s, r).(policies := s.policies[r.policyId := s.policies[r.policyId].(revoked := true)]);
      if s.active == r.policyId then Some(s'.(active := [], activePackage := [], generation := s.generation + 1)) else Some(s')
  }

  function ScanActivate(s: Scan, r: Record): Option<Scan> {
    if !ControlFits(s, r) || s.policies[r.policyId].revoked then None
    else if r.kind == Rollback && !s.policies[r.policyId].everActive then None
    else if s.active == r.policyId then None
    else
      Some(Consume(s, r).(policies := s.policies[r.policyId := s.policies[r.policyId].(everActive := true)],
                          active := r.policyId, activePackage := r.packageId, generation := s.generation + 1))
  }

  function ScanRecord(s: Scan, maxPolicies: nat, r: Record): Scan {
    if r.sequence != s.next || r.previous != s.head then s.(healthy := false)
    else
      var step := match r.kind
                  case Register => ScanRegister(s, maxPolicies, r)
                  case Revoke => ScanRevoke(s, r)
                  case _ => ScanActivate(s, r);
      match step
      case None => s.(healthy := false)
      case Some(s') => s'.(next := s.next + 1, head := r.recordSha256)
  }

  function ScanLine(sha: Hash, s: Scan, b: Budget, line: Text): Scan {
    if s.next >= b.maxRecords then s.(healthy := false)
    else
      match Deserialize(sha, Trimmed(line))
      case None => s.(healthy := false)
      case Some(r) => ScanRecord(s, b.maxPolicies, r)
  }

  function ScanRegistry(sha: Hash, b: Budget, journal: seq<Text>): Scan {
    if journal == [] then FRESH
    else
      var s := ScanRegistry(sha, b, journal[..|journal| - 1]);
      if !s.healthy then s else ScanLine(sha, s, b, journal[|journal| - 1])
  }

  // ----- operations -----

  datatype Status =
    | Ready | Invalid | SignatureRejected | PackageNotFound | AlreadyRegistered | PolicyRevoked | ActiveMismatch
    | ReplayRejected | CapacityExceeded | StorageFailure | Corrupt

  datatype Verifier = Verifier(knows: (Text, Text) -> bool, verify: (Text, Text, Text, Text) -> bool)

  /** The hash, and the two verifiers a registry is built with: one for packages, one for controls. */
  datatype RegistryCrypto = RegistryCrypto(sha: Hash, packages: Verifier, controls: Verifier)

  predicate VerifyPackage(crypto: RegistryCrypto, d: PE.Document, p: Package) {
    && PE.ValidDocument(d) && p.schemaVersion == 1 && p.policyId == PE.PolicyId(crypto.sha, d)
    && p.packageId == PackageId(crypto.sha, p)
    && ValidText(p.signerId, 256) && ValidText(p.algorithm, 128) && p.signedAt != 0 && p.signature != []
    && crypto.packages.knows(p.signerId, p.algorithm)
    && crypto.packages.verify(p.signerId, p.algorithm, PackagePayload(crypto.sha, d, p.signedAt, p.signerId), p.signature)
  }

  const PAYLOAD_HEADER: Text := "GOLF-POLICY-PACKAGE-V1"

  function PackagePayload(sha: Hash, d: PE.Document, signedAt: u64, signerId: Text): Text {
    AR.JoinLines([PAYLOAD_HEADER, PE.PolicyId(sha, d), Dec(signedAt), Dec(|signerId|) + ":" + signerId, PE.CanonicalPolicy(d)])
  }

  predicate WellFormedControl(sha: Hash, c: Control) {
    var e := c.envelope;
    && e.schemaVersion == 1 && PrefixedSha256(e.packageId, PACKAGE_PREFIX) && PrefixedSha256(e.policyId, PE.POLICY_PREFIX)
    && (e.expectedActive == [] || PrefixedSha256(e.expectedActive, PE.POLICY_PREFIX))
    && ValidText(e.actor, 256) && ValidText(e.signerId, 256) && e.issuedAt != 0 && ValidText(e.nonce, 128)
    && IsSha256(e.reasonSha256) && ValidText(c.algorithm, 128) && c.signature != []
    && c.envelopeSha256 == sha(CanonicalControl(e)) && c.controlId == ControlId(sha, e, c.algorithm, c.signature)
  }

  predicate VerifyControl(crypto: RegistryCrypto, c: Control) {
    && WellFormedControl(crypto.sha, c)
    && crypto.controls.knows(c.envelope.signerId, c.algorithm)
    && crypto.controls.verify(c.envelope.signerId, c.algorithm, CanonicalControl(c.envelope), c.signature)
  }

  datatype RegistryOp = RegisterPolicy(document: PE.Document, package: Package) | ApplyControl(control: Control)

  datatype Decision = Refused(status: Status) | Write(record: Record)

  predicate ZeroBudget(b: Budget) {
    b.maxPolicies == 0 || b.maxRecords == 0 || b.maxActorBytes == 0 || b.maxNonceBytes == 0
  }

  function RegistrationRecord(s: Scan, p: Package): Record
    requires s.next <= MAX_U64
  {
    Record(1, s.next, Register, p.policyId, p.packageId, p.signerId, p.algorithm, p.signedAt, p.signature, [], [], [], [], 0, [],
           s.head, [])
  }

  function DecideRegister(crypto: RegistryCrypto, b: Budget, s: Scan, d: PE.Document, p: Package): Decision
    requires s.next <= MAX_U64
  {
    if !VerifyPackage(crypto, d, p) then Refused(SignatureRejected)
    else if ZeroBudget(b) then Refused(Invalid)
    else if !s.healthy then Refused(Corrupt)
    else if s.next >= b.maxRecords then Refused(CapacityExceeded)
    else if p.policyId in s.policies || p.packageId in s.packages then Refused(AlreadyRegistered)
    else if |s.policies| >= b.maxPolicies then Refused(CapacityExceeded)
    else Write(RegistrationRecord(s, p))
  }

  function ControlRecord(s: Scan, c: Control): Record
    requires s.next <= MAX_U64
  {
    var e := c.envelope;
    Record(1, s.next, e.action.RecordKind(), e.policyId, e.packageId, e.signerId, c.algorithm, e.issuedAt, c.signature, c.controlId,
           e.nonce, e.actor, e.expectedActive, e.issuedAt, e.reasonSha256, s.head, [])
  }

  /** The checks of a control against the scanned registry, in the order they are made. */
  function ControlChecks(b: Budget, s: Scan, c: Control): Status {
    var e := c.envelope;
    if |e.actor| > b.maxActorBytes || |e.nonce| > b.maxNonceBytes then Invalid
    else if !s.healthy then Corrupt
    else if s.next >= b.maxRecords then CapacityExceeded
    else if c.controlId in s.controls then ReplayRejected
    else if NonceKey(e.signerId, e.nonce) in s.nonces && s.nonces[NonceKey(e.signerId, e.nonce)] != c.controlId then ReplayRejected
    else if e.expectedActive != s.active then ActiveMismatch
    else if e.packageId !in s.packages || s.packages[e.packageId] != e.policyId || e.policyId !in s.policies then PackageNotFound
    else if s.policies[e.policyId].revoked then PolicyRevoked
    else if e.action == RollbackAction && !s.policies[e.policyId].everActive then Invalid
    else if e.action != RevokeAction && s.active == e.policyId then ActiveMismatch
    else Ready
  }

  function DecideControl(crypto: RegistryCrypto, b: Budget, s: Scan, c: Control): Decision
    requires s.next <= MAX_U64
  {
    if !VerifyControl(crypto, c) then Refused(SignatureRejected)
    else if ControlChecks(b, s, c) != Ready then Refused(ControlChecks(b, s, c))
    else Write(ControlRecord(s, c))
  }

  function Decide(crypto: RegistryCrypto, b: Budget, s: Scan, op: RegistryOp): Decision
    requires s.next <= MAX_U64
  {
    match op
    case RegisterPolicy(d, p) => DecideRegister(crypto, b, s, d, p)
    case ApplyControl(c) => DecideControl(crypto, b, s, c)
  }

  function Sealed(sha: Hash, r: Record): Record {
    r.(recordSha256 := sha(CanonicalRecord(r)))
  }

  datatype Written = Written(journal: seq<Text>, status: Status, active: Text)

  /** The active policy the operation reports. */
  function ReportedActive(s: Scan, op: RegistryOp): Text {
    match op
    case RegisterPolicy(_, _) => s.active
    case ApplyControl(c) =>
      if c.envelope.action != RevokeAction then c.envelope.policyId
      else if s.active == c.envelope.policyId then []
      else s.active
  }

  /** The active policy a failed append reports: the current one for a registration, none for a control. */
  function FailedActive(s: Scan, op: RegistryOp): Text {
    if op.RegisterPolicy? then s.active else []
  }

  function Append(sha: Hash, journal: seq<Text>, r: Record, appends: bool, active: Text, failed: Text): Written {
    var line := Serialize(Sealed(sha, r));
    if |line| > MAX_LINE then Written(journal, Invalid, failed)
    else if !appends then Written(journal, StorageFailure, failed)
    else Written(journal + [line], Ready, active)
  }

  function Perform(crypto: RegistryCrypto, b: Budget, journal: seq<Text>, op: RegistryOp, appends: bool): Written
    requires |journal| <= MAX_U64
  {
    ScanLength(crypto.sha, b, journal);
    var s := ScanRegistry(crypto.sha, b, journal);
    match Decide(crypto, b, s, op)
    case Refused(status) => Written(journal, status, [])
    case Write(r) => Append(crypto.sha, journal, r, appends, ReportedActive(s, op), FailedActive(s, op))
  }

  lemma LastLineLengthens(sha: Hash, b: Budget, journal: seq<Text>)
    requires journal != []
    ensures var s, s' := ScanRegistry(sha, b, journal[..|journal| - 1]), ScanRegistry(sha, b, journal);
            s'.next <= s.next + 1 && (s'.healthy ==> s.healthy && s'.next == s.next + 1)
  {
  }

  lemma {:induction false} ScanLength(sha: Hash, b: Budget, journal: seq<Text>)
    ensures ScanRegistry(sha, b, journal).next <= |journal|
    ensures ScanRegistry(sha, b, journal).healthy ==> ScanRegistry(sha, b, journal).next == |journal|
  {
    if journal != [] {
      ScanLength(sha, b, journal[..|journal| - 1]);
      LastLineLengthens(sha, b, journal);
    }
  }
}
