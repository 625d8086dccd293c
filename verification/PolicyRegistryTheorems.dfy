/** What the registry guarantees: one linear compare-and-swap history, exact operations, and agreeing queries. */
module PolicyRegistryTheorems {
  import opened Wrappers
  import opened Text
  import opened HashChain
  import opened Readings
  import opened PolicyRegistry
  import opened PolicyRegistryText
  import opened PolicyRegistryLaws
  import PE = PolicyEngine

  // ----- the scan decides lawfulness -----

  /** What each line of the text holds, if it can be read. */
  function ReadAll(sha: Hash, journal: seq<Text>): (lines: seq<Option<Record>>)
    ensures |lines| == |journal|
  {
    if journal == [] then []
    else ReadAll(sha, journal[..|journal| - 1]) + [Deserialize(sha, Trimmed(journal[|journal| - 1]))]
  }

  function ScanReads(b: Budget, lines: seq<Option<Record>>): Scan {
    if lines == [] then FRESH
    else
      var s, last := ScanReads(b, lines[..|lines| - 1]), lines[|lines| - 1];
      if !s.healthy then s
      else if s.next >= b.maxRecords || last.None? then s.(healthy := false)
      else ScanRecord(s, b.maxPolicies, last.value)
  }

  /** Every readable record names a policy. */
  ghost predicate AllNamed(lines: seq<Option<Record>>) {
    forall i | 0 <= i < |lines| && lines[i].Some? :: lines[i].value.policyId != []
  }

  lemma {:induction false} ScanIsOfReads(sha: Hash, b: Budget, journal: seq<Text>)
    ensures ScanRegistry(sha, b, journal) == ScanReads(b, ReadAll(sha, journal))
  {
    if journal != [] {
      ScanIsOfReads(sha, b, journal[..|journal| - 1]);
      assert ReadAll(sha, journal)[..|journal| - 1] == ReadAll(sha, journal[..|journal| - 1]);
    }
  }

  lemma {:induction false} ReadAllNamed(sha: Hash, journal: seq<Text>)
    ensures AllNamed(ReadAll(sha, journal))
  {
    if journal != [] {
      ReadAllNamed(sha, journal[..|journal| - 1]);
      ReadIsNamed(sha, Trimmed(journal[|journal| - 1]));
    }
  }

  lemma ReadIsNamed(sha: Hash, line: Text)
    ensures Deserialize(sha, line).Some? ==> Deserialize(sha, line).value.policyId != []
  {
  }

  lemma FreshDescribes()
    ensures Describes([], FRESH)
  {
  }

  /** One more line: the scan stays healthy exactly when the line may follow. */
  lemma DecidesStep(b: Budget, h: History, s: Scan, last: Option<Record>)
    requires Describes(h, s) && (last.Some? ==> last.value.policyId != [])
    ensures var s' := if s.next >= b.maxRecords || last.None? then s.(healthy := false) else ScanRecord(s, b.maxPolicies, last.value);
            && (s'.healthy <==> |h| < b.maxRecords && last.Some? && Follows(h, b.maxPolicies, last.value))
            && (s'.healthy ==> Describes(h + [last.value], s'))
  {
    if last.Some? {
      ScanStep(h, s, b.maxPolicies, last.value);
    }
  }

  /** The scan finds these lines healthy exactly when they are lawful, and then describes their history. */
  ghost predicate Decided(b: Budget, lines: seq<Option<Record>>) {
    && (ScanReads(b, lines).healthy <==> |lines| <= b.maxRecords && AllRead(lines) && Lawful(Values(lines), b.maxPolicies))
    && (ScanReads(b, lines).healthy ==> Describes(Values(lines), ScanReads(b, lines)))
  }

  lemma {:induction false} ScanDecides(b: Budget, lines: seq<Option<Record>>)
    requires AllNamed(lines)
    ensures Decided(b, lines)
  {
    if lines == [] {
      FreshDescribes();
    } else {
      ScanDecides(b, lines[..|lines| - 1]);
      if ScanReads(b, lines[..|lines| - 1]).healthy {
        HealthyExtends(b, lines);
      } else {
        DamagedExtends(b, lines);
      }
    }
  }

  lemma HealthyExtends(b: Budget, lines: seq<Option<Record>>)
    requires lines != [] && AllNamed(lines)
    requires Decided(b, lines[..|lines| - 1]) && ScanReads(b, lines[..|lines| - 1]).healthy
    ensures Decided(b, lines)
  {
    var front, last := lines[..|lines| - 1], lines[|lines| - 1];
    DecidesStep(b, Values(front), ScanReads(b, front), last);
    if AllRead(lines) {
      ValuesExtend(lines);
      LawfulExtends(Values(front), b.maxPolicies, last.value);
    } else {
      AllReadExtends(lines);
    }
  }

  lemma DamagedExtends(b: Budget, lines: seq<Option<Record>>)
    requires lines != [] && Decided(b, lines[..|lines| - 1]) && !ScanReads(b, lines[..|lines| - 1]).healthy
    ensures Decided(b, lines)
  {
    if AllRead(lines) {
      ValuesExtend(lines);
      LawfulExtends(Values(lines[..|lines| - 1]), b.maxPolicies, lines[|lines| - 1].value);
    }
  }

  ghost predicate SoundRegistry(sha: Hash, b: Budget, journal: seq<Text>) {
    |journal| <= b.maxRecords && AllRead(ReadAll(sha, journal)) && Lawful(Values(ReadAll(sha, journal)), b.maxPolicies)
  }

  /**
   For every registry text whatsoever: the scan reports it healthy exactly when it fits the record ceiling, every line
   is a valid record, and the history is a lawful compare-and-swap sequence; and then every part of the scanned state
   is what the history says.
   */
  lemma ScanDecidesLawfulness(sha: Hash, b: Budget, journal: seq<Text>)
    ensures ScanRegistry(sha, b, journal).healthy <==> SoundRegistry(sha, b, journal)
    ensures SoundRegistry(sha, b, journal) ==> Describes(Values(ReadAll(sha, journal)), ScanRegistry(sha, b, journal))
  {
    ScanIsOfReads(sha, b, journal);
    ReadAllNamed(sha, journal);
    ScanDecides(b, ReadAll(sha, journal));
  }

  // ----- what a lawful history is -----

  /** Which conditions the record at `j` meets against the records before it. */
  ghost predicate Placed(h: History, j: nat)
    requires j < |h|
  {
    IsControl(h[j]) ==>
      && h[j].expectedActive == ActiveAfter(h[..j])
      && (forall i | 0 <= i < j && IsControl(h[i]) ::
            h[i].controlId != h[j].controlId && NonceKey(h[i].signerId, h[i].nonce) != NonceKey(h[j].signerId, h[j].nonce))
  }

  lemma LawfulPlaces(h: History, maxPolicies: nat, j: nat)
    requires Lawful(h, maxPolicies) && j < |h|
    ensures Placed(h, j)
  {
    var front := h[..j];
    assert Follows(front, maxPolicies, h[j]);
    assert forall i | 0 <= i < j :: front[i] == h[i];
  }

  /** Printable signers keep nonce keys apart. */
  lemma NonceKeyIsInjective(s: Text, n: Text, s': Text, n': Text)
    requires ValidText(s, 256) && ValidText(s', 256) && NonceKey(s, n) == NonceKey(s', n')
    ensures s == s' && n == n'
  {
    FirstLine(s, n, s', n');
  }

  /**
   In a lawful history no control identity and no (signer, nonce) pair is accepted twice, and every control expected
   exactly the policy that was active when it came.
   */
  lemma ControlsAreSpentOnce(h: History, maxPolicies: nat, i: nat, j: nat)
    requires Lawful(h, maxPolicies) && i < j < |h| && IsControl(h[i]) && IsControl(h[j])
    requires ValidText(h[i].signerId, 256) && ValidText(h[j].signerId, 256)
    ensures h[i].controlId != h[j].controlId && !(h[i].signerId == h[j].signerId && h[i].nonce == h[j].nonce)
    ensures h[j].expectedActive == ActiveAfter(h[..j])
  {
    LawfulPlaces(h, maxPolicies, j);
  }

  ghost predicate ActiveSound(h: History) {
    var a := ActiveAfter(h);
    a != [] ==> RegisteredAs(h, a, ActivePackageAfter(h)) && !Revoked(h, a) && EverActive(h, a)
  }

  lemma ActiveSoundStep(h: History, maxPolicies: nat, r: Record)
    requires ActiveSound(h) && Follows(h, maxPolicies, r)
    ensures ActiveSound(h + [r])
  {
    var g := h + [r];
    CountsExtend(h, r);
    PoliciesExtend(h, r, ActiveAfter(g));
    RegisteredAsExtends(h, r, ActiveAfter(g), ActivePackageAfter(g));
  }

  lemma {:induction false} ActiveIsSound(h: History, maxPolicies: nat)
    requires Lawful(h, maxPolicies)
    ensures ActiveSound(h)
  {
    if h != [] {
      var front, r := h[..|h| - 1], h[|h| - 1];
      assert h == front + [r];
      LawfulExtends(front, maxPolicies, r);
      ActiveIsSound(front, maxPolicies);
      ActiveSoundStep(front, maxPolicies, r);
    }
  }

  lemma RegisteredAsExtends(h: History, r: Record, id: Text, package: Text)
    ensures RegisteredAs(h, id, package) ==> RegisteredAs(h + [r], id, package)
  {
    if RegisteredAs(h, id, package) {
      var i :| 0 <= i < |h| && h[i].kind == Register && h[i].policyId == id && h[i].packageId == package;
      assert (h + [r])[i] == h[i];
    }
  }

  /** The active policy is empty, or stored under the reported package, unrevoked and previously activated. */
  predicate ActiveIsUsable(s: Scan) {
    s.active != [] ==>
      && s.active in s.policies && !s.policies[s.active].revoked && s.policies[s.active].everActive
      && s.policies[s.active].package.policyId == s.active && s.policies[s.active].package.packageId == s.activePackage
  }

  lemma DescribedIsUsable(h: History, s: Scan)
    requires Describes(h, s) && ActiveSound(h)
    ensures ActiveIsUsable(s) && s.generation == Changes(h)
  {
    if s.active != [] {
      var i :| 0 <= i < |h| && h[i].kind == Register && h[i].policyId == s.active && h[i].packageId == s.activePackage;
      assert s.policies[h[i].policyId].package == PackageOf(h[i]);
    }
  }

  /**
   In every healthy registry: the active policy is empty, or registered under the reported package, unrevoked and
   previously activated; the generation counts exactly the changes of the active policy.
   */
  lemma ActivePolicyIsSound(sha: Hash, b: Budget, journal: seq<Text>)
    requires ScanRegistry(sha, b, journal).healthy
    ensures AllRead(ReadAll(sha, journal))
    ensures ScanRegistry(sha, b, journal).generation == Changes(Values(ReadAll(sha, journal)))
    ensures ActiveIsUsable(ScanRegistry(sha, b, journal))
  {
    ScanDecidesLawfulness(sha, b, journal);
    ActiveIsSound(Values(ReadAll(sha, journal)), b.maxPolicies);
    DescribedIsUsable(Values(ReadAll(sha, journal)), ScanRegistry(sha, b, journal));
  }

  // ----- the operations -----

  function SignatureOf(op: RegistryOp): Text {
    match op
    case RegisterPolicy(_, p) => p.signature
    case ApplyControl(c) => c.signature
  }

  lemma ControlRecordCarries(s: Scan, c: Control)
    requires s.next <= MAX_U64
    ensures var r := ControlRecord(s, c);
            && ActionOf(r.kind) == c.envelope.action && r.kind != Register
            && (c.envelope.schemaVersion == 1 ==> EnvelopeOf(r) == c.envelope)
  {
  }

  /** The record an operation decides to write is valid except perhaps for the length of its signature. */
  lemma DecidedRecordFields(crypto: RegistryCrypto, b: Budget, s: Scan, op: RegistryOp)
    requires s.next <= MAX_U64 && IsSha256(s.head) && Decide(crypto, b, s, op).Write?
    ensures var r := Sealed(crypto.sha, Decide(crypto, b, s, op).record);
            && r.signature == SignatureOf(op) && r.signature != []
            && (ValidRecord(crypto.sha, r) <==> |SignatureOf(op)| <= MAX_SIGNATURE)
  {
    match op
    case RegisterPolicy(d, p) => RegistrationFields(crypto, b, s, d, p);
    case ApplyControl(c) => ControlFields(crypto, b, s, c);
  }

  lemma RegistrationFields(crypto: RegistryCrypto, b: Budget, s: Scan, d: PE.Document, p: Package)
    requires s.next <= MAX_U64 && IsSha256(s.head) && DecideRegister(crypto, b, s, d, p).Write?
    ensures var r := Sealed(crypto.sha, RegistrationRecord(s, p));
            && r.signature == p.signature && r.signature != []
            && (ValidRecord(crypto.sha, r) <==> |p.signature| <= MAX_SIGNATURE)
  {
    var r := RegistrationRecord(s, p);
    assert PackageOf(r) == p;
    assert CanonicalRecord(Sealed(crypto.sha, r)) == CanonicalRecord(r);
  }

  lemma ControlFields(crypto: RegistryCrypto, b: Budget, s: Scan, c: Control)
    requires s.next <= MAX_U64 && IsSha256(s.head) && DecideControl(crypto, b, s, c).Write?
    ensures var r := Sealed(crypto.sha, ControlRecord(s, c));
            && r.signature == c.signature && r.signature != []
            && (ValidRecord(crypto.sha, r) <==> |c.signature| <= MAX_SIGNATURE)
  {
    var r := ControlRecord(s, c);
    ControlRecordCarries(s, c);
    assert CanonicalRecord(Sealed(crypto.sha, r)) == CanonicalRecord(r);
  }

  /** The decided record is one the scan accepts, leaving the active policy the operation reports. */
  lemma DecidedRecordScans(crypto: RegistryCrypto, b: Budget, s: Scan, op: RegistryOp)
    requires s.next <= MAX_U64 && Decide(crypto, b, s, op).Write?
    requires forall k | k in s.nonces :: s.nonces[k] in s.controls
    ensures s.healthy && s.next < b.maxRecords
    ensures var r := Sealed(crypto.sha, Decide(crypto, b, s, op).record);
            ScanRecord(s, b.maxPolicies, r).healthy && ScanRecord(s, b.maxPolicies, r).active == ReportedActive(s, op)
  {
    match op
    case RegisterPolicy(d, p) => RegistrationScans(crypto, b, s, d, p);
    case ApplyControl(c) => ControlRecordScans(crypto, b, s, c);
  }

  lemma RegistrationScans(crypto: RegistryCrypto, b: Budget, s: Scan, d: PE.Document, p: Package)
    requires s.next <= MAX_U64 && DecideRegister(crypto, b, s, d, p).Write?
    ensures s.healthy && s.next < b.maxRecords
    ensures var after := ScanRecord(s, b.maxPolicies, Sealed(crypto.sha, RegistrationRecord(s, p)));
            after.healthy && after.active == s.active
  {
  }

  lemma ControlRecordScans(crypto: RegistryCrypto, b: Budget, s: Scan, c: Control)
    requires s.next <= MAX_U64 && DecideControl(crypto, b, s, c).Write?
    requires forall k | k in s.nonces :: s.nonces[k] in s.controls
    ensures s.healthy && s.next < b.maxRecords
    ensures var after := ScanRecord(s, b.maxPolicies, Sealed(crypto.sha, ControlRecord(s, c)));
            after.healthy && after.active == ReportedActive(s, ApplyControl(c))
  {
  }

  ghost predicate Running(sha: Hash, b: Budget, journal: seq<Text>, s: Scan) {
    && ScanRegistry(sha, b, journal) == s && s.healthy && s.next == |journal| && IsSha256(s.head)
    && (forall k | k in s.nonces :: s.nonces[k] in s.controls)
  }

  lemma HealthyIsRunning(sha: Hash, b: Budget, journal: seq<Text>)
    requires ScanRegistry(sha, b, journal).healthy
    ensures Running(sha, b, journal, ScanRegistry(sha, b, journal))
  {
    ScanDecidesLawfulness(sha, b, journal);
    var lines := ReadAll(sha, journal);
    if journal != [] {
      assert lines[|journal| - 1] == Deserialize(sha, Trimmed(journal[|journal| - 1]));
      ReadHasDigest(sha, Trimmed(journal[|journal| - 1]));
    }
  }

  lemma ReadHasDigest(sha: Hash, line: Text)
    ensures Deserialize(sha, line).Some? ==> IsSha256(Deserialize(sha, line).value.recordSha256)
  {
  }

  /** A line read back scans as its record; one that is not a valid record damages the registry. */
  lemma AppendedLineScans(sha: Hash, b: Budget, journal: seq<Text>, s: Scan, r: Record)
    requires Running(sha, b, journal, s) && s.next < b.maxRecords && r.recordSha256 == sha(CanonicalRecord(r))
    ensures ValidRecord(sha, r) ==>
              ScanRegistry(sha, b, journal + [Serialize(r)]) == ScanRecord(s, b.maxPolicies, r)
  {
    var longer := journal + [Serialize(r)];
    assert longer[..|journal|] == journal && longer[|journal|] == Serialize(r);
    if ValidRecord(sha, r) {
      RecordRoundTrip(sha, r);
      SerializedIsOneLine(r);
    }
  }

  lemma OversizedDamages(sha: Hash, b: Budget, journal: seq<Text>, s: Scan, r: Record)
    requires Running(sha, b, journal, s) && ValidButSignature(r) && |r.signature| > MAX_SIGNATURE
    ensures !ScanRegistry(sha, b, journal + [Serialize(r)]).healthy
  {
    var longer := journal + [Serialize(r)];
    assert longer[..|journal|] == journal && longer[|journal|] == Serialize(r);
    OversizedIsUnreadable(sha, r);
  }

  lemma DecidedButSignature(crypto: RegistryCrypto, b: Budget, s: Scan, op: RegistryOp)
    requires s.next <= MAX_U64 && IsSha256(s.head) && Decide(crypto, b, s, op).Write?
    ensures ValidButSignature(Sealed(crypto.sha, Decide(crypto, b, s, op).record))
  {
  }

  /** What the rescan says after a line went in. */
  ghost predicate Grew(sha: Hash, b: Budget, s: Scan, r: Record, w: Written) {
    var s' := ScanRegistry(sha, b, w.journal);
    if |r.signature| <= MAX_SIGNATURE then s' == ScanRecord(s, b.maxPolicies, r) && s'.healthy && s'.active == w.active
    else !s'.healthy
  }

  lemma AppendRescans(crypto: RegistryCrypto, b: Budget, journal: seq<Text>, s: Scan, op: RegistryOp, appends: bool)
    requires Running(crypto.sha, b, journal, s) && s.next <= MAX_U64 && Decide(crypto, b, s, op).Write?
    ensures var r := Decide(crypto, b, s, op).record;
            var w := Append(crypto.sha, journal, r, appends, ReportedActive(s, op), FailedActive(s, op));
            && (w.status == Ready <==> |Serialize(Sealed(crypto.sha, r))| <= MAX_LINE && appends)
            && (w.status != Ready ==> w.journal == journal)
            && (w.status == Ready ==> Grew(crypto.sha, b, s, Sealed(crypto.sha, r), w))
            && (|r.signature| <= MAX_SIGNATURE ==> |Serialize(Sealed(crypto.sha, r))| <= MAX_LINE)
  {
    var r := Decide(crypto, b, s, op).record;
    StoredRecordScans(crypto, b, journal, s, op);
    AppendGrows(crypto.sha, b, journal, s, r, appends, ReportedActive(s, op), FailedActive(s, op));
    ShortSignatureFits(crypto, b, s, op);
  }

  lemma AppendGrows(sha: Hash, b: Budget, journal: seq<Text>, s: Scan, r: Record, appends: bool, active: Text, failed: Text)
    requires Grew(sha, b, s, Sealed(sha, r), Written(journal + [Serialize(Sealed(sha, r))], Ready, active))
    ensures var w := Append(sha, journal, r, appends, active, failed);
            && (w.status == Ready <==> |Serialize(Sealed(sha, r))| <= MAX_LINE && appends)
            && (w.status != Ready ==> w.journal == journal)
            && (w.status == Ready ==> Grew(sha, b, s, Sealed(sha, r), w))
  {
  }

  lemma ShortSignatureFits(crypto: RegistryCrypto, b: Budget, s: Scan, op: RegistryOp)
    requires s.next <= MAX_U64 && IsSha256(s.head) && Decide(crypto, b, s, op).Write?
    ensures var r := Decide(crypto, b, s, op).record;
            |r.signature| <= MAX_SIGNATURE ==> |Serialize(Sealed(crypto.sha, r))| <= MAX_LINE
  {
    DecidedRecordFields(crypto, b, s, op);
    if |Decide(crypto, b, s, op).record.signature| <= MAX_SIGNATURE {
      ValidRecordFits(Sealed(crypto.sha, Decide(crypto, b, s, op).record));
    }
  }

  /** What the rescan says of the decided record's line, short signature or long. */
  lemma StoredRecordScans(crypto: RegistryCrypto, b: Budget, journal: seq<Text>, s: Scan, op: RegistryOp)
    requires Running(crypto.sha, b, journal, s) && s.next <= MAX_U64 && Decide(crypto, b, s, op).Write?
    ensures var r := Sealed(crypto.sha, Decide(crypto, b, s, op).record);
            Grew(crypto.sha, b, s, r, Written(journal + [Serialize(r)], Ready, ReportedActive(s, op)))
  {
    var r := Sealed(crypto.sha, Decide(crypto, b, s, op).record);
    DecidedRecordFields(crypto, b, s, op);
    DecidedRecordScans(crypto, b, s, op);
    AppendedLineScans(crypto.sha, b, journal, s, r);
    if |r.signature| > MAX_SIGNATURE {
      DecidedButSignature(crypto, b, s, op);
      OversizedDamages(crypto.sha, b, journal, s, r);
    }
  }

  lemma RefusedIsNotReady(crypto: RegistryCrypto, b: Budget, s: Scan, op: RegistryOp)
    requires s.next <= MAX_U64 && Decide(crypto, b, s, op).Refused?
    ensures Decide(crypto, b, s, op).status != Ready
  {
  }

  /** A signature up to this length always fits its line, one from the other length on never does. */
  const SURELY_FITS := 27_658
  const NEVER_FITS := 32_760

  lemma FittingSignatures(crypto: RegistryCrypto, b: Budget, s: Scan, op: RegistryOp)
    requires s.next <= MAX_U64 && IsSha256(s.head) && Decide(crypto, b, s, op).Write?
    ensures var line := Serialize(Sealed(crypto.sha, Decide(crypto, b, s, op).record));
            && (|SignatureOf(op)| <= SURELY_FITS ==> |line| <= MAX_LINE)
            && (|SignatureOf(op)| >= NEVER_FITS ==> |line| > MAX_LINE)
  {
    DecidedRecordFields(crypto, b, s, op);
    DecidedButSignature(crypto, b, s, op);
    LineLength(Sealed(crypto.sha, Decide(crypto, b, s, op).record));
  }

  /**
   On a healthy registry an operation reports Ready exactly when its checks pass, its line is within the ceiling and
   the disk accepts it; any other outcome leaves the text as it was. The registry it leaves is healthy, with the active
   policy the operation reported, if and only if the signature is at most 8192 bytes. A line surely fits with a signature
   of up to 27658 bytes, and never with one of 32760 or more.
   */
  lemma OperationIsExact(crypto: RegistryCrypto, b: Budget, journal: seq<Text>, op: RegistryOp, appends: bool)
    requires ScanRegistry(crypto.sha, b, journal).healthy && |journal| <= MAX_U64
    ensures var s, w := ScanRegistry(crypto.sha, b, journal), Perform(crypto, b, journal, op, appends);
            && s.next <= MAX_U64
            && (w.status != Ready ==> w.journal == journal)
            && (w.status == Ready <==>
                  && Decide(crypto, b, s, op).Write? && appends
                  && |Serialize(Sealed(crypto.sha, Decide(crypto, b, s, op).record))| <= MAX_LINE)
            && (w.status == Ready ==> Grew(crypto.sha, b, s, Sealed(crypto.sha, Decide(crypto, b, s, op).record), w))
            && (Decide(crypto, b, s, op).Write? && appends && |SignatureOf(op)| <= SURELY_FITS ==> w.status == Ready)
            && (|SignatureOf(op)| >= NEVER_FITS ==> w.status != Ready)
  {
    var s := ScanRegistry(crypto.sha, b, journal);
    HealthyIsRunning(crypto.sha, b, journal);
    if Decide(crypto, b, s, op).Write? {
      DecidedRecordFields(crypto, b, s, op);
      FittingSignatures(crypto, b, s, op);
      AppendRescans(crypto, b, journal, s, op, appends);
    } else {
      RefusedIsNotReady(crypto, b, s, op);
    }
  }

  /** An operation whose checks pass with a signature of 8193 to 27658 bytes reports Ready and damages the registry. */
  lemma OversizedIsReadyAndDamages(crypto: RegistryCrypto, b: Budget, journal: seq<Text>, op: RegistryOp)
    requires ScanRegistry(crypto.sha, b, journal).healthy && |journal| <= MAX_U64
    requires ScanRegistry(crypto.sha, b, journal).next <= MAX_U64
    requires Decide(crypto, b, ScanRegistry(crypto.sha, b, journal), op).Write?
    requires MAX_SIGNATURE < |SignatureOf(op)| <= SURELY_FITS
    ensures var w := Perform(crypto, b, journal, op, true);
            w.status == Ready && !ScanRegistry(crypto.sha, b, w.journal).healthy
  {
    OperationIsExact(crypto, b, journal, op, true);
    HealthyIsRunning(crypto.sha, b, journal);
    DecidedRecordFields(crypto, b, ScanRegistry(crypto.sha, b, journal), op);
  }

  // ----- such an operation -----

  const REFUSE_ALL := PE.Rule(1, "r", 0, PE.Refuse, [], [], None, None, None, None, None, PE.Low, PE.Critical, PE.NoAuthority,
                              false, false, false, true, [])

  const SOME_DOCUMENT := PE.Document(1, "p", PE.Refuse, [REFUSE_ALL])

  /** A verifier that knows every signer and accepts every signature. */
  const TRUSTING := Verifier((signer: Text, algorithm: Text) => true,
                             (signer: Text, algorithm: Text, message: Text, signature: Text) => true)

  function SomePackage(sha: Hash, signature: Text): Package {
    var p := Package(1, PE.PolicyId(sha, SOME_DOCUMENT), "s", "a", 1, signature, []);
    p.(packageId := PackageId(sha, p))
  }

  lemma SomeDocumentIsValid()
    ensures PE.ValidDocument(SOME_DOCUMENT)
  {
  }

  lemma SomePackageVerifies(sha: Hash, signature: Text)
    requires signature != []
    ensures VerifyPackage(RegistryCrypto(sha, TRUSTING, TRUSTING), SOME_DOCUMENT, SomePackage(sha, signature))
  {
    SomeDocumentIsValid();
  }

  /** An empty registry with room for one policy takes a package signed in 8193 bytes, and is unreadable afterwards. */
  lemma OversizedHappens(sha: Hash, signature: Text)
    requires |signature| == 8193
    ensures var crypto, b := RegistryCrypto(sha, TRUSTING, TRUSTING), Budget(1, 1, 1, 1);
            var w := Perform(crypto, b, [], RegisterPolicy(SOME_DOCUMENT, SomePackage(sha, signature)), true);
            ScanRegistry(sha, b, []).healthy && w.status == Ready && !ScanRegistry(sha, b, w.journal).healthy
  {
    SomePackageVerifies(sha, signature);
    OversizedIsReadyAndDamages(RegistryCrypto(sha, TRUSTING, TRUSTING), Budget(1, 1, 1, 1), [],
                               RegisterPolicy(SOME_DOCUMENT, SomePackage(sha, signature)));
  }
}
