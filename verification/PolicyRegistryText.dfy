/** Printing and parsing registry records undo each other, and no valid record is too long for its line. */
module PolicyRegistryText {
  import opened Wrappers
  import opened Text
  import opened HashChain
  import opened PolicyRegistry
  import SessionJournalText
  import PE = PolicyEngine

  // ----- lengths -----

  lemma DecLengths(r: Record)
    ensures |Dec(r.schemaVersion)| <= 20 && |Dec(r.sequence)| <= 20 && |Dec(r.kind.Code())| <= 20
    ensures |Dec(r.signedAt)| <= 20 && |Dec(r.issuedAt)| <= 20
  {
    assert SessionJournalText.Power10(5) == 100_000;
    assert SessionJournalText.Power10(10) == 10_000_000_000;
    assert SessionJournalText.Power10(15) == 1_000_000_000_000_000;
    assert SessionJournalText.Power10(20) == 100_000_000_000_000_000_000;
    SessionJournalText.DecLength(r.schemaVersion, 20);
    SessionJournalText.DecLength(r.sequence, 20);
    SessionJournalText.DecLength(r.kind.Code(), 20);
    SessionJournalText.DecLength(r.signedAt, 20);
    SessionJournalText.DecLength(r.issuedAt, 20);
  }

  lemma {:induction false} JoinSplitLength(a: seq<Text>, b: seq<Text>)
    requires a != [] && b != []
    ensures |JoinTabs(a + b)| == |JoinTabs(a)| + 1 + |JoinTabs(b)|
  {
    if |a| == 1 {
      assert (a + b)[1..] == b;
    } else {
      assert (a + b)[1..] == a[1..] + b;
      JoinSplitLength(a[1..], b);
    }
  }

  lemma {:induction false} JoinAtLeast(fields: seq<Text>)
    requires fields != []
    ensures |JoinTabs(fields)| >= |fields| - 1
  {
    if |fields| > 1 {
      JoinAtLeast(fields[1..]);
    }
  }

  /** Every field but the signature is valid. */
  predicate ValidButSignature(r: Record) {
    ValidFields(r.(signature := ['s']))
  }

  lemma ShortFields(r: Record)
    requires ValidButSignature(r)
    ensures forall i | 0 <= i < 18 && i != 9 :: |Fields(r)[i]| <= 600
    ensures |Fields(r)[9]| == 2 * |r.signature|
  {
    DecLengths(r);
  }

  /** The signature takes two characters a byte; everything else on the line stays within fixed bounds. */
  lemma LineLength(r: Record)
    requires ValidButSignature(r)
    ensures 2 * |r.signature| + 17 <= |Serialize(r)| <= 2 * |r.signature| + 10_219
  {
    var f := Fields(r);
    var front, middle, back := f[..9], [f[9]], f[10..];
    ShortFields(r);
    assert f == front + (middle + back);
    JoinSplitLength(front, middle + back);
    JoinSplitLength(middle, back);
    SessionJournalText.JoinLength(front, 600);
    SessionJournalText.JoinLength(back, 600);
    JoinAtLeast(front);
    JoinAtLeast(back);
  }

  /** The line budget never refuses a valid record. */
  lemma ValidRecordFits(r: Record)
    requires ValidFields(r)
    ensures 0 < |Serialize(r)| <= MAX_LINE
  {
    LineLength(r);
  }

  // ----- clean fields -----

  lemma PrefixedIsClean(t: Text, prefix: Text)
    requires PrefixedSha256(t, prefix) && Clean(prefix)
    ensures Clean(t)
  {
    Sha256IsClean(t[|prefix|..]);
    assert t == prefix + t[|prefix|..];
  }

  lemma HexFieldsAreClean(r: Record)
    ensures Clean(HexEncode(r.signerId)) && Clean(HexEncode(r.algorithm)) && Clean(HexEncode(r.signature))
    ensures Clean(HexEncode(r.nonce)) && Clean(HexEncode(r.actor))
  {
    HexIsClean(r.signerId);
    HexIsClean(r.algorithm);
    HexIsClean(r.signature);
    HexIsClean(r.nonce);
    HexIsClean(r.actor);
  }

  lemma NumbersAreClean(r: Record)
    ensures Clean(Dec(r.schemaVersion)) && Clean(Dec(r.sequence)) && Clean(Dec(r.kind.Code()))
    ensures Clean(Dec(r.signedAt)) && Clean(Dec(r.issuedAt))
  {
    ParseDec(r.schemaVersion, MAX_U32);
    ParseDec(r.sequence, MAX_U64);
    ParseDec(r.kind.Code(), MAX_U32);
    ParseDec(r.signedAt, MAX_U64);
    ParseDec(r.issuedAt, MAX_U64);
  }

  lemma OptionalIsClean(t: Text, prefix: Text)
    requires (t == [] || PrefixedSha256(t, prefix)) && Clean(prefix)
    ensures Clean(OrDash(t))
  {
    if t != [] {
      PrefixedIsClean(t, prefix);
    }
  }

  lemma PrefixesAreClean()
    ensures Clean(PE.POLICY_PREFIX) && Clean(PACKAGE_PREFIX) && Clean(CONTROL_PREFIX)
  {
  }

  lemma IdsAreClean(r: Record)
    requires ValidFields(r)
    ensures Clean(r.policyId) && Clean(r.packageId)
  {
    PrefixesAreClean();
    PrefixedIsClean(r.policyId, PE.POLICY_PREFIX);
    PrefixedIsClean(r.packageId, PACKAGE_PREFIX);
  }

  lemma OptionalIdsAreClean(r: Record)
    requires ValidFields(r)
    ensures Clean(OrDash(r.controlId)) && Clean(OrDash(r.expectedActive))
  {
    PrefixesAreClean();
    OptionalIdsAreShaped(r);
    OptionalIsClean(r.controlId, CONTROL_PREFIX);
    OptionalIsClean(r.expectedActive, PE.POLICY_PREFIX);
  }

  lemma OptionalIdsAreShaped(r: Record)
    requires ValidFields(r)
    ensures r.controlId == [] || PrefixedSha256(r.controlId, CONTROL_PREFIX)
    ensures r.expectedActive == [] || PrefixedSha256(r.expectedActive, PE.POLICY_PREFIX)
  {
  }

  lemma IdentityFieldsAreClean(r: Record)
    requires ValidFields(r)
    ensures Clean(r.policyId) && Clean(r.packageId) && Clean(OrDash(r.controlId)) && Clean(OrDash(r.expectedActive))
    ensures Clean(OrDash(r.reasonSha256)) && Clean(r.previous) && Clean(r.recordSha256)
  {
    IdsAreClean(r);
    OptionalIdsAreClean(r);
    if r.reasonSha256 != [] {
      Sha256IsClean(r.reasonSha256);
    }
    Sha256IsClean(r.previous);
    Sha256IsClean(r.recordSha256);
  }

  /** The numbers and the hexadecimal fields are clean in any case. */
  lemma CleanIdentitiesSuffice(r: Record)
    requires Clean(r.policyId) && Clean(r.packageId) && Clean(OrDash(r.controlId)) && Clean(OrDash(r.expectedActive))
    requires Clean(OrDash(r.reasonSha256)) && Clean(r.previous) && Clean(r.recordSha256)
    ensures AllClean(Fields(r))
  {
    HexFieldsAreClean(r);
    NumbersAreClean(r);
  }

  lemma FieldsAreClean(r: Record)
    requires ValidButSignature(r)
    ensures AllClean(Fields(r))
  {
    IdentityFieldsAreClean(r.(signature := ['s']));
    CleanIdentitiesSuffice(r);
  }

  lemma SerializedIsOneLine(r: Record)
    requires ValidButSignature(r)
    ensures OneLine(Serialize(r)) && Trimmed(Serialize(r)) == Serialize(r)
  {
    FieldsAreClean(r);
    JoinIsOneLine(Fields(r));
  }

  // ----- round trip -----

  lemma HexFieldsRead(f: seq<Text>, x: HexFields)
    requires |f| == 18 && f[6] == HexEncode(x.signer) && f[7] == HexEncode(x.algorithm) && f[9] == HexEncode(x.signature)
    requires f[11] == HexEncode(x.nonce) && f[12] == HexEncode(x.actor)
    ensures DecodeHexFields(f) == Some(x)
  {
    HexRoundTrip(x.signer);
    HexRoundTrip(x.algorithm);
    HexRoundTrip(x.signature);
    HexRoundTrip(x.nonce);
    HexRoundTrip(x.actor);
  }

  lemma HexFieldsDecode(r: Record)
    ensures DecodeHexFields(Fields(r)) == Some(HexFields(r.signerId, r.algorithm, r.signature, r.nonce, r.actor))
  {
    HexFieldsRead(Fields(r), HexFields(r.signerId, r.algorithm, r.signature, r.nonce, r.actor));
  }

  lemma NumbersRead(f: seq<Text>, n: Numbers)
    requires |f| == 18 && f[1] == Dec(n.schema) && f[2] == Dec(n.sequence) && f[3] == Dec(n.kind)
    requires f[8] == Dec(n.signedAt) && f[14] == Dec(n.issuedAt)
    ensures DecodeNumbers(f) == Some(n)
  {
    ParseDec(n.schema, MAX_U32);
    ParseDec(n.sequence, MAX_U64);
    ParseDec(n.kind, MAX_U32);
    ParseDec(n.signedAt, MAX_U64);
    ParseDec(n.issuedAt, MAX_U64);
  }

  lemma NumbersDecode(r: Record)
    ensures DecodeNumbers(Fields(r)) == Some(Numbers(r.schemaVersion, r.sequence, r.kind.Code(), r.signedAt, r.issuedAt))
  {
    NumbersRead(Fields(r), Numbers(r.schemaVersion, r.sequence, r.kind.Code(), r.signedAt, r.issuedAt));
  }

  lemma DashesDecode(r: Record)
    requires ValidButSignature(r)
    ensures FromDash(OrDash(r.controlId)) == r.controlId && FromDash(OrDash(r.expectedActive)) == r.expectedActive
    ensures FromDash(OrDash(r.reasonSha256)) == r.reasonSha256
  {
  }

  lemma ParseFields(r: Record)
    requires ValidButSignature(r)
    ensures ParseRecord(Fields(r)) == Some(r)
  {
    HexFieldsDecode(r);
    NumbersDecode(r);
    DashesDecode(r);
  }

  /** Every valid record is read back from its line exactly. */
  lemma RecordRoundTrip(sha: Hash, r: Record)
    requires ValidRecord(sha, r)
    ensures Deserialize(sha, Serialize(r)) == Some(r)
  {
    ValidRecordFits(r);
    FieldsAreClean(r);
    CleanIsTabFree(Fields(r));
    SplitJoin(Fields(r));
    ParseFields(r);
  }

  /** What is read from any line is a valid record, and it is the record its own line denotes. */
  lemma ReadRecordsAreValid(sha: Hash, line: Text)
    requires Deserialize(sha, line).Some?
    ensures var r := Deserialize(sha, line).value;
            ValidRecord(sha, r) && Deserialize(sha, Serialize(r)) == Some(r)
  {
    RecordRoundTrip(sha, Deserialize(sha, line).value);
  }

  /** A record whose signature is over the reader's ceiling cannot be read back from the line it was written as. */
  lemma OversizedIsUnreadable(sha: Hash, r: Record)
    requires ValidButSignature(r) && |r.signature| > MAX_SIGNATURE
    ensures Deserialize(sha, Trimmed(Serialize(r))).None?
  {
    SerializedIsOneLine(r);
    FieldsAreClean(r);
    CleanIsTabFree(Fields(r));
    SplitJoin(Fields(r));
    ParseFields(r);
  }
}
