/** Printing and parsing journal records undo each other, and no valid record is too long for its line. */
module SessionJournalText {
  import opened Wrappers
  import opened Text
  import opened HashChain
  import opened SessionJournal

  // ----- lengths -----

  function Power10(k: nat): nat {
    if k == 0 then 1 else 10 * Power10(k - 1)
  }

  lemma {:induction false} DecLength(n: nat, k: nat)
    requires k > 0 && n < Power10(k)
    ensures |Dec(n)| <= k
    decreases k
  {
    if n >= 10 {
      assert k > 1;
      DecLength(n / 10, k - 1);
    }
  }

  lemma DecLengths(r: Record)
    ensures |Dec(r.schemaVersion)| <= 10 && |Dec(r.sequence)| <= 20 && |Dec(r.kind.Code())| <= 10
  {
    assert Power10(5) == 100_000;
    assert Power10(10) == 10_000_000_000;
    assert Power10(15) == 1_000_000_000_000_000;
    assert Power10(20) == 100_000_000_000_000_000_000;
    DecLength(r.schemaVersion, 10);
    DecLength(r.sequence, 20);
    DecLength(r.kind.Code(), 10);
  }

  lemma {:induction false} JoinLength(fields: seq<Text>, bound: nat)
    requires fields != [] && forall i | 0 <= i < |fields| :: |fields[i]| <= bound
    ensures |JoinTabs(fields)| <= |fields| * (bound + 1)
  {
    if |fields| > 1 {
      JoinLength(fields[1..], bound);
      assert |fields| * (bound + 1) == (|fields| - 1) * (bound + 1) + (bound + 1);
    }
  }

  lemma FieldLengths(r: Record)
    requires ValidCommonFields(r) && ValidKindFields(r)
    ensures forall i | 0 <= i < 13 :: |Fields(r)[i]| <= 400
  {
    DecLengths(r);
    assert |r.terminalStatus| <= 128;
    assert |r.dojoEpisodeId| <= 128;
    assert |r.sessionId| <= 128;
  }

  /** The line budget never refuses a valid record. */
  lemma ValidRecordFits(r: Record)
    requires ValidCommonFields(r) && ValidKindFields(r)
    ensures 0 < |Serialize(r)| <= MAX_LINE
  {
    FieldLengths(r);
    JoinLength(Fields(r), 400);
  }

  // ----- the line is one line -----

  lemma FieldsAreClean(r: Record)
    requires ValidCommonFields(r) && ValidKindFields(r)
    ensures AllClean(Fields(r))
  {
    ParseDec(r.schemaVersion, MAX_U32);
    ParseDec(r.sequence, MAX_U64);
    ParseDec(r.kind.Code(), MAX_U32);
    HexIsClean(r.sessionId);
    HexIsClean(r.correlationId);
    HexIsClean(r.dojoEpisodeId);
    HexIsClean(r.terminalStatus);
    HexIsClean(r.recordedAt);
    Sha256IsClean(r.requestSha256);
    Sha256IsClean(r.previous);
    Sha256IsClean(r.recordSha256);
    assert Clean(AuditField(r.auditSha256)) by {
      if r.auditSha256 != [] {
        Sha256IsClean(r.auditSha256);
      }
    }
  }

  lemma SerializedIsOneLine(r: Record)
    requires ValidCommonFields(r) && ValidKindFields(r)
    ensures OneLine(Serialize(r)) && Trimmed(Serialize(r)) == Serialize(r)
  {
    FieldsAreClean(r);
    JoinIsOneLine(Fields(r));
  }

  // ----- round trip -----

  lemma HexFieldsDecode(r: Record)
    ensures DecodeHexFields(Fields(r)) == Some(Decoded(r.sessionId, r.correlationId, r.dojoEpisodeId, r.terminalStatus, r.recordedAt))
  {
    HexRoundTrip(r.sessionId);
    HexRoundTrip(r.correlationId);
    HexRoundTrip(r.dojoEpisodeId);
    HexRoundTrip(r.terminalStatus);
    HexRoundTrip(r.recordedAt);
  }

  lemma ParseFields(sha: Hash, r: Record)
    requires ValidRecord(sha, r)
    ensures ParseRecord(Fields(r)) == Some(r)
  {
    HexFieldsDecode(r);
    NumbersParse(r);
    assert r.auditSha256 != "-";
  }

  lemma NumbersParse(r: Record)
    ensures ParseUnsigned(Dec(r.schemaVersion), MAX_U32) == Some(r.schemaVersion)
    ensures ParseUnsigned(Dec(r.sequence), MAX_U64) == Some(r.sequence)
    ensures ParseUnsigned(Dec(r.kind.Code()), MAX_U32) == Some(r.kind.Code()) && KindOf(r.kind.Code()) == r.kind
  {
    ParseDec(r.schemaVersion, MAX_U32);
    ParseDec(r.sequence, MAX_U64);
    ParseDec(r.kind.Code(), MAX_U32);
  }

  /** Every valid record is read back from its line exactly. */
  lemma RecordRoundTrip(sha: Hash, r: Record)
    requires ValidRecord(sha, r)
    ensures Deserialize(sha, Serialize(r)) == Some(r)
  {
    ValidRecordFits(r);
    FieldsAreClean(r);
    CleanIsTabFree(Fields(r));
    SplitJoin(Fields(r));
    ParseFields(sha, r);
  }

  /** What is read from any line at all is a valid record, and it is the record its own line denotes. */
  lemma ReadRecordsAreValid(sha: Hash, line: Text)
    requires Deserialize(sha, line).Some?
    ensures var r := Deserialize(sha, line).value;
            ValidRecord(sha, r) && Deserialize(sha, Serialize(r)) == Some(r)
  {
    RecordRoundTrip(sha, Deserialize(sha, line).value);
  }
}
