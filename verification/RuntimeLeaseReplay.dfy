/** Replay of the runtime-lease journal, and exactly when it rebuilds the live ledger. */
module RuntimeLeaseReplay {
  import opened Wrappers
  import opened Text
  import opened HashChain
  import opened SessionKey
  import opened RuntimeLease
  import opened SessionReplay

  // ----- parsing -----

  datatype SixTexts = SixTexts(a: Text, b: Text, c: Text, d: Text, e: Text, f: Text)

  function HexSix(b: seq<Text>): Option<SixTexts>
    requires |b| >= 7
  {
    match (HexDecode(b[1]), HexDecode(b[2]), HexDecode(b[3]), HexDecode(b[4]), HexDecode(b[5]), HexDecode(b[6]))
    case (Some(p), Some(q), Some(r), Some(s), Some(t), Some(u)) => Some(SixTexts(p, q, r, s, t, u))
    case _ => None
  }

  function ParseLeased(b: seq<Text>): Option<LeaseEvent>
    requires |b| == 10
  {
    match (HexSix(b), Num(b[8], MAX_U64), Num(b[9], MAX_U32))
    case (Some(x), Some(expires), Some(uses)) =>
      if expires <= MAX_U64 && uses <= MAX_U32
      then Some(Leased(x.a, LeaseRegistration(x.b, x.c, x.d, x.e, x.f, b[7], expires, uses)))
      else None
    case _ => None
  }

  function ParseLeaseUse(b: seq<Text>): Option<LeaseEvent>
    requires |b| == 4
  {
    match (HexDecode(b[1]), Num(b[2], MAX_U64), Num(b[3], MAX_U64))
    case (Some(id), Some(use), Some(at)) => if use <= MAX_U64 && at <= MAX_U64 then Some(LeaseUsed(id, use, at)) else None
    case _ => None
  }

  function ParseLeaseRevocation(b: seq<Text>): Option<LeaseEvent>
    requires |b| == 3
  {
    match (HexDecode(b[1]), Num(b[2], MAX_U64))
    case (Some(id), Some(at)) => if at <= MAX_U64 then Some(LeaseWasRevoked(id, at)) else None
    case _ => None
  }

  function ParseLease(b: seq<Text>): Option<LeaseEvent> {
    if b == [] then None
    else if b[0] == "L" && |b| == 10 then ParseLeased(b)
    else if b[0] == "U" && |b| == 4 then ParseLeaseUse(b)
    else if b[0] == "X" && |b| == 3 then ParseLeaseRevocation(b)
    else None
  }

  predicate AdmitLease(l: LeaseLedger, e: LeaseEvent) {
    match e
    case Leased(id, g) =>
      && PrefixedSha256(id, LEASE_PREFIX) && IsSha256(g.fingerprint) && IsSha256(g.bindingSha256)
      && g.expiresAt != 0 && g.maxUses != 0 && id !in l.registrations
    case LeaseUsed(id, use, at) => id in l.registrations && use != 0 && at != 0 && use == l.UseCount(id) + 1
    case LeaseWasRevoked(id, at) => id in l.registrations && at != 0 && id !in l.revoked
  }

  function ReadLeaseEvent(sha: Hash, l: LeaseLedger, line: Text): Option<(LeaseEvent, Text)> {
    match ReadLine(sha, l.sequence, l.head, 6, line)
    case None => None
    case Some(checked) =>
      match ParseLease(checked.body)
      case None => None
      case Some(e) => if AdmitLease(l, e) then Some((e, checked.hash)) else None
  }

  function ReplayLeaseLine(sha: Hash, l: LeaseLedger, line: Text): LeaseLedger {
    if line == [] then l
    else
      match ReadLeaseEvent(sha, l, line)
      case None => l.(healthy := false)
      case Some(read) => ApplyLease(l, read.0).(sequence := l.sequence + 1, head := read.1)
  }

  function ReplayLeases(sha: Hash, journal: seq<Text>): LeaseLedger {
    if journal == [] then EMPTY_LEASES
    else
      var l := ReplayLeases(sha, journal[..|journal| - 1]);
      if !l.healthy then l else ReplayLeaseLine(sha, l, journal[|journal| - 1])
  }

  // ----- runs -----

  datatype LeaseOp =
    | RegisterOp(lease: Lease, bundle: Bundle, now: u64)
    | ConsumeOp(id: Text, now: u64)
    | RevokeOp(id: Text, at: u64)

  datatype LeaseCall = LeaseCall(op: LeaseOp, appends: bool)

  function JudgeLease(sha: Hash, kv: KeyVerifier, l: LeaseLedger, op: LeaseOp): LeaseVerdict {
    match op
    case RegisterOp(lease, b, now) => JudgeRegister(sha, kv, l, lease, b, now)
    case ConsumeOp(id, now) => JudgeLeaseUse(l, id, now)
    case RevokeOp(id, at) => JudgeLeaseRevoke(l, id, at)
  }

  function RunLeases(sha: Hash, kv: KeyVerifier, calls: seq<LeaseCall>): LeaseStore {
    if calls == [] then LeaseStore(EMPTY_LEASES, [])
    else
      var st, last := RunLeases(sha, kv, calls[..|calls| - 1]), calls[|calls| - 1];
      SettleLease(sha, st, JudgeLease(sha, kv, st.ledger, last.op), last.appends).store
  }

  predicate CommitsLease(sha: Hash, kv: KeyVerifier, st: LeaseStore, call: LeaseCall) {
    JudgeLease(sha, kv, st.ledger, call.op).AcceptLease? && st.ledger.healthy && call.appends
  }

  /** No committed call of the run consumed a lease at clock time zero. */
  predicate NoUseAtZero(sha: Hash, kv: KeyVerifier, calls: seq<LeaseCall>) {
    calls == [] ||
    (var front, last := calls[..|calls| - 1], calls[|calls| - 1];
     NoUseAtZero(sha, kv, front)
     && (CommitsLease(sha, kv, RunLeases(sha, kv, front), last) && last.op.ConsumeOp? ==> last.op.now != 0))
  }

  // ----- printing and parsing -----

  lemma HexSixReads(b: seq<Text>, x: SixTexts)
    requires |b| >= 7 && b[1] == HexEncode(x.a) && b[2] == HexEncode(x.b) && b[3] == HexEncode(x.c)
    requires b[4] == HexEncode(x.d) && b[5] == HexEncode(x.e) && b[6] == HexEncode(x.f)
    ensures HexSix(b) == Some(x) && forall i | 1 <= i < 7 :: '\t' !in b[i]
  {
    HexedField(b[1], x.a); HexedField(b[2], x.b); HexedField(b[3], x.c);
    HexedField(b[4], x.d); HexedField(b[5], x.e); HexedField(b[6], x.f);
  }

  lemma HexedField(field: Text, t: Text)
    requires field == HexEncode(t)
    ensures HexDecode(field) == Some(t) && '\t' !in field
  {
    Hexed(t);
  }

  lemma ParsePrintLeased(e: LeaseEvent)
    requires e.Leased? && IsSha256(e.registration.bindingSha256)
    ensures ParseLeased(PrintLease(e)) == Some(e) && TabFree(PrintLease(e))
  {
    var b, g := PrintLease(e), e.registration;
    HexSixReads(b, SixTexts(e.id, g.sessionReceiptId, g.certificateId, g.signerId, g.keyId, g.fingerprint));
    Decimal(g.expiresAt, MAX_U64);
    Decimal(g.maxUses, MAX_U32);
    LeasedIsTabFree(b);
  }

  lemma LeasedIsTabFree(b: seq<Text>)
    requires |b| == 10 && b[0] == "L" && IsSha256(b[7]) && '\t' !in b[8] && '\t' !in b[9]
    requires forall i | 1 <= i < 7 :: '\t' !in b[i]
    ensures TabFree(b)
  {
  }

  lemma ParsePrintLease(e: LeaseEvent)
    requires e.Leased? ==> IsSha256(e.registration.bindingSha256)
    ensures ParseLease(PrintLease(e)) == Some(e)
    ensures TabFree(PrintLease(e)) && |PrintLease(e)| >= 3
  {
    match e
    case Leased(_, _) => ParsePrintLeased(e);
    case LeaseUsed(id, use, at) => Hexed(id); Decimal(use, MAX_U64); Decimal(at, MAX_U64);
    case LeaseWasRevoked(id, at) => Hexed(id); Decimal(at, MAX_U64);
  }

  // ----- live state and replayed state -----

  /** An accepted call meets the replay contract exactly when it is not a use at time zero. */
  lemma AcceptedLeaseIsAdmitted(sha: Hash, kv: KeyVerifier, l: LeaseLedger, op: LeaseOp)
    requires JudgeLease(sha, kv, l, op).AcceptLease?
    ensures var e := JudgeLease(sha, kv, l, op).event;
            && (AdmitLease(l, e) <==> (op.ConsumeOp? ==> op.now != 0))
            && (e.Leased? ==> IsSha256(e.registration.bindingSha256))
  {
  }

  ghost predicate LeaseTracks(sha: Hash, st: LeaseStore, exact: bool) {
    && (st.ledger.head == [] || IsSha256(st.ledger.head)) && st.ledger.healthy && st.ledger.sequence == |st.journal|
    && (exact ==> ReplayLeases(sha, st.journal) == st.ledger)
    && (!exact ==> !ReplayLeases(sha, st.journal).healthy)
  }

  lemma CommittedLeaseTracks(sha: Hash, st: LeaseStore, e: LeaseEvent, exact: bool)
    requires LeaseTracks(sha, st, exact) && |st.journal| < MAX_U64
    requires e.Leased? ==> IsSha256(e.registration.bindingSha256)
    ensures LeaseTracks(sha, CommitLease(sha, st, e), exact && AdmitLease(st.ledger, e))
  {
    var l, st' := st.ledger, CommitLease(sha, st, e);
    ParsePrintLease(e);
    ReadWritten(sha, l.sequence, l.head, PrintLease(e), 6);
    assert st'.journal[..|st.journal|] == st.journal;
    assert Line(sha, l.sequence, l.head, PrintLease(e)) != [];
  }

  /**
   Replay rebuilds the live lease ledger after a run if and only if no committed use was made at clock time zero;
   otherwise replay reports the journal damaged, although every live call succeeded.
   */
  lemma LeaseReplayIsExact(sha: Hash, kv: KeyVerifier, calls: seq<LeaseCall>)
    requires |calls| <= MAX_U64
    ensures var st := RunLeases(sha, kv, calls);
            && st.ledger.healthy
            && (ReplayLeases(sha, st.journal) == st.ledger <==> NoUseAtZero(sha, kv, calls))
            && (!NoUseAtZero(sha, kv, calls) ==> !ReplayLeases(sha, st.journal).healthy)
  {
    RunTracksLeases(sha, kv, calls);
  }

  lemma {:induction false} RunTracksLeases(sha: Hash, kv: KeyVerifier, calls: seq<LeaseCall>)
    requires |calls| <= MAX_U64
    ensures LeaseTracks(sha, RunLeases(sha, kv, calls), NoUseAtZero(sha, kv, calls))
    ensures |RunLeases(sha, kv, calls).journal| <= |calls|
  {
    if calls != [] {
      var front, last := calls[..|calls| - 1], calls[|calls| - 1];
      RunTracksLeases(sha, kv, front);
      var st := RunLeases(sha, kv, front);
      if CommitsLease(sha, kv, st, last) {
        AcceptedLeaseIsAdmitted(sha, kv, st.ledger, last.op);
        CommittedLeaseTracks(sha, st, JudgeLease(sha, kv, st.ledger, last.op).event, NoUseAtZero(sha, kv, front));
      }
    }
  }
}
