/**
 The write-ahead transaction journal: BEGIN records, terminal records and recovery records as
 text lines, the scan that decides whether a journal is sound and what it means, and the four
 operations that append to it.
 */
module SessionJournal {
  import opened Wrappers
  import opened Text
  import opened HashChain
  import AuthorityReceipt

  datatype Kind = Begin | Commit | Abort | RecoveryDismiss | RecoveryRetry {
    function Code(): u32 {
      match this
      case Begin => 0
      case Commit => 1
      case Abort => 2
      case RecoveryDismiss => 3
      case RecoveryRetry => 4
    }
  }

  datatype Record = Record(
    schemaVersion: u32,
    sequence: u64,
    kind: Kind,
    sessionId: Text, correlationId: Text, requestSha256: Text,
    auditSha256: Text, dojoEpisodeId: Text, terminalStatus: Text, recordedAt: Text,
    previous: Text, recordSha256: Text)

  const SESSION_ID_PREFIX: Text := "guff:session:sha256:"
  const DOJO_PREFIX: Text := "guff:dojo:sha256:"
  const DISMISSED: Text := "RECOVERY_DISMISSED"
  const RETRY_PREFIX: Text := "RECOVERY_RETRY_AS_NEW_SESSION:"
  const MAX_LINE := 16384

  predicate CanonicalSessionId(id: Text) {
    PrefixedSha256(id, SESSION_ID_PREFIX)
  }

  predicate IsCorrelationByte(c: Byte) {
    IsTokenByte(c) && c != '/'
  }

  predicate ValidCorrelation(t: Text) {
    0 < |t| <= 96 && forall i | 0 <= i < |t| :: IsCorrelationByte(t[i])
  }

  /** The child correlation a retry status reserves. */
  function ChildOf(status: Text): Option<Text> {
    if RETRY_PREFIX <= status && ValidCorrelation(status[|RETRY_PREFIX|..]) then Some(status[|RETRY_PREFIX|..]) else None
  }

  // ----- records as text -----

  function CanonicalRecord(r: Record): Text {
    AuthorityReceipt.JoinLines([Dec(r.schemaVersion), Dec(r.sequence), Dec(r.kind.Code()), r.sessionId, r.correlationId, r.requestSha256,
               r.auditSha256, r.dojoEpisodeId, r.terminalStatus, r.recordedAt, r.previous])
  }

  function AuditField(audit: Text): Text {
    if audit == [] then "-" else audit
  }

  function Fields(r: Record): seq<Text> {
    ["J", Dec(r.schemaVersion), Dec(r.sequence), Dec(r.kind.Code()), HexEncode(r.sessionId), HexEncode(r.correlationId),
     r.requestSha256, AuditField(r.auditSha256), HexEncode(r.dojoEpisodeId), HexEncode(r.terminalStatus),
     HexEncode(r.recordedAt), r.previous, r.recordSha256]
  }

  function Serialize(r: Record): Text {
    JoinTabs(Fields(r))
  }

  predicate ValidCommonFields(r: Record) {
    && CanonicalSessionId(r.sessionId) && ValidCorrelation(r.correlationId) && IsSha256(r.requestSha256)
    && IsSha256(r.previous) && IsSha256(r.recordSha256)
    && 0 < |r.recordedAt| <= 128
  }

  predicate ValidKindFields(r: Record) {
    match r.kind
    case Begin => r.auditSha256 == [] && r.dojoEpisodeId == [] && r.terminalStatus == []
    case RecoveryDismiss => IsSha256(r.auditSha256) && r.dojoEpisodeId == [] && r.terminalStatus == DISMISSED
    case RecoveryRetry =>
      && IsSha256(r.auditSha256) && r.dojoEpisodeId == []
      && ChildOf(r.terminalStatus).Some? && ChildOf(r.terminalStatus).value != r.correlationId
    case _ =>
      && IsSha256(r.auditSha256) && 0 < |r.terminalStatus| <= 128
      && (r.dojoEpisodeId == [] || PrefixedSha256(r.dojoEpisodeId, DOJO_PREFIX))
  }

  predicate ValidSchema(version: nat, kind: nat) {
    (version == 1 && kind <= 2) || (version == 2 && kind <= 4)
  }

  /** Everything the reader checks of one record on its own. */
  predicate ValidRecord(sha: Hash, r: Record) {
    && ValidSchema(r.schemaVersion, r.kind.Code())
    && ValidCommonFields(r) && ValidKindFields(r)
    && r.recordSha256 == sha(CanonicalRecord(r))
  }

  function KindOf(code: nat): Kind
    requires code <= 4
  {
    match code
    case 0 => Begin
    case 1 => Commit
    case 2 => Abort
    case 3 => RecoveryDismiss
    case _ => RecoveryRetry
  }

  datatype Decoded = Decoded(session: Text, correlation: Text, dojo: Text, status: Text, recordedAt: Text)

  function DecodeHexFields(f: seq<Text>): Option<Decoded>
    requires |f| == 13
  {
    match (HexDecode(f[4]), HexDecode(f[5]), HexDecode(f[8]), HexDecode(f[9]), HexDecode(f[10]))
    case (Some(s), Some(c), Some(d), Some(t), Some(w)) => Some(Decoded(s, c, d, t, w))
    case _ => None
  }

  function ParseRecord(f: seq<Text>): Option<Record>
    requires |f| == 13
  {
    match (ParseUnsigned(f[1], MAX_U32), ParseUnsigned(f[2], MAX_U64), ParseUnsigned(f[3], MAX_U32))
    case (Some(version), Some(sequence), Some(kind)) =>
      if !(version <= MAX_U32 && sequence <= MAX_U64 && ValidSchema(version, kind)) then None
      else
        (match DecodeHexFields(f)
         case None => None
         case Some(d) =>
           Some(Record(version, sequence, KindOf(kind), d.session, d.correlation, f[6], if f[7] == "-" then [] else f[7],
                       d.dojo, d.status, d.recordedAt, f[11], f[12])))
    case _ => None
  }

  function Deserialize(sha: Hash, line: Text): Option<Record> {
    if line == [] || |line| > MAX_LINE then None
    else
      var f := SplitTabs(line);
      if |f| != 13 || f[0] != "J" then None
      else
        match ParseRecord(f)
        case None => None
        case Some(r) => if ValidRecord(sha, r) then Some(r) else None
  }

  // ----- scanning -----

  datatype Lineage = Lineage(
    parentSession: Text, parentCorrelation: Text, authorization: Text, childCorrelation: Text, childSession: Text, childStarted: bool)

  datatype Scan = Scan(
    healthy: bool,
    next: nat,
    head: Text,
    open: map<Text, Record>,
    seen: set<Text>,
    used: set<Text>,
    lineages: seq<Lineage>)

  const FRESH := Scan(true, 0, GENESIS, map[], {}, {}, [])

  /** The first waiting lineage with this child correlation starts. */
  function MarkStarted(lineages: seq<Lineage>, correlation: Text, session: Text): seq<Lineage> {
    if lineages == [] then []
    else if !lineages[0].childStarted && lineages[0].childCorrelation == correlation
    then [lineages[0].(childStarted := true, childSession := session)] + lineages[1..]
    else [lineages[0]] + MarkStarted(lineages[1..], correlation, session)
  }

  predicate Matches(open: map<Text, Record>, r: Record) {
    && r.sessionId in open
    && open[r.sessionId].correlationId == r.correlationId && open[r.sessionId].requestSha256 == r.requestSha256
  }

  predicate Reserved(lineages: seq<Lineage>, correlation: Text) {
    exists k | 0 <= k < |lineages| :: lineages[k].childCorrelation == correlation
  }

  function ScanBegin(s: Scan, r: Record): Scan {
    if r.sessionId in s.seen then s.(healthy := false)
    else
      s.(seen := s.seen + {r.sessionId}, used := s.used + {r.correlationId}, open := s.open[r.sessionId := r],
         lineages := MarkStarted(s.lineages, r.correlationId, r.sessionId))
  }

  function ScanTerminal(s: Scan, r: Record): Scan {
    if !Matches(s.open, r) then s.(healthy := false) else s.(open := s.open - {r.sessionId})
  }

  function ScanRetry(s: Scan, r: Record): Scan {
    match ChildOf(r.terminalStatus)
    case None => s.(healthy := false)
    case Some(child) =>
      if !Matches(s.open, r) || child in s.used || Reserved(s.lineages, child) then s.(healthy := false)
      else
        s.(open := s.open - {r.sessionId},
           lineages := s.lineages + [Lineage(r.sessionId, r.correlationId, r.auditSha256, child, [], false)])
  }

  /** The state after one more record, or the same state marked damaged. */
  function ScanRecord(s: Scan, r: Record): Scan {
    if r.sequence != s.next || r.previous != s.head then s.(healthy := false)
    else
      var s' := match r.kind
                case Begin => ScanBegin(s, r)
                case RecoveryRetry => ScanRetry(s, r)
                case _ => ScanTerminal(s, r);
      if !s'.healthy then s.(healthy := false) else s'.(next := s.next + 1, head := r.recordSha256)
  }

  function ScanLine(sha: Hash, s: Scan, line: Text): Scan {
    match Deserialize(sha, Trimmed(line))
    case None => s.(healthy := false)
    case Some(r) => ScanRecord(s, r)
  }

  function ScanJournal(sha: Hash, journal: seq<Text>): Scan {
    if journal == [] then FRESH
    else
      var s := ScanJournal(sha, journal[..|journal| - 1]);
      if !s.healthy then s else ScanLine(sha, s, journal[|journal| - 1])
  }

  // ----- operations -----

  datatype Status = Ok | DuplicateSession | SessionNotOpen | RecoveryNotAuthorized | Invalid | IntegrityError | StorageError {
    function Name(): Text {
      match this
      case Ok => "OK"
      case DuplicateSession => "DUPLICATE_SESSION"
      case SessionNotOpen => "SESSION_NOT_OPEN"
      case RecoveryNotAuthorized => "RECOVERY_NOT_AUTHORIZED"
      case Invalid => "INVALID"
      case IntegrityError => "INTEGRITY_ERROR"
      case StorageError => "STORAGE_ERROR"
    }
  }

  datatype BeginRequest = BeginRequest(sessionId: Text, correlationId: Text, requestSha256: Text, recordedAt: Text)

  datatype Terminal = Terminal(
    kind: Kind, sessionId: Text, correlationId: Text, requestSha256: Text, auditSha256: Text, dojoEpisodeId: Text,
    terminalStatus: Text, recordedAt: Text)

  datatype Recovery = Recovery(
    kind: Kind, sessionId: Text, correlationId: Text, requestSha256: Text, beginRecordSha256: Text, authorizationSha256: Text,
    childCorrelationId: Text, recordedAt: Text)

  datatype JournalOp =
    | BeginSession(begin: BeginRequest)
    | BeginRecoveryChild(begin: BeginRequest, parent: Text, authorization: Text)
    | Finish(terminal: Terminal)
    | Recover(recovery: Recovery)

  predicate ValidBegin(b: BeginRequest) {
    CanonicalSessionId(b.sessionId) && ValidCorrelation(b.correlationId) && IsSha256(b.requestSha256) && 0 < |b.recordedAt| <= 128
  }

  predicate ValidTerminal(t: Terminal) {
    && (t.kind == Commit || t.kind == Abort)
    && CanonicalSessionId(t.sessionId) && ValidCorrelation(t.correlationId) && IsSha256(t.requestSha256) && IsSha256(t.auditSha256)
    && (t.dojoEpisodeId == [] || PrefixedSha256(t.dojoEpisodeId, DOJO_PREFIX))
    && 0 < |t.terminalStatus| <= 128 && 0 < |t.recordedAt| <= 128
  }

  predicate ValidRecovery(v: Recovery) {
    && (v.kind == RecoveryDismiss || v.kind == RecoveryRetry)
    && CanonicalSessionId(v.sessionId) && ValidCorrelation(v.correlationId) && IsSha256(v.requestSha256)
    && IsSha256(v.beginRecordSha256) && IsSha256(v.authorizationSha256) && 0 < |v.recordedAt| <= 128
    && (if v.kind == RecoveryDismiss then v.childCorrelationId == []
        else ValidCorrelation(v.childCorrelationId) && v.childCorrelationId != v.correlationId)
  }

  /** A lineage reserved this correlation and its child has not begun. */
  predicate Awaits(l: Lineage, correlation: Text) {
    !l.childStarted && l.childCorrelation == correlation
  }

  predicate AwaitedByAny(lineages: seq<Lineage>, correlation: Text) {
    exists k | 0 <= k < |lineages| :: Awaits(lineages[k], correlation)
  }

  predicate AuthorizedChild(lineages: seq<Lineage>, b: BeginRequest, parent: Text, authorization: Text) {
    exists k | 0 <= k < |lineages| ::
      Awaits(lineages[k], b.correlationId) && lineages[k].parentSession == parent && lineages[k].authorization == authorization
  }

  /** A refusal, or the record to append, not yet sealed with its hash. */
  datatype Decision = Refused(status: Status) | Write(record: Record)

  function BeginRecord(s: Scan, b: BeginRequest): Record
    requires s.next <= MAX_U64
  {
    Record(2, s.next, Begin, b.sessionId, b.correlationId, b.requestSha256, [], [], [], b.recordedAt, s.head, [])
  }

  function DecideBegin(s: Scan, b: BeginRequest): Decision
    requires s.next <= MAX_U64
  {
    if !ValidBegin(b) then Refused(Invalid)
    else if !s.healthy then Refused(IntegrityError)
    else if b.sessionId in s.seen then Refused(DuplicateSession)
    else if AwaitedByAny(s.lineages, b.correlationId) then Refused(RecoveryNotAuthorized)
    else Write(BeginRecord(s, b))
  }

  function DecideBeginChild(s: Scan, b: BeginRequest, parent: Text, authorization: Text): Decision
    requires s.next <= MAX_U64
  {
    if !(ValidBegin(b) && CanonicalSessionId(parent) && IsSha256(authorization)) then Refused(Invalid)
    else if !s.healthy then Refused(IntegrityError)
    else if b.sessionId in s.seen then Refused(DuplicateSession)
    else if !AuthorizedChild(s.lineages, b, parent, authorization) then Refused(RecoveryNotAuthorized)
    else Write(BeginRecord(s, b))
  }

  function DecideFinish(s: Scan, t: Terminal): Decision
    requires s.next <= MAX_U64
  {
    if !ValidTerminal(t) then Refused(Invalid)
    else if !s.healthy then Refused(IntegrityError)
    else if t.sessionId !in s.open then Refused(SessionNotOpen)
    else if s.open[t.sessionId].correlationId != t.correlationId || s.open[t.sessionId].requestSha256 != t.requestSha256
    then Refused(Invalid)
    else Write(Record(2, s.next, t.kind, t.sessionId, t.correlationId, t.requestSha256, t.auditSha256, t.dojoEpisodeId,
                      t.terminalStatus, t.recordedAt, s.head, []))
  }

  function RecoveryStatus(v: Recovery): Text {
    if v.kind == RecoveryDismiss then DISMISSED else RETRY_PREFIX + v.childCorrelationId
  }

  function DecideRecover(s: Scan, v: Recovery): Decision
    requires s.next <= MAX_U64
  {
    if !ValidRecovery(v) then Refused(Invalid)
    else if !s.healthy then Refused(IntegrityError)
    else if v.sessionId !in s.open then Refused(SessionNotOpen)
    else if s.open[v.sessionId].correlationId != v.correlationId || s.open[v.sessionId].requestSha256 != v.requestSha256
            || s.open[v.sessionId].recordSha256 != v.beginRecordSha256
    then Refused(Invalid)
    else if v.kind == RecoveryRetry && (v.childCorrelationId in s.used || Reserved(s.lineages, v.childCorrelationId))
    then Refused(Invalid)
    else Write(Record(2, s.next, v.kind, v.sessionId, v.correlationId, v.requestSha256, v.authorizationSha256, [],
                      RecoveryStatus(v), v.recordedAt, s.head, []))
  }

  function Decide(s: Scan, op: JournalOp): Decision
    requires s.next <= MAX_U64
  {
    match op
    case BeginSession(b) => DecideBegin(s, b)
    case BeginRecoveryChild(b, parent, authorization) => DecideBeginChild(s, b, parent, authorization)
    case Finish(t) => DecideFinish(s, t)
    case Recover(v) => DecideRecover(s, v)
  }

  function Sealed(sha: Hash, r: Record): Record {
    r.(recordSha256 := sha(CanonicalRecord(r)))
  }

  datatype Written = Written(journal: seq<Text>, status: Status, recordSha256: Text)

  function Append(sha: Hash, journal: seq<Text>, r: Record, appends: bool): Written {
    var line := Serialize(Sealed(sha, r));
    if |line| > MAX_LINE then Written(journal, Invalid, [])
    else if !appends then Written(journal, StorageError, [])
    else Written(journal + [line], Ok, Sealed(sha, r).recordSha256)
  }

  /** One operation: validate, scan the whole journal, decide, append. */
  function Perform(sha: Hash, journal: seq<Text>, op: JournalOp, appends: bool): Written
    requires |journal| <= MAX_U64
  {
    ScanLength(sha, journal);
    match Decide(ScanJournal(sha, journal), op)
    case Refused(status) => Written(journal, status, [])
    case Write(r) => Append(sha, journal, r, appends)
  }

  lemma {:induction false} ScanLength(sha: Hash, journal: seq<Text>)
    ensures ScanJournal(sha, journal).next <= |journal|
    ensures ScanJournal(sha, journal).healthy ==> ScanJournal(sha, journal).next == |journal|
  {
    if journal != [] {
      ScanLength(sha, journal[..|journal| - 1]);
    }
  }
}
