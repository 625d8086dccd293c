/** Replay of the authority journal text, and why it rebuilds exactly the live ledger. */
module AuthorityReplay {
  import opened Wrappers
  import opened Text
  import opened HashChain
  import opened AuthorityReceipt
  import opened AuthorityLedger

  const MIN_FIELDS := 5

  // ----- parsing -----

  function Bytes(field: Text): Option<Text> {
    HexDecode(field)
  }

  function Number(field: Text): Option<u64> {
    match ParseUnsigned(field, MAX_U64)
    case Some(n) => if n <= MAX_U64 then Some(n) else None
    case None => None
  }

  function ParseKey(b: seq<Text>): Option<Event>
    requires |b| == 6
  {
    match (Bytes(b[1]), Bytes(b[2]), Bytes(b[3]), Number(b[4]), Number(b[5]))
    case (Some(signer), Some(key), Some(algorithm), Some(from), Some(until)) =>
      Some(KeyTrusted(signer, key, algorithm, from, until))
    case _ => None
  }

  function ParseKeyChange(b: seq<Text>): Option<Event>
    requires |b| == 4
  {
    match (Bytes(b[1]), Bytes(b[2]), Number(b[3]))
    case (Some(signer), Some(key), Some(at)) =>
      Some(if b[0] == "T" then KeyRetired(signer, key, at) else KeyRevoked(signer, key, at))
    case _ => None
  }

  function ParseRevocation(b: seq<Text>): Option<Event>
    requires |b| == 3
  {
    match (Bytes(b[1]), Number(b[2]))
    case (Some(id), Some(at)) => Some(ReceiptRevoked(id, at))
    case _ => None
  }

  function ParseUse(b: seq<Text>): Option<Event>
    requires |b| == 7
  {
    match (Bytes(b[1]), Bytes(b[2]), Bytes(b[3]), Bytes(b[4]), Number(b[5]), Number(b[6]))
    case (Some(id), Some(signer), Some(key), Some(nonce), Some(use), Some(at)) =>
      Some(Used(id, signer, key, nonce, use, at))
    case _ => None
  }

  datatype Six = Six(a: Text, b: Text, c: Text, d: Text, e: Text, f: Text)

  function BytesOfSix(b: seq<Text>): Option<Six>
    requires |b| >= 7
  {
    match (Bytes(b[1]), Bytes(b[2]), Bytes(b[3]), Bytes(b[4]), Bytes(b[5]), Bytes(b[6]))
    case (Some(p), Some(c), Some(signer), Some(key), Some(pn), Some(cn)) => Some(Six(p, c, signer, key, pn, cn))
    case _ => None
  }

  function ParseDelegation(b: seq<Text>): Option<Event>
    requires |b| == 10
  {
    match (BytesOfSix(b), Number(b[7]), Number(b[8]), Number(b[9]))
    case (Some(s), Some(use), Some(reservation), Some(at)) =>
      Some(Delegated(s.a, s.b, s.c, s.d, s.e, s.f, use, reservation, at))
    case _ => None
  }

  function Parse(b: seq<Text>): Option<Event> {
    if b == [] then None
    else if b[0] == "K" && |b| == 6 then ParseKey(b)
    else if (b[0] == "T" || b[0] == "R") && |b| == 4 then ParseKeyChange(b)
    else if b[0] == "X" && |b| == 3 then ParseRevocation(b)
    else if b[0] == "U" && |b| == 7 then ParseUse(b)
    else if b[0] == "D" && |b| == 10 then ParseDelegation(b)
    else None
  }

  // ----- the event contract -----

  predicate Admit(l: Ledger, e: Event) {
    match e
    case KeyTrusted(signer, key, _, from, _) => from != 0 && KeyMapId(signer, key) !in l.keys
    case KeyRetired(signer, key, at) => at != 0 && KeyMapId(signer, key) in l.keys
    case KeyRevoked(signer, key, at) => at != 0 && KeyMapId(signer, key) in l.keys
    case ReceiptRevoked(id, at) => ValidReceiptId(id) && at != 0 && id !in l.revoked
    case Used(id, signer, key, nonce, use, at) =>
      ValidReceiptId(id) && use != 0 && at != 0 && use == l.UseCount(id) + 1 && l.NonceFree(NonceKey(signer, key, nonce), id)
    case Delegated(p, c, signer, key, pn, cn, use, reservation, at) =>
      && ValidReceiptId(p) && ValidReceiptId(c) && use != 0 && reservation != 0 && at != 0
      && c !in l.parent
      && use == l.UseCount(p) + 1
      && l.NonceFree(NonceKey(signer, key, pn), p) && l.NonceFree(NonceKey(signer, key, cn), c)
      && l.DelegatedUses(p) <= MAX_U64 - reservation
  }

  function Damaged(l: Ledger): Ledger {
    l.(healthy := false)
  }

  datatype Record = Record(event: Event, hash: Text)

  /** The event a line carries, if the line continues the chain and the event meets its contract. */
  function ReadEvent(sha: Hash, l: Ledger, line: Text): (r: Option<Record>)
    ensures r.Some? ==> Applicable(l, r.value.event)
  {
    match ReadLine(sha, l.sequence, l.head, MIN_FIELDS, line)
    case None => None
    case Some(checked) =>
      match Parse(checked.body)
      case None => None
      case Some(e) => if Admit(l, e) then Some(Record(e, checked.hash)) else None
  }

  /** One line read into a healthy ledger; an empty line is skipped, a bad one stops replay. */
  function ReplayLine(sha: Hash, l: Ledger, line: Text): Ledger {
    if line == [] then l
    else
      match ReadEvent(sha, l, line)
      case None => Damaged(l)
      case Some(record) => Apply(l, record.event).(sequence := l.sequence + 1, head := record.hash)
  }

  function Replay(sha: Hash, journal: seq<Text>): Ledger {
    if journal == [] then EMPTY
    else
      var l := Replay(sha, journal[..|journal| - 1]);
      if !l.healthy then l else ReplayLine(sha, l, journal[|journal| - 1])
  }

  // ----- printing and parsing undo each other -----

  lemma BytesOfHex(t: Text)
    ensures Bytes(HexEncode(t)) == Some(t)
  {
    HexRoundTrip(t);
  }

  lemma NumberOfDec(n: u64)
    ensures Number(Dec(n)) == Some(n)
  {
    ParseDec(n, MAX_U64);
  }

  /** Hexadecimal texts and numbers behind a letter hold no separator. */
  lemma PrintedClean(tag: Text, texts: seq<Text>, numbers: seq<u64>)
    requires Clean(tag)
    ensures AllClean([tag] + Hexes(texts) + Decs(numbers))
  {
    forall i | 0 <= i < |texts| ensures Clean(Hexes(texts)[i]) {
      HexIsClean(texts[i]);
    }
    forall i | 0 <= i < |numbers| ensures Clean(Decs(numbers)[i]) {
      ParseDec(numbers[i], MAX_U64);
    }
  }

  function Hexes(texts: seq<Text>): seq<Text> {
    seq(|texts|, i requires 0 <= i < |texts| => HexEncode(texts[i]))
  }

  function Decs(numbers: seq<u64>): seq<Text> {
    seq(|numbers|, i requires 0 <= i < |numbers| => Dec(numbers[i]))
  }

  lemma ParsePrintKey(e: Event)
    requires e.KeyTrusted?
    ensures ParseKey(Print(e)) == Some(e)
  {
    BytesOfHex(e.signer); BytesOfHex(e.key); BytesOfHex(e.algorithm);
    NumberOfDec(e.validFrom); NumberOfDec(e.validUntil);
  }

  lemma KeyIsClean(e: Event)
    requires e.KeyTrusted?
    ensures AllClean(Print(e))
  {
    PrintedClean("K", [e.signer, e.key, e.algorithm], [e.validFrom, e.validUntil]);
    assert Print(e) == ["K"] + Hexes([e.signer, e.key, e.algorithm]) + Decs([e.validFrom, e.validUntil]);
  }

  lemma ParsePrintKeyChange(e: Event)
    requires e.KeyRetired? || e.KeyRevoked?
    ensures ParseKeyChange(Print(e)) == Some(e)
  {
    BytesOfHex(e.signer); BytesOfHex(e.key);
    NumberOfDec(e.at);
  }

  lemma KeyChangeIsClean(e: Event)
    requires e.KeyRetired? || e.KeyRevoked?
    ensures AllClean(Print(e))
  {
    PrintedClean(if e.KeyRetired? then "T" else "R", [e.signer, e.key], [e.at]);
    assert Print(e) == [if e.KeyRetired? then "T" else "R"] + Hexes([e.signer, e.key]) + Decs([e.at]);
  }

  lemma ParsePrintRevocation(e: Event)
    requires e.ReceiptRevoked?
    ensures ParseRevocation(Print(e)) == Some(e)
  {
    BytesOfHex(e.id);
    NumberOfDec(e.at);
  }

  lemma RevocationIsClean(e: Event)
    requires e.ReceiptRevoked?
    ensures AllClean(Print(e))
  {
    PrintedClean("X", [e.id], [e.at]);
    assert Print(e) == ["X"] + Hexes([e.id]) + Decs([e.at]);
  }

  lemma ParsePrintUse(e: Event)
    requires e.Used?
    ensures ParseUse(Print(e)) == Some(e)
  {
    BytesOfHex(e.id); BytesOfHex(e.signer); BytesOfHex(e.key); BytesOfHex(e.nonce);
    NumberOfDec(e.use); NumberOfDec(e.at);
  }

  lemma UseIsClean(e: Event)
    requires e.Used?
    ensures AllClean(Print(e))
  {
    PrintedClean("U", [e.id, e.signer, e.key, e.nonce], [e.use, e.at]);
    assert Print(e) == ["U"] + Hexes([e.id, e.signer, e.key, e.nonce]) + Decs([e.use, e.at]);
  }

  lemma SixOfHex(b: seq<Text>, x: Six)
    requires |b| >= 7 && b[1] == HexEncode(x.a) && b[2] == HexEncode(x.b) && b[3] == HexEncode(x.c)
    requires b[4] == HexEncode(x.d) && b[5] == HexEncode(x.e) && b[6] == HexEncode(x.f)
    ensures BytesOfSix(b) == Some(x)
  {
    HexRoundTrip(x.a); HexRoundTrip(x.b); HexRoundTrip(x.c); HexRoundTrip(x.d); HexRoundTrip(x.e); HexRoundTrip(x.f);
  }

  lemma ThreeOfDec(b: seq<Text>, use: u64, reservation: u64, at: u64)
    requires |b| == 10 && b[7] == Dec(use) && b[8] == Dec(reservation) && b[9] == Dec(at)
    ensures Number(b[7]) == Some(use) && Number(b[8]) == Some(reservation) && Number(b[9]) == Some(at)
  {
    NumberOfDec(use); NumberOfDec(reservation); NumberOfDec(at);
  }

  lemma ParsePrintDelegation(e: Event)
    requires e.Delegated?
    ensures ParseDelegation(Print(e)) == Some(e)
  {
    SixOfHex(Print(e), Six(e.parentId, e.childId, e.signer, e.key, e.parentNonce, e.childNonce));
    ThreeOfDec(Print(e), e.use, e.reservation, e.at);
  }

  lemma DelegationIsClean(e: Event)
    requires e.Delegated?
    ensures AllClean(Print(e))
  {
    PrintedClean("D", [e.parentId, e.childId, e.signer, e.key, e.parentNonce, e.childNonce], [e.use, e.reservation, e.at]);
    assert Print(e) == ["D"] + Hexes([e.parentId, e.childId, e.signer, e.key, e.parentNonce, e.childNonce]) + Decs([e.use, e.reservation, e.at]);
  }

  /** Every event is read back as it was printed, and its fields hold no separator. */
  lemma ParsePrint(e: Event)
    ensures Parse(Print(e)) == Some(e)
    ensures AllClean(Print(e)) && |Print(e)| >= 3
  {
    match e
    case KeyTrusted(_, _, _, _, _) => ParsePrintKey(e); KeyIsClean(e);
    case KeyRetired(_, _, _) => ParsePrintKeyChange(e); KeyChangeIsClean(e);
    case KeyRevoked(_, _, _) => ParsePrintKeyChange(e); KeyChangeIsClean(e);
    case ReceiptRevoked(_, _) => ParsePrintRevocation(e); RevocationIsClean(e);
    case Used(_, _, _, _, _, _) => ParsePrintUse(e); UseIsClean(e);
    case Delegated(_, _, _, _, _, _, _, _, _) => ParsePrintDelegation(e); DelegationIsClean(e);
  }

  // ----- a live decision meets the replay contract -----

  lemma DelegationIsAdmitted(crypto: Crypto, l: Ledger, p: Receipt, c: Receipt, now: u64)
    requires JudgeDelegation(crypto, l, p, c, now).Accept?
    ensures Admit(l, JudgeDelegation(crypto, l, p, c, now).event)
  {
    assert ValidReceiptId(p.receiptId) && ValidReceiptId(c.receiptId);
    assert ValidBounded(p.envelope) && ValidBounded(c.envelope);
  }

  lemma AuthorizationIsAdmitted(crypto: Crypto, l: Ledger, r: Receipt, purpose: Purpose, subject: Text, scope: Text, now: u64)
    requires JudgeAuthorize(crypto, l, r, purpose, subject, scope, now).Accept?
    ensures Admit(l, JudgeAuthorize(crypto, l, r, purpose, subject, scope, now).event)
  {
    assert ValidReceiptId(r.receiptId) && ValidBounded(r.envelope);
  }

  lemma AcceptedIsAdmitted(crypto: Crypto, l: Ledger, op: Op)
    requires Judge(crypto, l, op).Accept?
    ensures Admit(l, Judge(crypto, l, op).event)
  {
    match op
    case RegisterDelegation(p, c, now) => DelegationIsAdmitted(crypto, l, p, c, now);
    case Authorize(r, purpose, subject, scope, now) => AuthorizationIsAdmitted(crypto, l, r, purpose, subject, scope, now);
    case TrustKey(k) =>
    case RetireKey(signer, key, at) =>
    case RevokeKey(signer, key, at) =>
    case RevokeReceipt(id, at) =>
  }

  // ----- live state equals replayed state -----

  /** Journal, sequence number and head of a store that replay agrees with. */
  ghost predicate Faithful(sha: Hash, st: Store) {
    && Replay(sha, st.journal) == st.ledger
    && st.ledger.healthy
    && st.ledger.sequence == |st.journal|
    && (st.ledger.head == [] || IsSha256(st.ledger.head))
    && forall i | 0 <= i < |st.journal| :: OneLine(st.journal[i])
  }

  lemma BodyReplays(sha: Hash, l: Ledger, e: Event, body: seq<Text>)
    requires Applicable(l, e) && Admit(l, e) && l.sequence < MAX_U64 && (l.head == [] || IsSha256(l.head))
    requires Parse(body) == Some(e) && AllClean(body) && |body| >= 3
    ensures var line := Line(sha, l.sequence, l.head, body);
            OneLine(line) && ReplayLine(sha, l, line) == Advance(sha, Apply(l, e), body)
  {
    CleanIsTabFree(body);
    ReadWritten(sha, l.sequence, l.head, body, MIN_FIELDS);
    WrittenIsOneLine(sha, l.sequence, l.head, body);
  }

  /** The committed line is one line, and replays to the committed ledger. */
  lemma CommittedLineReplays(sha: Hash, l: Ledger, e: Event)
    requires Applicable(l, e) && Admit(l, e) && l.sequence < MAX_U64 && (l.head == [] || IsSha256(l.head))
    ensures var line := Line(sha, l.sequence, l.head, Print(e));
            OneLine(line) && ReplayLine(sha, l, line) == Advance(sha, Apply(l, e), Print(e))
  {
    ParsePrint(e);
    BodyReplays(sha, l, e, Print(e));
  }

  lemma ReplayExtends(sha: Hash, journal: seq<Text>, line: Text)
    requires Replay(sha, journal).healthy
    ensures Replay(sha, journal + [line]) == ReplayLine(sha, Replay(sha, journal), line)
  {
    assert (journal + [line])[..|journal|] == journal;
  }

  lemma ApplyKeepsPlace(l: Ledger, e: Event)
    requires Applicable(l, e)
    ensures Apply(l, e).sequence == l.sequence && Apply(l, e).head == l.head && Apply(l, e).healthy == l.healthy
  {
  }

  lemma CommitKeepsFaithful(sha: Hash, st: Store, e: Event)
    requires Faithful(sha, st) && Applicable(st.ledger, e) && Admit(st.ledger, e)
    requires |st.journal| < MAX_U64
    ensures Faithful(sha, Commit(sha, st, e))
  {
    var l := st.ledger;
    CommittedLineReplays(sha, l, e);
    ReplayExtends(sha, st.journal, Line(sha, l.sequence, l.head, Print(e)));
    ApplyKeepsPlace(l, e);
  }

  /**
   After any run of live calls on an empty journal, whatever was refused and whichever appends failed, replaying the
   written text accepts every line and rebuilds the same ledger: keys, uses, reservations, revocations, nonces,
   lineage, sequence and head hash.
   */
  lemma ReplayRebuildsLedger(crypto: Crypto, calls: seq<Call>)
    requires |calls| <= MAX_U64
    ensures var st := Run(crypto, calls);
            && Replay(crypto.sha, st.journal) == st.ledger && st.ledger.healthy
            && st.ledger.sequence == |st.journal| <= |calls|
            && forall i | 0 <= i < |st.journal| :: OneLine(st.journal[i])
  {
    RunIsFaithful(crypto, calls);
  }

  lemma {:induction false} RunIsFaithful(crypto: Crypto, calls: seq<Call>)
    requires |calls| <= MAX_U64
    ensures Faithful(crypto.sha, Run(crypto, calls)) && |Run(crypto, calls).journal| <= |calls|
  {
    if calls != [] {
      var front, last := calls[..|calls| - 1], calls[|calls| - 1];
      RunIsFaithful(crypto, front);
      var st := Run(crypto, front);
      if Judge(crypto, st.ledger, last.op).Accept? && last.appends {
        AcceptedIsAdmitted(crypto, st.ledger, last.op);
        CommitKeepsFaithful(crypto.sha, st, Judge(crypto, st.ledger, last.op).event);
      }
    }
  }
}
