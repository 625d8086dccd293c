/**
 What a sound journal is, stated on its whole history of records, and the proof that the scan
 decides exactly that and reports exactly the sessions left open.
 */
module SessionJournalLaws {
  import opened Wrappers
  import opened Text
  import opened HashChain
  import opened Readings
  import opened SessionJournal

  type History = seq<Record>

  // ----- the laws, on histories -----

  ghost predicate Begun(h: History, id: Text) {
    exists i | 0 <= i < |h| :: h[i].kind == Begin && h[i].sessionId == id
  }

  ghost predicate Closed(h: History, id: Text) {
    exists i | 0 <= i < |h| :: h[i].kind != Begin && h[i].sessionId == id
  }

  ghost predicate CorrelationUsed(h: History, c: Text) {
    exists i | 0 <= i < |h| :: h[i].kind == Begin && h[i].correlationId == c
  }

  ghost predicate CorrelationReserved(h: History, c: Text) {
    exists i | 0 <= i < |h| :: h[i].kind == RecoveryRetry && ChildOf(h[i].terminalStatus) == Some(c)
  }

  predicate SameContract(b: Record, r: Record) {
    b.kind == Begin && b.sessionId == r.sessionId && b.correlationId == r.correlationId && b.requestSha256 == r.requestSha256
  }

  function HeadOf(h: History): Text {
    if h == [] then GENESIS else h[|h| - 1].recordSha256
  }

  /** `r` closes a session begun under the same correlation and request, and not closed before. */
  ghost predicate MayClose(h: History, r: Record) {
    (exists i | 0 <= i < |h| :: SameContract(h[i], r)) && !Closed(h, r.sessionId)
  }

  /** What must hold of the record that follows a history. */
  ghost predicate Follows(h: History, r: Record) {
    && r.sequence == |h| && r.previous == HeadOf(h)
    && match r.kind
       case Begin => !Begun(h, r.sessionId)
       case RecoveryRetry =>
         && MayClose(h, r)
         && var child := ChildOf(r.terminalStatus);
            child.Some? && !CorrelationUsed(h, child.value) && !CorrelationReserved(h, child.value)
       case _ => MayClose(h, r)
  }

  ghost predicate Lawful(h: History) {
    forall j | 0 <= j < |h| :: Follows(h[..j], h[j])
  }

  /** Lawfulness is checked one record at a time. */
  lemma LawfulExtends(h: History, r: Record)
    ensures Lawful(h + [r]) <==> Lawful(h) && Follows(h, r)
  {
    var g := h + [r];
    assert g[..|h|] == h;
    forall j | 0 <= j < |h| ensures g[..j] == h[..j] && g[j] == h[j] {
    }
    if Lawful(g) {
      forall j | 0 <= j < |h| ensures Follows(h[..j], h[j]) {
        assert Follows(g[..j], g[j]);
      }
      assert Follows(g[..|h|], g[|h|]);
    }
    if Lawful(h) && Follows(h, r) {
      forall j | 0 <= j < |g| ensures Follows(g[..j], g[j]) {
        if j < |h| {
          assert Follows(h[..j], h[j]);
        }
      }
    }
  }

  // ----- the scan state describes the history -----

  ghost predicate OpenDescribes(h: History, open: map<Text, Record>) {
    && (forall id :: id in open <==> Begun(h, id) && !Closed(h, id))
    && (forall i | 0 <= i < |h| && h[i].kind == Begin && h[i].sessionId in open :: open[h[i].sessionId] == h[i])
  }

  ghost predicate Describes(h: History, s: Scan) {
    && s.healthy && s.next == |h| && s.head == HeadOf(h)
    && (forall id :: id in s.seen <==> Begun(h, id))
    && (forall c :: c in s.used <==> CorrelationUsed(h, c))
    && OpenDescribes(h, s.open)
    && (forall c :: Reserved(s.lineages, c) <==> CorrelationReserved(h, c))
    && (forall id :: Closed(h, id) ==> Begun(h, id))
  }

  lemma BegunExtends(h: History, r: Record, id: Text)
    ensures Begun(h + [r], id) <==> Begun(h, id) || (r.kind == Begin && r.sessionId == id)
    ensures Closed(h + [r], id) <==> Closed(h, id) || (r.kind != Begin && r.sessionId == id)
  {
    var g := h + [r];
    assert forall i | 0 <= i < |h| :: g[i] == h[i];
    assert g[|h|] == r;
  }

  lemma CorrelationsExtend(h: History, r: Record, c: Text)
    ensures CorrelationUsed(h + [r], c) <==> CorrelationUsed(h, c) || (r.kind == Begin && r.correlationId == c)
    ensures CorrelationReserved(h + [r], c) <==>
              CorrelationReserved(h, c) || (r.kind == RecoveryRetry && ChildOf(r.terminalStatus) == Some(c))
  {
    var g := h + [r];
    assert forall i | 0 <= i < |h| :: g[i] == h[i];
    assert g[|h|] == r;
  }

  lemma MatchesDescribes(h: History, open: map<Text, Record>, r: Record)
    requires OpenDescribes(h, open)
    ensures Matches(open, r) <==> MayClose(h, r)
  {
    if Matches(open, r) {
      var i :| 0 <= i < |h| && h[i].kind == Begin && h[i].sessionId == r.sessionId;
      assert SameContract(h[i], r);
    }
    if MayClose(h, r) {
      var i :| 0 <= i < |h| && SameContract(h[i], r);
      assert Begun(h, r.sessionId);
    }
  }

  lemma {:induction false} MarkStartedKeepsReserved(lineages: seq<Lineage>, correlation: Text, session: Text)
    ensures |MarkStarted(lineages, correlation, session)| == |lineages|
    ensures forall k | 0 <= k < |lineages| ::
              MarkStarted(lineages, correlation, session)[k] == lineages[k]
              || (Awaits(lineages[k], correlation)
                  && MarkStarted(lineages, correlation, session)[k] == lineages[k].(childStarted := true, childSession := session))
  {
    if lineages != [] && !Awaits(lineages[0], correlation) {
      MarkStartedKeepsReserved(lineages[1..], correlation, session);
    }
  }

  lemma ReservedKept(lineages: seq<Lineage>, correlation: Text, session: Text, c: Text)
    ensures Reserved(MarkStarted(lineages, correlation, session), c) <==> Reserved(lineages, c)
  {
    MarkStartedKeepsReserved(lineages, correlation, session);
    var marked := MarkStarted(lineages, correlation, session);
    if Reserved(lineages, c) {
      var k :| 0 <= k < |lineages| && lineages[k].childCorrelation == c;
      assert marked[k].childCorrelation == c;
    }
  }

  lemma ReservedAppends(lineages: seq<Lineage>, l: Lineage, c: Text)
    ensures Reserved(lineages + [l], c) <==> Reserved(lineages, c) || l.childCorrelation == c
  {
    var g := lineages + [l];
    assert forall k | 0 <= k < |lineages| :: g[k] == lineages[k];
    assert g[|lineages|] == l;
  }

  lemma OpenAfterBegin(h: History, open: map<Text, Record>, r: Record)
    requires OpenDescribes(h, open) && r.kind == Begin && !Begun(h, r.sessionId) && !Closed(h, r.sessionId)
    ensures OpenDescribes(h + [r], open[r.sessionId := r])
  {
    var g := h + [r];
    forall id ensures id in open[r.sessionId := r] <==> Begun(g, id) && !Closed(g, id) {
      BegunExtends(h, r, id);
    }
    forall i | 0 <= i < |g| && g[i].kind == Begin && g[i].sessionId in open[r.sessionId := r]
      ensures open[r.sessionId := r][g[i].sessionId] == g[i]
    {
      if i < |h| {
        assert g[i] == h[i];
        assert Begun(h, h[i].sessionId);
      }
    }
  }

  lemma OpenAfterClose(h: History, open: map<Text, Record>, r: Record)
    requires OpenDescribes(h, open) && r.kind != Begin
    ensures OpenDescribes(h + [r], open - {r.sessionId})
  {
    var g := h + [r];
    forall id ensures id in open - {r.sessionId} <==> Begun(g, id) && !Closed(g, id) {
      BegunExtends(h, r, id);
    }
    assert forall i | 0 <= i < |h| :: g[i] == h[i];
  }

  lemma BeginStep(h: History, s: Scan, r: Record)
    requires Describes(h, s) && r.kind == Begin && Follows(h, r)
    ensures Describes(h + [r], ScanRecord(s, r))
  {
    var s' := ScanRecord(s, r);
    assert !Closed(h, r.sessionId);
    OpenAfterBegin(h, s.open, r);
    forall id ensures id in s'.seen <==> Begun(h + [r], id)
              ensures Closed(h + [r], id) ==> Begun(h + [r], id) {
      BegunExtends(h, r, id);
    }
    forall c ensures c in s'.used <==> CorrelationUsed(h + [r], c)
             ensures Reserved(s'.lineages, c) <==> CorrelationReserved(h + [r], c) {
      CorrelationsExtend(h, r, c);
      ReservedKept(s.lineages, r.correlationId, r.sessionId, c);
    }
  }

  lemma CloseStep(h: History, s: Scan, r: Record)
    requires Describes(h, s) && r.kind != Begin && Follows(h, r)
    ensures Describes(h + [r], ScanRecord(s, r))
  {
    var s' := ScanRecord(s, r);
    MatchesDescribes(h, s.open, r);
    OpenAfterClose(h, s.open, r);
    assert Begun(h, r.sessionId);
    forall id ensures id in s'.seen <==> Begun(h + [r], id)
              ensures Closed(h + [r], id) ==> Begun(h + [r], id) {
      BegunExtends(h, r, id);
    }
    forall c ensures c in s'.used <==> CorrelationUsed(h + [r], c)
             ensures Reserved(s'.lineages, c) <==> CorrelationReserved(h + [r], c) {
      CorrelationsExtend(h, r, c);
      if r.kind == RecoveryRetry {
        ReservedAppends(s.lineages, s'.lineages[|s.lineages|], c);
      }
    }
  }

  /** One record: the scan accepts it exactly when it may follow, and then describes the longer history. */
  lemma ScanStep(h: History, s: Scan, r: Record)
    requires Describes(h, s)
    ensures ScanRecord(s, r).healthy <==> Follows(h, r)
    ensures Follows(h, r) ==> Describes(h + [r], ScanRecord(s, r))
  {
    MatchesDescribes(h, s.open, r);
    if Follows(h, r) {
      if r.kind == Begin {
        BeginStep(h, s, r);
      } else {
        CloseStep(h, s, r);
      }
    }
  }

  // ----- the history of a journal text -----

  /** What each line of the text reads as. */
  function ReadAll(sha: Hash, journal: seq<Text>): (lines: seq<Option<Record>>)
    ensures |lines| == |journal|
  {
    if journal == [] then []
    else ReadAll(sha, journal[..|journal| - 1]) + [Deserialize(sha, Trimmed(journal[|journal| - 1]))]
  }

  function ScanReads(lines: seq<Option<Record>>): Scan {
    if lines == [] then FRESH
    else
      var s, last := ScanReads(lines[..|lines| - 1]), lines[|lines| - 1];
      if !s.healthy then s else if last.None? then s.(healthy := false) else ScanRecord(s, last.value)
  }

  lemma {:induction false} ScanIsOfReads(sha: Hash, journal: seq<Text>)
    ensures ScanJournal(sha, journal) == ScanReads(ReadAll(sha, journal))
  {
    if journal != [] {
      ScanIsOfReads(sha, journal[..|journal| - 1]);
      assert ReadAll(sha, journal)[..|journal| - 1] == ReadAll(sha, journal[..|journal| - 1]);
    }
  }

  lemma {:induction false} ScanDecides(lines: seq<Option<Record>>)
    ensures ScanReads(lines).healthy <==> AllRead(lines) && Lawful(Values(lines))
    ensures ScanReads(lines).healthy ==> Describes(Values(lines), ScanReads(lines))
  {
    if lines != [] {
      var front, last := lines[..|lines| - 1], lines[|lines| - 1];
      ScanDecides(front);
      assert lines == front + [last];
      if AllRead(lines) {
        LawfulExtends(Values(front), last.value);
        if ScanReads(front).healthy {
          ScanStep(Values(front), ScanReads(front), last.value);
        }
      }
    }
  }

  ghost predicate SoundJournal(sha: Hash, journal: seq<Text>) {
    AllRead(ReadAll(sha, journal)) && Lawful(Values(ReadAll(sha, journal)))
  }

  /**
   For every journal text whatsoever: the scan reports it sound exactly when every line is a valid record and the
   history is lawful; and what it then reports as seen, used, reserved and open is what the history says. In
   particular the open sessions are exactly those begun and not closed.
   */
  lemma ScanDecidesLawfulness(sha: Hash, journal: seq<Text>)
    ensures ScanJournal(sha, journal).healthy <==> SoundJournal(sha, journal)
    ensures SoundJournal(sha, journal) ==> Describes(Values(ReadAll(sha, journal)), ScanJournal(sha, journal))
  {
    ScanIsOfReads(sha, journal);
    ScanDecides(ReadAll(sha, journal));
  }

  // ----- what lawfulness says of sessions -----

  /** Lawfulness read at one index of the whole history. */
  ghost predicate Placed(h: History, j: nat)
    requires j < |h|
  {
    && (h[j].kind == Begin ==> forall i | 0 <= i < j && h[i].kind == Begin :: h[i].sessionId != h[j].sessionId)
    && (h[j].kind != Begin ==> forall i | 0 <= i < j && h[i].kind != Begin :: h[i].sessionId != h[j].sessionId)
    && (h[j].kind != Begin ==> exists i | 0 <= i < j :: SameContract(h[i], h[j]))
  }

  lemma LawfulPlaces(h: History, j: nat)
    requires Lawful(h) && j < |h|
    ensures Placed(h, j)
  {
    var front := h[..j];
    assert Follows(front, h[j]);
    assert forall i | 0 <= i < j :: front[i] == h[i];
    if h[j].kind != Begin {
      var i :| 0 <= i < |front| && SameContract(front[i], h[j]);
      assert SameContract(h[i], h[j]);
    }
  }

  lemma PlacedPair(h: History, i: nat, j: nat)
    requires i < j < |h| && h[i].sessionId == h[j].sessionId
    requires forall k | 0 <= k < |h| :: Placed(h, k)
    ensures h[i].kind == Begin && h[j].kind != Begin && SameContract(h[i], h[j])
  {
    assert Placed(h, i) && Placed(h, j);
    if h[j].kind != Begin {
      var k :| 0 <= k < j && SameContract(h[k], h[j]);
      assert Placed(h, k);
    }
  }

  /**
   In a lawful history each session begins once and closes at most once, after it began and under the same
   correlation and request.
   */
  lemma LawfulSessions(h: History, i: nat, j: nat)
    requires Lawful(h) && i < |h| && j < |h| && h[i].sessionId == h[j].sessionId
    ensures h[i].kind == Begin && h[j].kind == Begin ==> i == j
    ensures h[i].kind != Begin && h[j].kind != Begin ==> i == j
    ensures h[i].kind == Begin && h[j].kind != Begin ==> i < j && SameContract(h[i], h[j])
  {
    forall k | 0 <= k < |h| ensures Placed(h, k) {
      LawfulPlaces(h, k);
    }
    if i < j {
      PlacedPair(h, i, j);
    } else if j < i {
      PlacedPair(h, j, i);
    }
  }
}
