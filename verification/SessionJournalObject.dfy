/** The journal as the source runs it: a scan that updates its state line by line, and four appending operations. */
module SessionJournalObject {
  import opened Text
  import opened HashChain
  import opened SessionJournal

  /** The state `scan_journal` folds the lines into. */
  class JournalScan {
    const sha: Hash
    var healthy: bool
    var next: nat
    var head: Text
    var open: map<Text, Record>
    var seen: set<Text>
    var used: set<Text>
    var lineages: seq<Lineage>

    function Value(): Scan
      reads this
    {
      Scan(healthy, next, head, open, seen, used, lineages)
    }

    constructor (sha: Hash)
      ensures this.sha == sha && Value() == FRESH
    {
      this.sha := sha;
      healthy, next, head := true, 0, GENESIS;
      open, seen, used, lineages := map[], {}, {}, [];
    }

    lemma MarksNext(before: seq<Lineage>, k: nat, correlation: Text, session: Text)
      requires k < |before|
      ensures before[..k] + MarkStarted(before[k..], correlation, session)
           == if Awaits(before[k], correlation) then before[k := before[k].(childStarted := true, childSession := session)]
              else before[..k + 1] + MarkStarted(before[k + 1..], correlation, session)
    {
      assert before[k..][1..] == before[k + 1..];
    }

    /** Starts the first waiting lineage under this correlation, if there is one. */
    method StartChild(correlation: Text, session: Text)
      modifies this`lineages
      ensures lineages == MarkStarted(old(lineages), correlation, session)
    {
      var k := 0;
      assert lineages[0..] == lineages;
      while k < |lineages|
        invariant 0 <= k <= |lineages| && lineages == old(lineages)
        invariant lineages[..k] + MarkStarted(lineages[k..], correlation, session) == MarkStarted(lineages, correlation, session)
      {
        var l := lineages[k];
        MarksNext(lineages, k, correlation, session);
        if Awaits(l, correlation) {
          lineages := lineages[k := l.(childStarted := true, childSession := session)];
          return;
        }
        k := k + 1;
      }
    }

    method IsReserved(correlation: Text) returns (r: bool)
      ensures r == Reserved(lineages, correlation)
    {
      for k := 0 to |lineages|
        invariant !Reserved(lineages[..k], correlation)
      {
        if lineages[k].childCorrelation == correlation {
          return true;
        }
        assert forall m | 0 <= m < k :: lineages[..k][m] == lineages[m];
      }
      assert lineages[..|lineages|] == lineages;
      return false;
    }

    method ReadBegin(r: Record)
      requires healthy
      modifies this
      ensures Value() == ScanBegin(old(Value()), r)
    {
      if r.sessionId in seen {
        healthy := false;
        return;
      }
      seen := seen + {r.sessionId};
      used := used + {r.correlationId};
      open := open[r.sessionId := r];
      StartChild(r.correlationId, r.sessionId);
    }

    method ReadTerminal(r: Record)
      requires healthy
      modifies this
      ensures Value() == ScanTerminal(old(Value()), r)
    {
      if !Matches(open, r) {
        healthy := false;
        return;
      }
      open := open - {r.sessionId};
    }

    method ReadRetry(r: Record)
      requires healthy
      modifies this
      ensures Value() == ScanRetry(old(Value()), r)
    {
      var child := ChildOf(r.terminalStatus);
      if !Matches(open, r) || child.None? || child.value in used {
        healthy := false;
        return;
      }
      var duplicate := IsReserved(child.value);
      if duplicate {
        healthy := false;
        return;
      }
      lineages := lineages + [Lineage(r.sessionId, r.correlationId, r.auditSha256, child.value, [], false)];
      open := open - {r.sessionId};
    }

    method ReadRecord(r: Record)
      requires healthy
      modifies this
      ensures Value() == ScanRecord(old(Value()), r)
    {
      if r.sequence != next || r.previous != head {
        healthy := false;
        return;
      }
      match r.kind {
        case Begin => ReadBegin(r);
        case RecoveryRetry => ReadRetry(r);
        case _ => ReadTerminal(r);
      }
      if healthy {
        head := r.recordSha256;
        next := next + 1;
      }
    }

    method ReadText(line: Text)
      requires healthy
      modifies this
      ensures Value() == ScanLine(sha, old(Value()), line)
    {
      var record := Deserialize(sha, Trimmed(line));
      if record.None? {
        healthy := false;
        return;
      }
      ReadRecord(record.value);
    }
  }

  method ScanAll(sha: Hash, journal: seq<Text>) returns (s: Scan)
    ensures s == ScanJournal(sha, journal)
  {
    var state := new JournalScan(sha);
    var i := 0;
    assert journal[..0] == [];
    while i < |journal| && state.healthy
      invariant 0 <= i <= |journal| && state.sha == sha && fresh(state)
      invariant state.Value() == ScanJournal(sha, journal[..i])
    {
      assert journal[..i + 1][..i] == journal[..i];
      state.ReadText(journal[i]);
      i := i + 1;
    }
    DamagedScanStays(sha, journal, i);
    assert journal[..|journal|] == journal;
    return state.Value();
  }

  /** Once a prefix is damaged, the rest of the journal changes nothing. */
  lemma {:induction false} DamagedScanStays(sha: Hash, journal: seq<Text>, i: nat)
    requires i <= |journal| && (i < |journal| ==> !ScanJournal(sha, journal[..i]).healthy)
    ensures ScanJournal(sha, journal) == ScanJournal(sha, journal[..i])
    decreases |journal|
  {
    assert journal[..|journal|] == journal;
    if i < |journal| {
      var front := journal[..|journal| - 1];
      assert front[..i] == journal[..i];
      DamagedScanStays(sha, front, i);
    }
  }

  class SessionJournalFile {
    const sha: Hash
    var journal: seq<Text>

    constructor (sha: Hash, journal: seq<Text>)
      ensures this.sha == sha && this.journal == journal
    {
      this.sha, this.journal := sha, journal;
    }

    /** Seals the record, prints it, and appends the line. */
    method AppendRecord(r: Record, appends: bool) returns (status: Status, recordSha256: Text)
      modifies this
      ensures Written(journal, status, recordSha256) == Append(sha, old(journal), r, appends)
    {
      var record := r.(recordSha256 := sha(CanonicalRecord(r)));
      var line := Serialize(record);
      if |line| > MAX_LINE {
        return Invalid, [];
      }
      if !appends {
        return StorageError, [];
      }
      journal := journal + [line];
      return Ok, record.recordSha256;
    }

    method Execute(op: JournalOp, appends: bool) returns (status: Status, recordSha256: Text)
      requires |journal| <= MAX_U64
      modifies this
      ensures Written(journal, status, recordSha256) == Perform(sha, old(journal), op, appends)
    {
      var s := ScanAll(sha, journal);
      ScanLength(sha, journal);
      match Decide(s, op)
      case Refused(refusal) =>
        status, recordSha256 := refusal, [];
      case Write(r) =>
        status, recordSha256 := AppendRecord(r, appends);
    }

    method Begin(b: BeginRequest, appends: bool) returns (status: Status, recordSha256: Text)
      requires |journal| <= MAX_U64
      modifies this
      ensures Written(journal, status, recordSha256) == Perform(sha, old(journal), BeginSession(b), appends)
    {
      status, recordSha256 := Execute(BeginSession(b), appends);
    }

    method BeginRecoveryChild(b: BeginRequest, parent: Text, authorization: Text, appends: bool)
      returns (status: Status, recordSha256: Text)
      requires |journal| <= MAX_U64
      modifies this
      ensures Written(journal, status, recordSha256)
           == Perform(sha, old(journal), JournalOp.BeginRecoveryChild(b, parent, authorization), appends)
    {
      status, recordSha256 := Execute(JournalOp.BeginRecoveryChild(b, parent, authorization), appends);
    }

    method Finish(t: Terminal, appends: bool) returns (status: Status, recordSha256: Text)
      requires |journal| <= MAX_U64
      modifies this
      ensures Written(journal, status, recordSha256) == Perform(sha, old(journal), JournalOp.Finish(t), appends)
    {
      status, recordSha256 := Execute(JournalOp.Finish(t), appends);
    }

    method Recover(v: Recovery, appends: bool) returns (status: Status, recordSha256: Text)
      requires |journal| <= MAX_U64
      modifies this
      ensures Written(journal, status, recordSha256) == Perform(sha, old(journal), JournalOp.Recover(v), appends)
    {
      status, recordSha256 := Execute(JournalOp.Recover(v), appends);
    }
  }
}
