/** The orchestrator's run, step by step, against the real journal. */
module ExecutionOrchestrator {
  import opened Wrappers
  import opened Text
  import opened HashChain
  import opened Forge
  import opened ExecutionSession
  import opened SessionStory
  import Z = Zenkai
  import J = SessionJournal
  import JT = SessionJournalText
  import JR = SessionJournalRuns
  import JM = SessionJournalTheorems
  import JO = SessionJournalObject

  // ----- what the journal shows -----

  /** The journal gained this session's closing record, carrying the audit of the result, and the session is closed. */
  ghost predicate EndsIn(sha: Hash, before: seq<Text>, after: seq<Text>, kind: J.Kind, r: SessionResult) {
    && |after| == |before| + 1 && after[..|before|] == before
    && J.ScanJournal(sha, after).healthy && r.sessionId !in J.ScanJournal(sha, after).open
    && Closing(J.Deserialize(sha, after[|before|]), kind, r)
  }

  predicate Closing(last: Option<J.Record>, kind: J.Kind, r: SessionResult) {
    && last.Some? && last.value.kind == kind && last.value.sessionId == r.sessionId
    && last.value.auditSha256 == r.audit && last.value.terminalStatus == r.status.Name()
    && r.terminalRecord == Some(last.value.recordSha256)
  }

  /** The session is open in the journal under this contract. */
  ghost predicate IsOpen(sha: Hash, journal: seq<Text>, id: Text, correlationId: Text, requestSha256: Text, begin: Option<Text>) {
    var s := J.ScanJournal(sha, journal);
    && s.healthy && id in s.open
    && s.open[id].correlationId == correlationId && s.open[id].requestSha256 == requestSha256
    && begin == Some(s.open[id].recordSha256)
  }

  ghost predicate HoldsOpen(sha: Hash, journal: seq<Text>, id: Text, correlationId: Text, requestSha256: Text) {
    exists begin :: IsOpen(sha, journal, id, correlationId, requestSha256, begin)
  }

  /** The journal gained exactly the BEGIN of this fresh session. */
  ghost predicate Opened(sha: Hash, before: seq<Text>, after: seq<Text>, q: SessionRequest, id: Text, requestSha256: Text, begin: Option<Text>) {
    && |after| == |before| + 1 && after[..|before|] == before
    && id !in J.ScanJournal(sha, before).seen
    && IsOpen(sha, after, id, q.correlationId, requestSha256, begin)
  }

  lemma ScannedBeginOpens(s: J.Scan, r: J.Record)
    requires r.kind == J.Begin && J.ScanRecord(s, r).healthy && s.healthy
    ensures r.sessionId !in s.seen && r.sessionId in J.ScanRecord(s, r).open && J.ScanRecord(s, r).open[r.sessionId] == r
  {
  }

  lemma DecidedBegin(s: J.Scan, q: SessionRequest, id: Text, requestSha256: Text)
    requires s.next <= MAX_U64 && J.Decide(s, BeginOp(q, id, requestSha256)).Write?
    ensures var r := J.Decide(s, BeginOp(q, id, requestSha256)).record;
            r.kind == J.Begin && r.sessionId == id && r.correlationId == q.correlationId && r.requestSha256 == requestSha256
  {
  }

  lemma BeginOpens(sha: Hash, journal: seq<Text>, q: SessionRequest, id: Text, requestSha256: Text, appends: bool)
    requires |journal| < MAX_U64
    ensures var w := J.Perform(sha, journal, BeginOp(q, id, requestSha256), appends);
            && (w.status == J.Ok ==> Opened(sha, journal, w.journal, q, id, requestSha256, Some(w.recordSha256)))
            && (w.status != J.Ok ==> w.journal == journal)
  {
    var s := J.ScanJournal(sha, journal);
    J.ScanLength(sha, journal);
    if s.healthy {
      JM.SoundIsRunning(sha, journal);
      JR.AppendIsPredicted(sha, journal, BeginOp(q, id, requestSha256), appends);
      if J.Decide(s, BeginOp(q, id, requestSha256)).Write? {
        DecidedBegin(s, q, id, requestSha256);
        JR.DecidedRecordIsGood(sha, s, BeginOp(q, id, requestSha256));
        ScannedBeginOpens(s, J.Sealed(sha, J.Decide(s, BeginOp(q, id, requestSha256)).record));
      }
    } else {
      DamagedRefusesBegin(s, q, id, requestSha256);
    }
  }

  lemma DamagedRefusesBegin(s: J.Scan, q: SessionRequest, id: Text, requestSha256: Text)
    requires s.next <= MAX_U64 && !s.healthy
    ensures J.Decide(s, BeginOp(q, id, requestSha256)).Refused?
    ensures J.Decide(s, BeginOp(q, id, requestSha256)).status != J.Ok
  {
  }

  /** What a terminal record copies from the request. */
  predicate Recordable(q: SessionRequest) {
    J.ValidCorrelation(q.correlationId) && 0 < |q.recordedAt| <= 128
  }

  /** A well-formed terminal of an open session is written, whatever the result's status. */
  lemma DecidedTerminal(s: J.Scan, q: SessionRequest, r: SessionResult, requestSha256: Text)
    requires s.next <= MAX_U64 && s.healthy && Recordable(q) && IsSha256(requestSha256) && IsSha256(r.audit)
    requires J.CanonicalSessionId(r.sessionId) && r.sessionId in s.open
    requires s.open[r.sessionId].correlationId == q.correlationId && s.open[r.sessionId].requestSha256 == requestSha256
    ensures var decision := J.Decide(s, FinishOp(q, r, requestSha256));
            && (decision.Write? <==> GoodEpisode(r.dojoEpisodeId))
            && (decision.Write? ==>
                  && decision.record.kind == TerminalKind(r.status) && decision.record.sessionId == r.sessionId
                  && decision.record.auditSha256 == r.audit && decision.record.terminalStatus == r.status.Name())
  {
  }

  lemma ScannedClose(s: J.Scan, r: J.Record)
    requires r.kind != J.Begin && J.ScanRecord(s, r).healthy
    ensures r.sessionId !in J.ScanRecord(s, r).open
  {
  }

  lemma ClosedByLine(sha: Hash, before: seq<Text>, s: J.Scan, record: J.Record, kind: J.Kind, r: SessionResult)
    requires J.ValidRecord(sha, record) && record.kind == kind && kind != J.Begin
    requires record.sessionId == r.sessionId && record.auditSha256 == r.audit && record.terminalStatus == r.status.Name()
    requires r.terminalRecord == Some(record.recordSha256)
    requires J.ScanRecord(s, record).healthy
    requires J.ScanJournal(sha, before + [J.Serialize(record)]) == J.ScanRecord(s, record)
    ensures EndsIn(sha, before, before + [J.Serialize(record)], kind, r)
  {
    JT.RecordRoundTrip(sha, record);
    ScannedClose(s, record);
  }

  /** The terminal record goes in exactly when it is well formed, matches the open session, and the disk accepts it. */
  lemma FinishCloses(sha: Hash, journal: seq<Text>, q: SessionRequest, r: SessionResult, requestSha256: Text, appends: bool)
    requires |journal| < MAX_U64 && Recordable(q) && IsSha256(requestSha256) && IsSha256(r.audit)
    requires J.CanonicalSessionId(r.sessionId) && IsOpen(sha, journal, r.sessionId, q.correlationId, requestSha256, r.beginRecord)
    ensures var w := J.Perform(sha, journal, FinishOp(q, r, requestSha256), appends);
            && (w.status == J.Ok <==> GoodEpisode(r.dojoEpisodeId) && appends)
            && (w.status == J.Ok ==> EndsIn(sha, journal, w.journal, TerminalKind(r.status), r.(terminalRecord := Some(w.recordSha256))))
            && (w.status != J.Ok ==> w.journal == journal)
  {
    var s, op := J.ScanJournal(sha, journal), FinishOp(q, r, requestSha256);
    JM.SoundIsRunning(sha, journal);
    JR.AppendIsPredicted(sha, journal, op, appends);
    DecidedTerminal(s, q, r, requestSha256);
    if J.Decide(s, op).Write? && appends {
      var record := J.Sealed(sha, J.Decide(s, op).record);
      JR.DecidedRecordIsGood(sha, s, op);
      ClosedByLine(sha, journal, s, record, TerminalKind(r.status), r.(terminalRecord := Some(record.recordSha256)));
    }
  }

  predicate GoodEpisode(id: Option<Text>) {
    id.Some? && id.value != [] ==> PrefixedSha256(id.value, J.DOJO_PREFIX)
  }

  // ----- the journal as the run uses it -----

  method StoreBegin(journal: JO.SessionJournalFile, q: SessionRequest, id: Text, requestSha256: Text, appends: bool)
    returns (status: J.Status, begin: Option<Text>)
    requires |journal.journal| < MAX_U64
    modifies journal
    ensures begin.Some? ==> Opened(journal.sha, old(journal.journal), journal.journal, q, id, requestSha256, begin)
    ensures begin.None? ==> journal.journal == old(journal.journal)
    ensures status == J.Perform(journal.sha, old(journal.journal), BeginOp(q, id, requestSha256), appends).status
    ensures begin.Some? <==> status == J.Ok
  {
    BeginOpens(journal.sha, journal.journal, q, id, requestSha256, appends);
    var record;
    status, record := journal.Execute(BeginOp(q, id, requestSha256), appends);
    begin := if status == J.Ok then Some(record) else None;
  }

  method StoreTerminal(journal: JO.SessionJournalFile, q: SessionRequest, r: SessionResult, requestSha256: Text, appends: bool)
    returns (terminal: Option<Text>)
    requires |journal.journal| < MAX_U64 && Recordable(q) && IsSha256(requestSha256) && IsSha256(r.audit)
    requires J.CanonicalSessionId(r.sessionId)
    requires IsOpen(journal.sha, journal.journal, r.sessionId, q.correlationId, requestSha256, r.beginRecord)
    modifies journal
    ensures terminal.Some? <==> GoodEpisode(r.dojoEpisodeId) && appends
    ensures terminal.Some? ==>
              EndsIn(journal.sha, old(journal.journal), journal.journal, TerminalKind(r.status), r.(terminalRecord := terminal))
    ensures terminal.None? ==> journal.journal == old(journal.journal)
  {
    FinishCloses(journal.sha, journal.journal, q, r, requestSha256, appends);
    var status, record := journal.Execute(FinishOp(q, r, requestSha256), appends);
    return if status == J.Ok then Some(record) else None;
  }

  // ----- the run -----

  /** The result's event list: the first events that fit the budget. */
  class EventLog {
    const budget: SessionBudget
    var events: seq<Event>
    var truncated: bool
    /** Every event, whether or not it was kept. */
    ghost var log: seq<Entry>

    ghost predicate Valid()
      reads this
    {
      events == Recorded(budget, log) && (truncated <==> |log| > budget.maxEvents)
    }

    constructor (budget: SessionBudget)
      ensures Valid() && this.budget == budget && log == []
    {
      this.budget, events, truncated, log := budget, [], false, [];
    }

    method Add(e: Entry)
      requires Valid()
      modifies this
      ensures Valid() && log == old(log) + [e]
    {
      RecordedGrows(budget, log, e);
      log := log + [e];
      if |events| >= budget.maxEvents {
        truncated := true;
        return;
      }
      var cut := if |e.detail| > budget.maxEventDetailBytes then e.detail[..budget.maxEventDetailBytes] else e.detail;
      events := events + [Event(|events|, e.stage, e.status, cut)];
    }
  }

  class SessionRun {
    const sha: Hash
    const q: SessionRequest
    const w: World
    const id: Text
    const requestSha256: Text
    /** Whether the request passes validation. */
    const valid: bool
    const journal: JO.SessionJournalFile?
    const story: EventLog
    /** Whether a journal text shows this session open under its contract. */
    ghost const openIn: seq<Text> -> bool
    var progress: Progress
    var audit: Text
    var journalOpen: bool
    var calls: seq<ForgeRequest>

    constructor (sha: Hash, q: SessionRequest, w: World, journal: JO.SessionJournalFile?)
      requires journal != null ==> journal.sha == sha
      ensures this.sha == sha && this.q == q && this.w == w && this.journal == journal && fresh(story)
      ensures id == SessionId(sha, q, w.hardwareId) && requestSha256 == RequestSha256(sha, q, w.hardwareId, w.printReal)
      ensures Identified() && Untold()
    {
      var session := SessionId(sha, q, w.hardwareId);
      var request := RequestSha256(sha, q, w.hardwareId, w.printReal);
      this.sha, this.q, this.w, this.journal := sha, q, w, journal;
      id, requestSha256, valid := session, request, ValidRequest(q);
      openIn := (j: seq<Text>) => HoldsOpen(sha, j, session, q.correlationId, request);
      story := new EventLog(q.budget);
      progress, audit, journalOpen, calls := UNSTARTED, [], false, [];
    }

    ghost predicate Named() {
      && id == Us().Id() && IsSha256(requestSha256) && story.budget == q.budget && (valid ==> Recordable(q))
      && (journal != null ==> journal.sha == sha)
    }

    ghost predicate Identified() {
      && Named() && valid == ValidRequest(q)
      && openIn == ((j: seq<Text>) => HoldsOpen(sha, j, id, q.correlationId, requestSha256))
    }

    function Us(): Setting {
      Setting(sha, q, w)
    }

    function Result(): SessionResult
      reads this, story
    {
      ResultOf(q.correlationId, id, progress, story.events, story.truncated, audit)
    }

    /** Nothing has happened yet. */
    ghost predicate Untold()
      reads this, story
    {
      !journalOpen && calls == [] && progress == UNSTARTED && story.log == [] && story.Valid()
    }

    /** With a journal attached, this session's BEGIN is in it and nothing has closed it. */
    ghost predicate Live()
      reads this, journal
    {
      (journalOpen <==> journal != null) && (journal != null ==> openIn(journal.journal))
    }

    method Abort(status: Status, reason: Text)
      requires story.Valid()
      modifies this`progress, story
      ensures story.Valid() && story.log == old(story.log) + [AbortEntry(status, reason)]
      ensures progress == old(progress).(status := status, reason := reason)
    {
      progress := progress.(status := status, reason := reason);
      story.Add(AbortEntry(status, reason));
    }

    // ----- the attempts -----

    /** The only place a request reaches the executor: the session must be open and the request within its contract. */
    method HandToExecutor(index: nat, request: ForgeRequest) returns (x: Execution)
      requires story.Valid() && Live() && InContract(q, request)
      modifies this`calls, story
      ensures calls == old(calls) + [request] && x == w.execute(index, request)
      ensures story.Valid() && story.log == old(story.log) + [AttemptEntry(index, request)]
    {
      story.Add(AttemptEntry(index, request));
      calls := calls + [request];
      return w.execute(index, request);
    }

    /** One attempt of the loop: plan it, execute what the plan allows, and report. */
    method MakeAttempt(index: nat, state: Text) returns (current: Z.Attempt, x: Option<(nat, Execution)>)
      requires story.Valid() && Live()
      modifies this`calls, story
      ensures current == Us().Callback()(index, state)
      ensures var plan := PlanAttempt(q, w, index, state);
              && calls == old(calls) + (if plan.Execute? then [plan.request] else [])
              && story.Valid() && story.log == old(story.log) + PlanLog(index, plan)
              && x == (if plan.Execute? then Some((index, w.execute(index, plan.request))) else None)
    {
      PlansStayInContract(q, w, index, state);
      match PlanAttempt(q, w, index, state)
      case Execute(request) =>
        var execution := HandToExecutor(index, request);
        return Tried(sha, q, w, index, state, request, execution), Some((index, execution));
      case Skip(attempt, rejected) =>
        if rejected.Some? {
          story.Add(RejectedEntry(rejected.value));
        }
        return attempt, None;
    }

    /** The run so far: `n` attempts, each planned, carried out and reported in turn. */
    ghost predicate Attempted(n: nat, earlier: seq<Entry>, latest: Option<(nat, Execution)>)
      reads this, story
    {
      calls == Us().Planned(n) && story.log == earlier + Us().AttemptsLog(n) && latest == Us().Latest(n)
    }

    /** The bounded attempt loop over this session's own attempts; each is made when the loop asks for it. */
    method Loop() returns (z: Z.ZenkaiResult, latest: Option<(nat, Execution)>)
      requires story.Valid() && Live() && calls == [] && id == Us().Id()
      modifies this`calls, story
      ensures Us().Looped(z) && Attempted(z.attempts, old(story.log), latest) && story.Valid()
    {
      var loop := new Z.ZenkaiLoop(q.zenkai, INITIAL_PREFIX + sha(id));
      latest := None;
      for index := 0 to Z.Effective(q.zenkai).maxAttempts
        invariant fresh(loop) && Underway(loop, index) && story.Valid()
        invariant Attempted(index, old(story.log), latest)
      {
        var ended;
        ended, latest := Round(loop, index, latest, old(story.log));
        if ended.Some? {
          return ended.value, latest;
        }
      }
      z := loop.Halt(q.zenkai, q.retryAuthority, Us().Callback(), Us().Initial(), Z.Effective(q.zenkai).maxAttempts);
    }

    /** The loop has made `n` attempts, more than one only with authority to retry, and none ended it. */
    ghost predicate Underway(loop: Z.ZenkaiLoop, n: nat)
      reads loop
    {
      loop.Reached(q.zenkai, Us().Callback(), Us().Initial(), n) && (n > 1 ==> q.retryAuthority == Z.Bounded)
    }

    /** One round of the loop: unless a retry is refused, make the attempt and let the loop weigh it. */
    method Round(loop: Z.ZenkaiLoop, index: nat, latest: Option<(nat, Execution)>, ghost earlier: seq<Entry>)
      returns (ended: Option<Z.ZenkaiResult>, latest': Option<(nat, Execution)>)
      requires story.Valid() && Live() && Underway(loop, index) && index < Z.Effective(q.zenkai).maxAttempts
      requires Attempted(index, earlier, latest)
      modifies this`calls, story, loop
      ensures story.Valid()
      ensures ended.None? ==> Underway(loop, index + 1) && Attempted(index + 1, earlier, latest')
      ensures ended.Some? ==> Us().Looped(ended.value) && Attempted(ended.value.attempts, earlier, latest')
    {
      if index > 0 && q.retryAuthority != Z.Bounded {
        var refused := loop.Halt(q.zenkai, q.retryAuthority, Us().Callback(), Us().Initial(), index);
        return Some(refused), latest;
      }
      Us().AttemptsLogGrows(index, earlier, loop.state);
      var current, x := MakeAttempt(index, loop.state);
      latest' := if x.Some? then x else latest;
      ended := loop.Take(q.zenkai, q.retryAuthority, Us().Callback(), Us().Initial(), index, current);
    }

    method RunAttempts() returns (latest: Option<(nat, Execution)>)
      requires story.Valid() && Live() && calls == [] && id == Us().Id()
      modifies this`progress, this`calls, story
      ensures progress == old(progress).(zenkai := progress.zenkai) && progress.zenkai.Some? && Us().Looped(progress.zenkai.value)
      ensures calls == Us().PlannedBy(progress.zenkai) && latest == Us().Latest(progress.zenkai.value.attempts)
      ensures story.Valid() && story.log == old(story.log) + Us().LoopLog(progress.zenkai.value)
    {
      var z;
      z, latest := Loop();
      progress := progress.(zenkai := Some(z));
      Us().LoopLogGrows(old(story.log), z);
      story.Add(VerifyingEntry(z));
    }

    // ----- artifacts and episode -----

    method PromoteOne(c: Candidate)
      requires story.Valid()
      modifies this`progress, story
      ensures progress == AfterCandidate(q.budget, old(progress), c)
      ensures story.Valid() && story.log == old(story.log) + [CandidateEntry(q.budget, ShelfOf(old(progress)), c)]
    {
      var e := CandidateEntry(q.budget, ShelfOf(progress), c);
      var next := SaturatingAdd(progress.promotedBytes, c.bytes);
      if !ValidArtifact(c) || |progress.artifacts| >= q.budget.maxArtifacts || next > q.budget.maxArtifactBytes {
        progress := progress.(rejectedArtifacts := progress.rejectedArtifacts + 1);
      } else {
        progress := progress.(artifacts := progress.artifacts + [Artifact(c.name, c.locator, c.sha256, c.bytes)], promotedBytes := next);
      }
      story.Add(e);
    }

    /** Promotes the valid candidates that fit the artifact budgets, in order. */
    method PromoteArtifacts(candidates: seq<Candidate>)
      requires story.Valid() && Bare(progress)
      modifies this`progress, story
      ensures progress == AfterCandidates(q.budget, old(progress), candidates)
      ensures story.Valid() && story.log == old(story.log) + PromotionLog(q.budget, candidates)
    {
      assert candidates[..0] == [];
      for i := 0 to |candidates|
        invariant progress == AfterCandidates(q.budget, old(progress), candidates[..i])
        invariant story.Valid() && story.log == old(story.log) + PromotionLog(q.budget, candidates[..i])
      {
        assert candidates[..i + 1][..i] == candidates[..i];
        ShelfIsPromoted(q.budget, old(progress), candidates[..i]);
        PromoteOne(candidates[i]);
      }
      assert candidates[..|candidates|] == candidates;
    }

    /** Artifacts are collected only from a verified run, and only from what it executed last. */
    method Promote(latest: Option<(nat, Execution)>)
      requires story.Valid() && progress.zenkai.Some? && latest == Us().Latest(progress.zenkai.value.attempts) && Bare(progress)
      modifies this`progress, story
      ensures progress.zenkai == old(progress.zenkai) && progress.dojoEpisodeId == old(progress.dojoEpisodeId)
      ensures progress == AfterCandidates(q.budget, old(progress), Us().Candidates(progress.zenkai.value))
      ensures story.Valid() && story.log == old(story.log) + PromotionLog(q.budget, Us().Candidates(progress.zenkai.value))
    {
      if progress.zenkai.value.verified && latest.Some? && w.collect.Some? {
        var candidates := w.collect.value(latest.value.0, latest.value.1);
        CandidatesOnly(q.budget, progress, candidates);
        PromoteArtifacts(candidates);
      }
    }

    method RecordEpisode()
      requires story.Valid() && w.routeAllowed && w.slotReady && progress.zenkai.Some? && progress.dojoEpisodeId.None?
      modifies this`progress, story
      ensures progress == Us().Judged(old(progress))
      ensures story.Valid() && story.log == old(story.log) + [Us().EpisodeEntry(), Us().Ending(progress.zenkai)]
    {
      story.Add(Us().EpisodeEntry());
      if w.dojoEpisode.None? {
        Abort(DojoStoreFailed, if w.dojoErrors == [] then EPISODE_FAILED else w.dojoErrors[0]);
        return;
      }
      progress := progress.(dojoEpisodeId := w.dojoEpisode);
      if !progress.zenkai.value.verified {
        Abort(VerificationFailed, NOT_VERIFIED + progress.zenkai.value.stop.Name());
        return;
      }
      progress := progress.(status := Status.Completed, reason := SESSION_COMPLETED);
      story.Add(Entry(CompletedStage, progress.status.Name(), progress.reason));
    }

    // ----- the run -----

    /** Routing, slot resolution, attempts, artifacts and episode: everything between BEGIN and the terminal record. */
    method Body()
      requires story.Valid() && Live() && id == Us().Id() && calls == [] && Bare(progress)
      requires progress.zenkai.None? && progress.dojoEpisodeId.None?
      modifies this`progress, this`calls, story
      ensures Us().Reaches(old(progress), progress, calls)
      ensures story.Valid() && story.log == old(story.log) + Us().BodyLog(progress.zenkai)
    {
      var admitted := Admit();
      if admitted {
        var latest := RunAttempts();
        Promote(latest);
        RecordEpisode();
        Us().FullBody(old(story.log), progress.zenkai.value);
        Us().RunsThrough(old(progress), progress.zenkai.value, calls);
      }
    }

    /** Routing and slot resolution; a run refused by either is aborted. */
    method Admit() returns (admitted: bool)
      requires story.Valid() && calls == [] && Bare(progress) && progress.zenkai.None? && progress.dojoEpisodeId.None?
      modifies this`progress, story
      ensures story.Valid() && (admitted <==> w.routeAllowed && w.slotReady)
      ensures admitted ==> progress == old(progress) && story.log == old(story.log) + [Us().RoutedEntry()] + [Us().SlotEntry()]
      ensures !admitted ==> Us().Reaches(old(progress), progress, []) && story.log == old(story.log) + Us().BodyLog(progress.zenkai)
    {
      story.Add(Us().RoutedEntry());
      if !w.routeAllowed {
        Us().ShortBody(old(story.log));
        Us().StopsShort(old(progress));
        Abort(RouteRejected, ROUTE_REFUSED + w.routeStatus);
        return false;
      }
      story.Add(Us().SlotEntry());
      if !w.slotReady {
        Us().ShortBody(old(story.log));
        Us().StopsShort(old(progress));
        Abort(Status.InvocationRejected, SLOT_REFUSED + w.slotReason);
        return false;
      }
      return true;
    }

    /** Freezes the audit of the result as it stands. */
    method Freeze()
      modifies this`audit
      ensures Audited()
    {
      audit := AuditDigest(sha, Result());
    }

    predicate Audited()
      reads this, story
    {
      audit == AuditDigest(sha, Result())
    }

    /** Freezes the audit, then asks the journal for COMMIT or ABORT. */
    method Close(appends: bool)
      requires story.Valid() && Named() && valid && journal != null && |journal.journal| < MAX_U64
      requires progress.terminalRecord.None? && progress.status != JournalStoreFailed
      requires IsOpen(sha, journal.journal, id, q.correlationId, requestSha256, progress.beginRecord)
      modifies this`progress, this`audit, story, journal
      ensures story.Valid() && Audited() && Outcome(old(journal.journal), journal.journal)
      ensures var closed := GoodEpisode(old(progress.dojoEpisodeId)) && appends;
              && progress == Us().Closed(old(progress), closed, progress.terminalRecord)
              && story.log == old(story.log) + [TerminalEntry(old(progress.status))] + Us().UnclosedLog(closed)
    {
      story.Add(TerminalEntry(progress.status));
      Freeze();
      var stored := AskToClose(appends);
      if !stored {
        Abort(JournalStoreFailed, w.endError);
        Freeze();
      }
    }

    method AskToClose(appends: bool) returns (stored: bool)
      requires Named() && valid && journal != null && |journal.journal| < MAX_U64
      requires progress.terminalRecord.None? && progress.status != JournalStoreFailed && Audited()
      requires IsOpen(sha, journal.journal, id, q.correlationId, requestSha256, progress.beginRecord)
      modifies this`progress, journal
      ensures Audited() && (stored <==> GoodEpisode(old(progress.dojoEpisodeId)) && appends)
      ensures progress == old(progress).(terminalRecord := progress.terminalRecord)
      ensures if stored then Outcome(old(journal.journal), journal.journal)
              else progress.terminalRecord.None? && journal.journal == old(journal.journal)
    {
      var terminal := StoreTerminal(journal, q, Result(), requestSha256, appends);
      progress := progress.(terminalRecord := terminal);
      return terminal.Some?;
    }

    /** Closed by the record the status calls for, or left open because that record could not be stored. */
    ghost predicate Outcome(mid: seq<Text>, last: seq<Text>)
      reads this, story
    {
      if progress.status == JournalStoreFailed then last == mid && progress.terminalRecord.None?
      else EndsIn(sha, mid, last, TerminalKind(progress.status), Result())
    }

    /** The run without a journal: nothing is recorded, and a recovery child is refused. */
    method RunUnjournaled()
      requires journal == null && Identified() && Untold()
      modifies this, story
      ensures Audited() && progress.beginRecord.None? && Us().InOrder(progress, calls)
      ensures if valid && !IsRecoveryChild(q) then Us().Reaches(UNSTARTED, progress, calls)
              else progress.status == Status.InvalidRequest && calls == []
      ensures story.Valid() && story.log == Us().UnjournaledLog(valid, progress.zenkai)
    {
      if !valid {
        Refuse(w.invalidError);
      } else if IsRecoveryChild(q) {
        Refuse(CHILD_NEEDS_JOURNAL);
      } else {
        RunAccepted();
      }
    }

    /** Refuses the request itself. */
    method Refuse(reason: Text)
      requires story.Valid() && progress == UNSTARTED
      modifies this`progress, this`audit, story
      ensures progress == UNSTARTED.(reason := reason) && Audited()
      ensures story.Valid() && story.log == old(story.log) + [AbortEntry(Status.InvalidRequest, reason)]
    {
      Abort(Status.InvalidRequest, reason);
      Freeze();
    }

    method RunAccepted()
      requires journal == null && id == Us().Id() && Untold() && !IsRecoveryChild(q)
      modifies this`progress, this`calls, this`audit, story
      ensures Us().Reaches(UNSTARTED, progress, calls) && Us().InOrder(progress, calls) && progress.beginRecord.None? && Audited()
      ensures story.Valid() && story.log == Us().UnjournaledLog(true, progress.zenkai)
    {
      story.Add(Us().CreatedEntry());
      Body();
      Us().ReachedCalls(UNSTARTED, progress, calls);
      Us().AcceptedLogIs(old(story.log), progress.zenkai);
      Freeze();
    }

    /**
     The run with a journal. The audit is always the digest of the result, and the events are the whole log cut to the
     event budget. Requests reach the executor only within the session's contract and only after its BEGIN is stored.
     The journal then shows the outcome: no BEGIN and no call; or BEGIN and COMMIT, exactly when the status is
     Completed; or BEGIN and ABORT; or a BEGIN left interrupted, exactly when the terminal record could not be stored.
     */
    method RunJournaled(beginAppends: bool, endAppends: bool)
      requires Identified() && journal != null && |journal.journal| < MAX_U64 - 1 && Untold()
      modifies this, story, journal
      ensures Audited() && story.Valid()
      ensures var begin := J.Perform(sha, old(journal.journal), BeginOp(q, id, requestSha256), beginAppends).status;
              var closed := endAppends && GoodEpisode(EpisodeOf(w));
              && (progress.beginRecord.Some? <==> valid && begin == J.Ok)
              && story.log == (if progress.beginRecord.None? then Us().RefusedLog(valid, begin) else Us().StoredLog(progress.zenkai, closed))
              && (progress.beginRecord.Some? ==> Us().Settles(progress, calls, closed))
      ensures progress.beginRecord.None? ==>
                && |calls| == 0 && journal.journal == old(journal.journal)
                && progress.status == if valid then JournalStoreFailed else Status.InvalidRequest
      ensures progress.beginRecord.Some? ==>
                exists mid :: Opened(sha, old(journal.journal), mid, q, id, requestSha256, progress.beginRecord)
                              && Outcome(mid, journal.journal)
    {
      var answer := Start(beginAppends);
      if progress.beginRecord.Some? {
        ghost var mid := journal.journal;
        RunOpened(endAppends);
        assert Outcome(mid, journal.journal);
      }
    }

    /** Validation and BEGIN; a run that gets no further is aborted and its audit frozen. */
    method Start(beginAppends: bool) returns (answer: J.Status)
      requires Identified() && journal != null && |journal.journal| < MAX_U64 - 1 && Untold()
      modifies this`progress, this`audit, this`journalOpen, story, journal
      ensures valid ==> answer == J.Perform(sha, old(journal.journal), BeginOp(q, id, requestSha256), beginAppends).status
      ensures story.Valid() && (progress.beginRecord.Some? <==> valid && answer == J.Ok)
      ensures progress.beginRecord.Some? ==> journalOpen && Live()
      ensures story.log == if progress.beginRecord.Some? then Us().OpeningLog() else Us().RefusedLog(valid, answer)
      ensures progress.beginRecord.Some? ==>
                && progress == UNSTARTED.(beginRecord := progress.beginRecord)
                && Opened(sha, old(journal.journal), journal.journal, q, id, requestSha256, progress.beginRecord)
      ensures progress.beginRecord.None? ==>
                && journal.journal == old(journal.journal) && Audited()
                && progress.status == if valid then JournalStoreFailed else Status.InvalidRequest
    {
      if !valid {
        Refuse(w.invalidError);
        Us().RefusedLogIs(old(story.log), valid, J.Invalid);
        return J.Invalid;
      }
      story.Add(Us().CreatedEntry());
      answer := AskToBegin(beginAppends);
      if answer == J.Ok {
        OpenedIsLive();
        Us().OpeningLogIs(old(story.log));
      } else {
        Us().RefusedLogIs(old(story.log), valid, answer);
      }
    }

    /** Asks the journal for BEGIN and notes the answer. */
    method AskToBegin(beginAppends: bool) returns (answer: J.Status)
      requires journal != null && journal.sha == sha && |journal.journal| < MAX_U64 - 1
      requires story.Valid() && !journalOpen && progress == UNSTARTED
      modifies this`progress, this`audit, this`journalOpen, story, journal
      ensures answer == J.Perform(sha, old(journal.journal), BeginOp(q, id, requestSha256), beginAppends).status
      ensures story.Valid() && story.log == old(story.log) + Us().AnswerLog(answer)
      ensures (journalOpen <==> answer == J.Ok) && (progress.beginRecord.Some? <==> answer == J.Ok)
      ensures answer == J.Ok ==>
                && progress == UNSTARTED.(beginRecord := progress.beginRecord)
                && Opened(sha, old(journal.journal), journal.journal, q, id, requestSha256, progress.beginRecord)
      ensures answer != J.Ok ==> journal.journal == old(journal.journal) && Audited() && progress.status == JournalStoreFailed
    {
      var begin;
      answer, begin := StoreBegin(journal, q, id, requestSha256, beginAppends);
      Begun(answer, begin);
    }

    /** Notes how the journal answered. */
    method Begun(answer: J.Status, begin: Option<Text>)
      requires story.Valid() && (begin.Some? <==> answer == J.Ok) && !journalOpen && progress == UNSTARTED
      modifies this`progress, this`audit, this`journalOpen, story
      ensures story.Valid() && story.log == old(story.log) + Us().AnswerLog(answer) && (journalOpen <==> begin.Some?)
      ensures begin.Some? ==> progress == UNSTARTED.(beginRecord := begin)
      ensures begin.None? ==> progress == UNSTARTED.(status := JournalStoreFailed, reason := w.beginError) && Audited()
    {
      if begin.None? {
        story.Add(Entry(JournalBegin, answer.Name(), w.beginError));
        Abort(JournalStoreFailed, w.beginError);
        Freeze();
        return;
      }
      journalOpen := true;
      progress := progress.(beginRecord := begin);
      story.Add(Us().BegunEntry());
    }

    /** From the stored BEGIN to the terminal record. */
    method RunOpened(endAppends: bool)
      requires story.Valid() && Named() && valid && journal != null && |journal.journal| < MAX_U64 && Live()
      requires journalOpen && calls == [] && progress == UNSTARTED.(beginRecord := progress.beginRecord)
      requires IsOpen(sha, journal.journal, id, q.correlationId, requestSha256, progress.beginRecord)
      modifies this`progress, this`audit, this`calls, story, journal
      ensures story.Valid() && Audited() && progress.beginRecord == old(progress.beginRecord)
      ensures var closed := endAppends && GoodEpisode(EpisodeOf(w));
              Us().Settles(progress, calls, closed) && story.log == Us().ClosedLog(old(story.log), progress.zenkai, closed)
      ensures Outcome(old(journal.journal), journal.journal)
    {
      Body();
      ghost var decided := progress;
      Us().ReachedStatus(old(progress), decided, calls);
      Close(endAppends);
      Us().SettlesSo(decided, progress, calls, endAppends && GoodEpisode(EpisodeOf(w)));
    }

    lemma OpenedIsLive()
      requires Identified() && journal != null
      requires IsOpen(sha, journal.journal, id, q.correlationId, requestSha256, progress.beginRecord)
      ensures openIn(journal.journal)
    {
    }
  }
}
