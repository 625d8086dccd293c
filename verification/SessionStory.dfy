/** What one session run has to tell: its executor calls, its artifacts, and every event, in the words the audit digest covers. */
module SessionStory {
  import opened Wrappers
  import opened Text
  import opened HashChain
  import opened Forge
  import opened ExecutionSession
  import Z = Zenkai
  import J = SessionJournal

  // ----- events as they are kept -----

  datatype Entry = Entry(stage: Stage, status: Text, detail: Text)

  function EventAt(b: SessionBudget, log: seq<Entry>, i: nat): Event
    requires i < |log|
  {
    Event(i, log[i].stage, log[i].status, Z.Cut(log[i].detail, b.maxEventDetailBytes))
  }

  /** The first entries that fit the event budget, numbered, their details cut. */
  function Recorded(b: SessionBudget, log: seq<Entry>): seq<Event> {
    seq(Z.Min(|log|, b.maxEvents), i requires 0 <= i < Z.Min(|log|, b.maxEvents) => EventAt(b, log, i))
  }

  lemma RecordedGrows(b: SessionBudget, log: seq<Entry>, e: Entry)
    ensures Recorded(b, log + [e])
         == if |log| < b.maxEvents then Recorded(b, log) + [EventAt(b, log + [e], |log|)] else Recorded(b, log)
  {
    assert forall i | 0 <= i < |log| :: EventAt(b, log + [e], i) == EventAt(b, log, i);
  }

  // ----- the words -----

  const INITIAL_PREFIX: Text := "guff:execution:sha256:"

  // Literals of more than about fifty bytes are written in parts, as in ExecutionSession.
  const SESSION_CREATED: Text := "SESSION_CREATED"
  const ACCEPTED: Text := "correlated transaction accepted"
  const CHILD_ACCEPTED: Text := "fresh recovery-child transaction accepted"
  const CHILD_NEEDS_JOURNAL: Text := "recovery child requires a" + " transaction journal" + " to prove fresh authority"
  const BEGIN_COMMITTED: Text := "durable BEGIN" + COMMITTED
  const CHILD_COMMITTED: Text := "authorized recovery-child BEGIN" + COMMITTED
  const COMMITTED: Text := " committed before routing/execution"
  const ROUTE_REFUSED: Text := "CADDY route does not authorize " + "autonomous execution: "
  const SLOT_REFUSED: Text := "CLUBHOUSE rejected the base invocation: "
  const NOT_VERIFIED: Text := "ZENKAI did not produce a verified" + " terminal state: "
  const SESSION_COMPLETED: Text := "correlated execution session" + " completed and committed to DOJO"
  const EPISODE_COMMITTED: Text := "DOJO episode committed"
  const EPISODE_REJECTED: Text := "DOJO store rejected episode"
  const EPISODE_FAILED: Text := "DOJO failed to commit the session episode"
  const COMMIT: Text := "COMMIT"
  const ABORT: Text := "ABORT"
  const TERMINAL_REQUESTED: Text := "terminal journal record requested" + " after audit freeze"
  const ATTEMPT: Text := "ATTEMPT"
  const RETRY_REJECTED: Text := "RETRY_REJECTED"
  const ARTIFACT_REJECTED: Text := "ARTIFACT_REJECTED"
  const ARTIFACT_PROMOTED: Text := "ARTIFACT_PROMOTED"
  const UNNAMED: Text := "unnamed artifact"
  const SHA256_EQUALS: Text := " sha256="
  const ATTEMPT_NUMBER: Text := "attempt="
  const INVOCATION_ID: Text := " invocation="
  const ATTEMPTS: Text := "attempts="
  const IS_VERIFIED: Text := " verified="

  function AttemptEntry(index: nat, request: ForgeRequest): Entry {
    Entry(Executing, ATTEMPT, ATTEMPT_NUMBER + Dec(index) + INVOCATION_ID + request.invocation.invocationId)
  }

  function RejectedEntry(reason: Text): Entry {
    Entry(Executing, RETRY_REJECTED, reason)
  }

  function PlanLog(index: nat, plan: Plan): seq<Entry> {
    match plan
    case Execute(request) => [AttemptEntry(index, request)]
    case Skip(_, Some(reason)) => [RejectedEntry(reason)]
    case Skip(_, None) => []
  }

  function VerifyingEntry(z: Z.ZenkaiResult): Entry {
    Entry(Verifying, z.stop.Name(), ATTEMPTS + Dec(z.attempts) + IS_VERIFIED + (if z.verified then "yes" else "no"))
  }

  function CandidateEntry(b: SessionBudget, s: Shelf, c: Candidate): Entry {
    if Fits(b, s, c) then Entry(ArtifactPromotion, ARTIFACT_PROMOTED, c.name + SHA256_EQUALS + c.sha256)
    else Entry(ArtifactPromotion, ARTIFACT_REJECTED, if c.name == [] then UNNAMED else c.name)
  }

  function PromotionLog(b: SessionBudget, cs: seq<Candidate>): seq<Entry> {
    if cs == [] then []
    else PromotionLog(b, cs[..|cs| - 1]) + [CandidateEntry(b, Promoted(b, cs[..|cs| - 1]), cs[|cs| - 1])]
  }

  function AbortEntry(status: Status, reason: Text): Entry {
    Entry(Aborted, status.Name(), reason)
  }

  function TerminalEntry(status: Status): Entry {
    Entry(JournalTerminal, if status == Status.Completed then COMMIT else ABORT, TERMINAL_REQUESTED)
  }

  // ----- a run as it goes along -----

  /** A result before its events and audit. */
  datatype Progress = Progress(
    status: Status, reason: Text, zenkai: Option<Z.ZenkaiResult>, artifacts: seq<Artifact>, rejectedArtifacts: nat,
    promotedBytes: u64, dojoEpisodeId: Option<Text>, beginRecord: Option<Text>, terminalRecord: Option<Text>)

  const UNSTARTED := Progress(Status.InvalidRequest, [], None, [], 0, 0, None, None, None)

  function ResultOf(correlationId: Text, id: Text, p: Progress, events: seq<Event>, truncated: bool, audit: Text): SessionResult {
    SessionResult(p.status, correlationId, id, p.zenkai, p.artifacts, p.rejectedArtifacts, p.promotedBytes, events, truncated,
                  p.dojoEpisodeId, p.beginRecord, p.terminalRecord, audit, p.reason)
  }

  function ShelfOf(p: Progress): Shelf {
    Shelf(p.artifacts, p.promotedBytes)
  }

  predicate Bare(p: Progress) {
    p.artifacts == [] && p.rejectedArtifacts == 0 && p.promotedBytes == 0
  }

  function AfterCandidate(b: SessionBudget, p: Progress, c: Candidate): Progress {
    if Fits(b, ShelfOf(p), c)
    then p.(artifacts := p.artifacts + [Artifact(c.name, c.locator, c.sha256, c.bytes)],
            promotedBytes := SaturatingAdd(p.promotedBytes, c.bytes))
    else p.(rejectedArtifacts := p.rejectedArtifacts + 1)
  }

  function AfterCandidates(b: SessionBudget, p: Progress, cs: seq<Candidate>): Progress {
    if cs == [] then p else AfterCandidate(b, AfterCandidates(b, p, cs[..|cs| - 1]), cs[|cs| - 1])
  }

  /** What the run keeps of what the collector offered: what the budgets promote, every other candidate counted. */
  lemma {:induction false} ShelfIsPromoted(b: SessionBudget, p: Progress, cs: seq<Candidate>)
    requires Bare(p)
    ensures var p' := AfterCandidates(b, p, cs);
            && ShelfOf(p') == Promoted(b, cs) && p'.rejectedArtifacts + |p'.artifacts| == |cs|
            && p' == p.(artifacts := p'.artifacts, rejectedArtifacts := p'.rejectedArtifacts, promotedBytes := p'.promotedBytes)
  {
    if cs != [] {
      ShelfIsPromoted(b, p, cs[..|cs| - 1]);
    }
  }

  lemma CandidatesOnly(b: SessionBudget, p: Progress, cs: seq<Candidate>)
    requires Bare(p)
    ensures AfterCandidates(b, p, cs).zenkai == p.zenkai && AfterCandidates(b, p, cs).dojoEpisodeId == p.dojoEpisodeId
  {
    ShelfIsPromoted(b, p, cs);
  }

  // ----- a run and what it tells -----

  datatype Setting = Setting(sha: Hash, q: SessionRequest, w: World) {
    function Id(): (id: Text)
      ensures J.CanonicalSessionId(id)
    {
      SessionId(sha, q, w.hardwareId)
    }

    /** The state the attempt loop starts from. */
    function Initial(): Text {
      INITIAL_PREFIX + sha(Id())
    }

    /** The attempts as the loop asks for them. */
    function Callback(): (nat, Text) -> Z.Attempt {
      (n: nat, s: Text) => AttemptOf(sha, q, w, n, s)
    }

    function StateAt(n: nat): Text {
      Z.StateBefore(Callback(), Initial(), n)
    }

    function PlanAt(n: nat): Plan {
      PlanAttempt(q, w, n, StateAt(n))
    }

    /** The requests the first `n` attempts hand to the executor. */
    function Planned(n: nat): seq<ForgeRequest> {
      if n == 0 then [] else Planned(n - 1) + (if PlanAt(n - 1).Execute? then [PlanAt(n - 1).request] else [])
    }

    /** The last execution among the first `n` attempts. */
    function Latest(n: nat): Option<(nat, Execution)> {
      if n == 0 then None
      else if PlanAt(n - 1).Execute? then Some((n - 1, w.execute(n - 1, PlanAt(n - 1).request)))
      else Latest(n - 1)
    }

    function AttemptsLog(n: nat): seq<Entry> {
      if n == 0 then [] else AttemptsLog(n - 1) + PlanLog(n - 1, PlanAt(n - 1))
    }

    function PlannedBy(z: Option<Z.ZenkaiResult>): seq<ForgeRequest> {
      if z.Some? then Planned(z.value.attempts) else []
    }

    /** What the collector offers: nothing unless the run is verified and something was executed. */
    function Candidates(z: Z.ZenkaiResult): seq<Candidate> {
      if z.verified && Latest(z.attempts).Some? && w.collect.Some?
      then w.collect.value(Latest(z.attempts).value.0, Latest(z.attempts).value.1) else []
    }

    function Offered(z: Option<Z.ZenkaiResult>): seq<Candidate> {
      if z.Some? then Candidates(z.value) else []
    }

    function EpisodeDetail(): Text {
      if w.dojoEpisode.Some? then EPISODE_COMMITTED else if w.dojoErrors == [] then EPISODE_REJECTED else w.dojoErrors[0]
    }

    /** Why a run whose BEGIN is stored ends as it does. */
    function Reason(z: Option<Z.ZenkaiResult>): Text {
      match StatusOf(w, z)
      case RouteRejected => ROUTE_REFUSED + w.routeStatus
      case InvocationRejected => SLOT_REFUSED + w.slotReason
      case DojoStoreFailed => if w.dojoErrors == [] then EPISODE_FAILED else w.dojoErrors[0]
      case Completed => SESSION_COMPLETED
      case _ => if z.Some? then NOT_VERIFIED + z.value.stop.Name() else []
    }

    function Ending(z: Option<Z.ZenkaiResult>): Entry {
      Entry(if StatusOf(w, z) == Status.Completed then CompletedStage else Aborted, StatusOf(w, z).Name(), Reason(z))
    }

    function LoopLog(z: Z.ZenkaiResult): seq<Entry> {
      AttemptsLog(z.attempts) + [VerifyingEntry(z)]
    }

    function RoutedEntry(): Entry {
      Entry(Routed, w.routeStatus, w.routeReason)
    }

    function SlotEntry(): Entry {
      Entry(SlotResolved, w.slotStatus, w.slotReason)
    }

    function EpisodeEntry(): Entry {
      Entry(DojoRecord, w.dojoStatus, EpisodeDetail())
    }

    /** Everything between BEGIN and the terminal record. */
    function BodyLog(z: Option<Z.ZenkaiResult>): seq<Entry> {
      [RoutedEntry()]
      + (if !w.routeAllowed then [] else [SlotEntry()])
      + (if w.routeAllowed && w.slotReady && z.Some?
         then LoopLog(z.value) + PromotionLog(q.budget, Candidates(z.value)) + [EpisodeEntry()]
         else [])
      + [Ending(z)]
    }

    function CreatedEntry(): Entry {
      Entry(Created, SESSION_CREATED, if IsRecoveryChild(q) then CHILD_ACCEPTED else ACCEPTED)
    }

    function BegunEntry(): Entry {
      Entry(JournalBegin, J.Status.Ok.Name(), if IsRecoveryChild(q) then CHILD_COMMITTED else BEGIN_COMMITTED)
    }

    /** What the journal's answer to BEGIN leaves in the log. */
    function AnswerLog(answer: J.Status): seq<Entry> {
      if answer == J.Ok then [BegunEntry()]
      else [Entry(JournalBegin, answer.Name(), w.beginError), AbortEntry(JournalStoreFailed, w.beginError)]
    }

    /** A run that got no further than asking the journal for its BEGIN. */
    function RefusedLog(valid: bool, answer: J.Status): seq<Entry> {
      if !valid then [AbortEntry(Status.InvalidRequest, w.invalidError)] else [CreatedEntry()] + AnswerLog(answer)
    }

    function OpeningLog(): seq<Entry> {
      [CreatedEntry(), BegunEntry()]
    }

    function UnclosedLog(closed: bool): seq<Entry> {
      if closed then [] else [AbortEntry(JournalStoreFailed, w.endError)]
    }

    /** From the stored BEGIN to the terminal record, which may not have been stored. */
    function ClosedLog(earlier: seq<Entry>, z: Option<Z.ZenkaiResult>, closed: bool): seq<Entry> {
      earlier + BodyLog(z) + [TerminalEntry(StatusOf(w, z))] + UnclosedLog(closed)
    }

    /** A run whose BEGIN was stored. */
    function StoredLog(z: Option<Z.ZenkaiResult>, closed: bool): seq<Entry> {
      ClosedLog(OpeningLog(), z, closed)
    }

    /** A run without a journal. */
    function UnjournaledLog(valid: bool, z: Option<Z.ZenkaiResult>): seq<Entry> {
      if !valid then [AbortEntry(Status.InvalidRequest, w.invalidError)]
      else if IsRecoveryChild(q) then [AbortEntry(Status.InvalidRequest, CHILD_NEEDS_JOURNAL)]
      else [CreatedEntry()] + BodyLog(z)
    }

    lemma RefusedLogIs(earlier: seq<Entry>, valid: bool, answer: J.Status)
      requires earlier == []
      ensures (if valid then earlier + [CreatedEntry()] + AnswerLog(answer) else earlier + [AbortEntry(Status.InvalidRequest, w.invalidError)])
           == RefusedLog(valid, answer)
    {
    }

    lemma OpeningLogIs(earlier: seq<Entry>)
      requires earlier == []
      ensures earlier + [CreatedEntry()] + AnswerLog(J.Ok) == OpeningLog()
    {
      OpeningPair(earlier, CreatedEntry(), BegunEntry());
    }

    lemma OpeningPair(earlier: seq<Entry>, first: Entry, second: Entry)
      requires earlier == []
      ensures earlier + [first] + [second] == [first, second]
    {
    }

    lemma AcceptedLogIs(earlier: seq<Entry>, z: Option<Z.ZenkaiResult>)
      requires earlier == [] && !IsRecoveryChild(q)
      ensures earlier + [CreatedEntry()] + BodyLog(z) == UnjournaledLog(true, z)
    {
      OpeningOne(earlier, CreatedEntry());
    }

    lemma OpeningOne(earlier: seq<Entry>, first: Entry)
      requires earlier == []
      ensures earlier + [first] == [first]
    {
    }

    lemma AttemptsLogGrows(n: nat, earlier: seq<Entry>, state: Text)
      requires state == StateAt(n)
      ensures PlanAttempt(q, w, n, state) == PlanAt(n)
      ensures earlier + AttemptsLog(n) + PlanLog(n, PlanAt(n)) == earlier + AttemptsLog(n + 1)
    {
    }

    lemma LoopLogGrows(earlier: seq<Entry>, z: Z.ZenkaiResult)
      ensures earlier + AttemptsLog(z.attempts) + [VerifyingEntry(z)] == earlier + LoopLog(z)
    {
    }

    /** The body of a run that never reached its attempts. */
    lemma ShortBody(earlier: seq<Entry>)
      requires !(w.routeAllowed && w.slotReady)
      ensures !w.routeAllowed ==> earlier + [RoutedEntry()] + [Ending(None)] == earlier + BodyLog(None)
      ensures w.routeAllowed ==>
                earlier + [RoutedEntry()] + [SlotEntry()] + [Ending(None)]
                == earlier + BodyLog(None)
    {
    }

    /** The body of a run that made its attempts. */
    lemma FullBody(earlier: seq<Entry>, z: Z.ZenkaiResult)
      requires w.routeAllowed && w.slotReady
      ensures earlier + [RoutedEntry()] + [SlotEntry()]
              + LoopLog(z) + PromotionLog(q.budget, Candidates(z)) + [EpisodeEntry(), Ending(Some(z))]
           == earlier + BodyLog(Some(z))
    {
    }

    /** The loop result is the bounded attempt loop's over this session's own attempts. */
    predicate Looped(z: Z.ZenkaiResult) {
      Z.Concludes(q.zenkai, q.retryAuthority, Callback(), Initial(), z)
    }

    /** Everything planned keeps the session's contract, and an executed last attempt leaves its request. */
    lemma {:induction false} PlannedInContract(n: nat)
      ensures forall k | 0 <= k < |Planned(n)| :: InContract(q, Planned(n)[k])
      ensures n > 0 && PlanAt(n - 1).Execute? ==> |Planned(n)| > 0 && Latest(n).Some?
    {
      if n > 0 {
        PlannedInContract(n - 1);
        PlansStayInContract(q, w, n - 1, StateAt(n - 1));
      }
    }

    /** An accepted attempt passed verification, so it was not one of those skipped without an execution. */
    lemma AcceptedAttemptExecuted(z: Z.ZenkaiResult)
      requires Looped(z) && z.verified
      ensures PlanAt(z.attempts - 1).Execute?
    {
      Z.VerifiedPassed(q.zenkai, q.retryAuthority, Callback(), Initial(), z);
      if PlanAt(z.attempts - 1).Skip? {
        SkippedAttemptFails(sha, q, w, z.attempts - 1, StateAt(z.attempts - 1));
      }
    }

    // ----- how a run comes out -----

    /** The verdict on a run that got as far as its attempts and its promotion. */
    function Judged(p: Progress): Progress {
      p.(status := StatusOf(w, p.zenkai), reason := Reason(p.zenkai), dojoEpisodeId := EpisodeOf(w))
    }

    /** The loop ran if the run got that far, and these are the calls it planned. */
    predicate Ran(z: Option<Z.ZenkaiResult>, calls: seq<ForgeRequest>) {
      && (z.Some? <==> w.routeAllowed && w.slotReady) && (z.Some? ==> Looped(z.value))
      && calls == PlannedBy(z)
    }

    /** What the body makes of a fresh run: the loop's outcome, the artifacts kept of what was offered, the verdict. */
    function Decision(p: Progress, z: Option<Z.ZenkaiResult>): Progress {
      Judged(AfterCandidates(q.budget, p.(zenkai := z), Offered(z)))
    }

    predicate Reaches(p: Progress, p': Progress, calls: seq<ForgeRequest>) {
      Ran(p'.zenkai, calls) && p' == Decision(p, p'.zenkai)
    }

    lemma StopsShort(p: Progress)
      requires !(w.routeAllowed && w.slotReady) && p.zenkai.None? && p.dojoEpisodeId.None?
      ensures Reaches(p, p.(status := StatusOf(w, None), reason := Reason(None)), [])
    {
    }

    lemma RunsThrough(p: Progress, z: Z.ZenkaiResult, calls: seq<ForgeRequest>)
      requires w.routeAllowed && w.slotReady && Looped(z) && calls == PlannedBy(Some(z)) && Bare(p)
      ensures Reaches(p, Judged(AfterCandidates(q.budget, p.(zenkai := Some(z)), Candidates(z))), calls)
    {
      CandidatesOnly(q.budget, p.(zenkai := Some(z)), Candidates(z));
    }

    /** Every call keeps the session's contract, and nothing completes without a call and a verified loop. */
    predicate InOrder(p: Progress, calls: seq<ForgeRequest>) {
      && (forall k | 0 <= k < |calls| :: InContract(q, calls[k]))
      && (p.status == Status.Completed ==> |calls| > 0 && p.zenkai.Some? && p.zenkai.value.verified)
    }

    lemma ReachedStatus(p: Progress, p': Progress, calls: seq<ForgeRequest>)
      requires Reaches(p, p', calls) && Bare(p)
      ensures p'.status == StatusOf(w, p'.zenkai) && p'.dojoEpisodeId == EpisodeOf(w)
      ensures p'.beginRecord == p.beginRecord && p'.terminalRecord == p.terminalRecord
    {
      ShelfIsPromoted(q.budget, p.(zenkai := p'.zenkai), Offered(p'.zenkai));
    }

    /** What a run's executor calls amount to. */
    lemma ReachedCalls(p: Progress, p': Progress, calls: seq<ForgeRequest>)
      requires Reaches(p, p', calls) && Bare(p)
      ensures InOrder(p', calls)
      ensures p'.status == StatusOf(w, p'.zenkai) && p'.dojoEpisodeId == EpisodeOf(w)
      ensures p'.beginRecord == p.beginRecord && p'.terminalRecord == p.terminalRecord
    {
      ShelfIsPromoted(q.budget, p.(zenkai := p'.zenkai), Offered(p'.zenkai));
      if p'.zenkai.Some? {
        PlannedInContract(p'.zenkai.value.attempts);
        if p'.zenkai.value.verified {
          AcceptedAttemptExecuted(p'.zenkai.value);
        }
      }
    }

    /** The verdict stands once the terminal record is stored, and is overruled when it could not be. */
    function Closed(p: Progress, closed: bool, terminal: Option<Text>): Progress {
      (if closed then p else p.(status := JournalStoreFailed, reason := w.endError)).(terminalRecord := terminal)
    }

    predicate Settles(p: Progress, calls: seq<ForgeRequest>, closed: bool) {
      Ran(p.zenkai, calls) && p == Closed(Decision(UNSTARTED.(beginRecord := p.beginRecord), p.zenkai), closed, p.terminalRecord)
    }

    lemma SettlesSo(decided: Progress, p: Progress, calls: seq<ForgeRequest>, closed: bool)
      requires Reaches(UNSTARTED.(beginRecord := p.beginRecord), decided, calls)
      requires p == Closed(decided, closed, p.terminalRecord)
      ensures Settles(p, calls, closed)
    {
    }

    /** A run that began makes only calls within its contract, and completes only with a call and a verified loop. */
    lemma SettledInOrder(p: Progress, calls: seq<ForgeRequest>, closed: bool)
      requires Settles(p, calls, closed)
      ensures InOrder(p, calls)
    {
      var begun := UNSTARTED.(beginRecord := p.beginRecord);
      ShelfIsPromoted(q.budget, begun.(zenkai := p.zenkai), Offered(p.zenkai));
      ReachedCalls(begun, Decision(begun, p.zenkai), calls);
    }
  }
}
