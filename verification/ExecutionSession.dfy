/**
 One execution session: validate, journal BEGIN, route, resolve, attempt, promote artifacts, record the episode,
 and journal the outcome. The collaborators' answers (router, slot registry, retry planner, executor, verifier, artifact
 collector, episode store) are inputs; the journal is the real one.
 */
module ExecutionSession {
  import opened Wrappers
  import opened Text
  import opened HashChain
  import opened Forge
  import Ordering
  import Z = Zenkai
  import J = SessionJournal

  datatype SessionBudget = SessionBudget(maxEvents: u64, maxEventDetailBytes: u64, maxArtifacts: u64, maxArtifactBytes: u64)

  datatype SessionRequest = SessionRequest(
    correlationId: Text, routeTask: nat, profileName: Text, forge: ForgeRequest, zenkai: Z.Budget, retryAuthority: Z.RetryAuthority,
    budget: SessionBudget, summary: Text, recordedAt: Text, dojoTags: seq<Text>, parentSessionId: Text, recoveryAuthorization: Text)

  datatype Status =
    | Completed | InvalidRequest | RouteRejected | InvocationRejected | VerificationFailed | DojoStoreFailed | JournalStoreFailed
  {
    function Code(): nat {
      match this
      case Completed => 0
      case InvalidRequest => 1
      case RouteRejected => 2
      case InvocationRejected => 3
      case VerificationFailed => 4
      case DojoStoreFailed => 5
      case JournalStoreFailed => 6
    }

    function Name(): Text {
      match this
      case Completed => "COMPLETED"
      case InvalidRequest => "INVALID_REQUEST"
      case RouteRejected => "ROUTE_REJECTED"
      case InvocationRejected => "INVOCATION_REJECTED"
      case VerificationFailed => "VERIFICATION_FAILED"
      case DojoStoreFailed => "DOJO_STORE_FAILED"
      case JournalStoreFailed => "JOURNAL_STORE_FAILED"
    }
  }

  datatype Stage =
    | Created | JournalBegin | Routed | SlotResolved | Executing | Verifying | ArtifactPromotion | DojoRecord | JournalTerminal
    | CompletedStage | Aborted
  {
    function Code(): nat {
      match this
      case Created => 0
      case JournalBegin => 1
      case Routed => 2
      case SlotResolved => 3
      case Executing => 4
      case Verifying => 5
      case ArtifactPromotion => 6
      case DojoRecord => 7
      case JournalTerminal => 8
      case CompletedStage => 9
      case Aborted => 10
    }
  }

  datatype Event = Event(sequence: nat, stage: Stage, status: Text, detail: Text)

  datatype Artifact = Artifact(name: Text, locator: Text, sha256: Text, bytes: u64)

  datatype SessionResult = SessionResult(
    status: Status, correlationId: Text, sessionId: Text, zenkai: Option<Z.ZenkaiResult>, artifacts: seq<Artifact>,
    rejectedArtifacts: nat, promotedBytes: u64, events: seq<Event>, eventsTruncated: bool, dojoEpisodeId: Option<Text>,
    beginRecord: Option<Text>, terminalRecord: Option<Text>, audit: Text, reason: Text)

  // ----- identities -----

  function LinesOf(fields: seq<Text>): Text {
    if fields == [] then [] else fields[0] + "\n" + LinesOf(fields[1..])
  }

  function ContractFields(q: SessionRequest): seq<Text> {
    var v := q.forge.invocation;
    [v.slotId, Dec(v.capability), Dec(v.layer), v.inputSha256, Dec(v.payloadBytes)]
  }

  function SessionId(sha: Hash, q: SessionRequest, hardwareId: Text): (id: Text)
    ensures J.CanonicalSessionId(id)
  {
    var digest := sha(LinesOf([q.correlationId, hardwareId, Dec(q.routeTask), q.profileName, q.forge.invocation.invocationId]
                              + ContractFields(q) + [q.parentSessionId]) + q.recoveryAuthorization);
    assert (J.SESSION_ID_PREFIX + digest)[|J.SESSION_ID_PREFIX|..] == digest;
    J.SESSION_ID_PREFIX + digest
  }

  /** The request hash; `printReal` renders the confidence threshold. */
  function RequestSha256(sha: Hash, q: SessionRequest, hardwareId: Text, printReal: real -> Text): (d: Text)
    ensures IsSha256(d)
  {
    var z, s := q.zenkai, q.budget;
    sha(LinesOf([SessionId(sha, q, hardwareId), hardwareId, Dec(q.routeTask), q.profileName] + ContractFields(q)
                + [Dec(q.forge.maxWallTimeMs), Dec(q.forge.maxOutputBytes),
                   Dec(z.maxAttempts), Dec(z.maxToolEvents), Dec(z.maxEvidenceItems), Dec(z.maxEvidenceBytes),
                   Dec(z.maxTraceEntries), printReal(z.acceptance), Dec(z.maxDetailBytes), Dec(q.retryAuthority.Code()),
                   Dec(s.maxEvents), Dec(s.maxEventDetailBytes), Dec(s.maxArtifacts), Dec(s.maxArtifactBytes),
                   q.parentSessionId, q.recoveryAuthorization] + Ordering.Sort(q.forge.invocation.permissions)))
  }

  function EventText(e: Event): Text {
    Dec(e.sequence) + "|" + Dec(e.stage.Code()) + "|" + e.status + "|" + e.detail + "\n"
  }

  function EventsText(events: seq<Event>): Text {
    if events == [] then [] else EventText(events[0]) + EventsText(events[1..])
  }

  function ArtifactsText(artifacts: seq<Artifact>): Text {
    if artifacts == [] then []
    else artifacts[0].name + "|" + artifacts[0].locator + "|" + artifacts[0].sha256 + "|" + Dec(artifacts[0].bytes) + "\n"
         + ArtifactsText(artifacts[1..])
  }

  function HeadText(r: SessionResult): Text {
    LinesOf([r.sessionId, r.correlationId, Dec(r.status.Code()), r.reason])
  }

  function TruncatedText(truncated: bool): Text {
    "events_truncated=" + (if truncated then "1\n" else "0\n")
  }

  function RejectedText(rejected: nat): Text {
    "rejected_artifacts=" + Dec(rejected) + "\n"
  }

  function EpisodeText(id: Option<Text>): Text {
    if id.Some? then id.value + "\n" else []
  }

  /** The digest of a result: everything but the journal receipts and the digest itself. */
  function AuditDigest(sha: Hash, r: SessionResult): (d: Text)
    ensures IsSha256(d)
  {
    sha(HeadText(r) + EventsText(r.events) + TruncatedText(r.eventsTruncated) + ArtifactsText(r.artifacts)
        + RejectedText(r.rejectedArtifacts) + EpisodeText(r.dojoEpisodeId))
  }

  // ----- validation -----

  predicate Correlated(correlationId: Text, invocationId: Text) {
    && |correlationId| < |invocationId| && correlationId <= invocationId && invocationId[|correlationId|] == ':'
  }

  predicate SameExecutionContract(base: ForgeRequest, retry: ForgeRequest) {
    && base.invocation.slotId == retry.invocation.slotId
    && base.invocation.capability == retry.invocation.capability
    && base.invocation.layer == retry.invocation.layer
  }

  predicate ValidRequest(q: SessionRequest) {
    && J.ValidCorrelation(q.correlationId) && Correlated(q.correlationId, q.forge.invocation.invocationId)
    && q.profileName != [] && 0 < |q.summary| <= 2048 && 0 < |q.recordedAt| <= 128
    && |q.dojoTags| <= 28 && (forall i | 0 <= i < |q.dojoTags| :: 0 < |q.dojoTags[i]| <= 128)
    && q.budget.maxEventDetailBytes != 0
    && (q.parentSessionId != [] <==> q.recoveryAuthorization != [])
    && (q.parentSessionId != [] ==> J.CanonicalSessionId(q.parentSessionId) && IsSha256(q.recoveryAuthorization))
  }

  predicate IsRecoveryChild(q: SessionRequest) {
    q.parentSessionId != []
  }

  // ----- the collaborators -----

  datatype Execution = Execution(
    status: ForgeStatus, exitCode: int, capturedSha256: Text, observedBytes: u64, evidence: seq<Z.Evidence>, reason: Text)

  datatype Candidate = Candidate(name: Text, locator: Text, sha256: Text, bytes: u64)

  /**
   Every answer a collaborator gives during the run; attempts are numbered, so repeated calls may answer differently.
   The error texts of the validator and of the journal are among the answers.
   */
  datatype World = World(
    hardwareId: Text,
    printReal: real -> Text,
    routeStatus: Text, routeReason: Text, routeAllowed: bool,
    slotStatus: Text, slotReason: Text, slotReady: bool,
    retry: Option<(nat, Text) -> Option<ForgeRequest>>,
    execute: (nat, ForgeRequest) -> Execution,
    verify: Option<(nat, Execution) -> Z.Verification>,
    collect: Option<(nat, Execution) -> seq<Candidate>>,
    dojoStatus: Text, dojoErrors: seq<Text>, dojoEpisode: Option<Text>,
    invalidError: Text, beginError: Text, endError: Text)

  // ----- one attempt -----

  const NO_FACTORY: Text := "no retry request factory supplied"
  const NO_REQUEST: Text := "retry planner produced no new request"
  // A literal of more than about fifty bytes is written in two: the check that each is a byte does not reach further.
  const ESCAPED: Text := "retry invocation escaped the" + " session correlation id"
  const SWITCHED: Text := "retry attempted to switch slot," + " capability, or STRATA layer"

  datatype Plan = Execute(request: ForgeRequest) | Skip(attempt: Z.Attempt, rejected: Option<Text>)

  function NothingNew(state: Text, fatal: bool, summary: Text): Z.Attempt {
    Z.Attempt(state, [], Z.Verification(false, 0.0, summary), false, fatal)
  }

  /** Which request the attempt executes, if the retry planner offers one that keeps the session's contract. */
  function PlanAttempt(q: SessionRequest, w: World, index: nat, state: Text): Plan {
    if index > 0 && w.retry.None? then Skip(NothingNew(state, false, NO_FACTORY), None)
    else
      var proposed := if index == 0 then Some(q.forge) else w.retry.value(index, state);
      match proposed
      case None => Skip(NothingNew(state, false, NO_REQUEST), None)
      case Some(request) =>
        if !Correlated(q.correlationId, request.invocation.invocationId)
        then Skip(NothingNew(state, true, ESCAPED), Some(ESCAPED))
        else if !SameExecutionContract(q.forge, request)
        then Skip(NothingNew(state, true, SWITCHED), Some(SWITCHED))
        else Execute(request)
  }

  function SignedDec(n: int): Text {
    if n < 0 then "-" + Dec(-n) else Dec(n)
  }

  function ForgeCode(s: ForgeStatus): nat {
    match s
    case Completed => 0
    case InvalidRequest => 1
    case InvocationRejected => 2
    case InputMismatch => 3
    case ExecutorError => 4
    case Timeout => 5
    case OutputBudget => 6
    case ExecutionFailed => 7
  }

  function ExecutionState(sha: Hash, correlationId: Text, request: ForgeRequest, x: Execution): Text {
    "guff:execution:sha256:"
    + sha(LinesOf([correlationId, request.invocation.invocationId, request.invocation.inputSha256, Dec(ForgeCode(x.status)),
                   SignedDec(x.exitCode), x.capturedSha256]) + Dec(x.observedBytes))
  }

  function VerificationOf(w: World, index: nat, x: Execution): Z.Verification {
    match w.verify
    case Some(verify) => verify(index, x)
    case None =>
      Z.Verification(x.status == ForgeStatus.Completed, if x.status == ForgeStatus.Completed then 1.0 else 0.0, x.reason)
  }

  /** What an execution amounts to as an attempt. */
  function Tried(sha: Hash, q: SessionRequest, w: World, index: nat, state: Text, request: ForgeRequest, x: Execution): Z.Attempt {
    var candidate := ExecutionState(sha, q.correlationId, request, x);
    Z.Attempt(candidate, x.evidence, VerificationOf(w, index, x), candidate != state,
              x.status in {ForgeStatus.InvalidRequest, ForgeStatus.InvocationRejected, ForgeStatus.InputMismatch})
  }

  function AttemptOf(sha: Hash, q: SessionRequest, w: World, index: nat, state: Text): Z.Attempt {
    match PlanAttempt(q, w, index, state)
    case Skip(attempt, _) => attempt
    case Execute(request) => Tried(sha, q, w, index, state, request, w.execute(index, request))
  }

  /** An attempt that executes nothing does not pass verification. */
  lemma SkippedAttemptFails(sha: Hash, q: SessionRequest, w: World, index: nat, state: Text)
    requires PlanAttempt(q, w, index, state).Skip?
    ensures !AttemptOf(sha, q, w, index, state).verification.passed
  {
  }

  /** A request of this session's correlation, slot, capability and layer. */
  predicate InContract(q: SessionRequest, request: ForgeRequest) {
    Correlated(q.correlationId, request.invocation.invocationId) && SameExecutionContract(q.forge, request)
  }

  /** Whatever the retry planner proposes, only requests within the session's contract are executed. */
  lemma PlansStayInContract(q: SessionRequest, w: World, index: nat, state: Text)
    ensures var plan := PlanAttempt(q, w, index, state);
            plan.Execute? ==> InContract(q, plan.request)
  {
  }

  // ----- artifacts -----

  predicate ValidArtifact(c: Candidate) {
    0 < |c.name| <= 128 && 0 < |c.locator| <= 1024 && IsSha256(c.sha256)
  }

  /** What has been promoted so far, and its saturating byte count. */
  datatype Shelf = Shelf(artifacts: seq<Artifact>, bytes: u64)

  /** A candidate is promoted when it is valid and both artifact budgets still have room for it. */
  predicate Fits(b: SessionBudget, s: Shelf, c: Candidate) {
    ValidArtifact(c) && |s.artifacts| < b.maxArtifacts && SaturatingAdd(s.bytes, c.bytes) <= b.maxArtifactBytes
  }

  /** First come, first served. */
  function Promoted(b: SessionBudget, cs: seq<Candidate>): Shelf {
    if cs == [] then Shelf([], 0)
    else
      var s, c := Promoted(b, cs[..|cs| - 1]), cs[|cs| - 1];
      if Fits(b, s, c) then Shelf(s.artifacts + [Artifact(c.name, c.locator, c.sha256, c.bytes)], SaturatingAdd(s.bytes, c.bytes)) else s
  }

  /** Later candidates never displace earlier ones. */
  lemma {:induction false} PromotionIsKept(b: SessionBudget, cs: seq<Candidate>, k: nat)
    requires k <= |cs|
    ensures Promoted(b, cs[..k]).artifacts <= Promoted(b, cs).artifacts
    decreases |cs|
  {
    if k == |cs| {
      assert cs[..k] == cs;
    } else {
      PromotionIsKept(b, cs[..|cs| - 1], k);
      assert cs[..|cs| - 1][..k] == cs[..k];
    }
  }

  function ArtifactBytes(artifacts: seq<Artifact>): nat {
    if artifacts == [] then 0 else ArtifactBytes(artifacts[..|artifacts| - 1]) + artifacts[|artifacts| - 1].bytes
  }

  /**
   The shelf stays within both budgets: its byte count is the promoted bytes cut at the largest 64-bit number, so a byte
   budget below that number bounds the promoted bytes themselves.
   */
  lemma {:induction false} ShelfWithinBudgets(b: SessionBudget, cs: seq<Candidate>)
    ensures var s := Promoted(b, cs);
            && |s.artifacts| <= b.maxArtifacts && s.bytes <= b.maxArtifactBytes
            && s.bytes == SaturatingAdd(0, ArtifactBytes(s.artifacts))
            && (b.maxArtifactBytes < MAX_U64 ==> ArtifactBytes(s.artifacts) <= b.maxArtifactBytes)
  {
    if cs != [] {
      var s, c := Promoted(b, cs[..|cs| - 1]), cs[|cs| - 1];
      ShelfWithinBudgets(b, cs[..|cs| - 1]);
      var longer := s.artifacts + [Artifact(c.name, c.locator, c.sha256, c.bytes)];
      assert longer[..|s.artifacts|] == s.artifacts;
    }
  }

  /** How a run ends once its BEGIN is stored, as far as the run itself decides. */
  function StatusOf(w: World, z: Option<Z.ZenkaiResult>): Status {
    if !w.routeAllowed then RouteRejected
    else if !w.slotReady then Status.InvocationRejected
    else if w.dojoEpisode.None? then DojoStoreFailed
    else if z.Some? && z.value.verified then Status.Completed
    else VerificationFailed
  }

  /** The episode the run has to show for itself. */
  function EpisodeOf(w: World): Option<Text> {
    if w.routeAllowed && w.slotReady then w.dojoEpisode else None
  }

  // ----- journal operations of a session -----

  function BeginOp(q: SessionRequest, sessionId: Text, requestSha256: Text): J.JournalOp {
    var begin := J.BeginRequest(sessionId, q.correlationId, requestSha256, q.recordedAt);
    if IsRecoveryChild(q) then J.BeginRecoveryChild(begin, q.parentSessionId, q.recoveryAuthorization) else J.BeginSession(begin)
  }

  function TerminalKind(s: Status): J.Kind {
    if s == Status.Completed then J.Commit else J.Abort
  }

  function FinishOp(q: SessionRequest, r: SessionResult, requestSha256: Text): J.JournalOp {
    J.Finish(J.Terminal(TerminalKind(r.status), r.sessionId, q.correlationId, requestSha256, r.audit,
                        if r.dojoEpisodeId.Some? then r.dojoEpisodeId.value else [], r.status.Name(), q.recordedAt))
  }
}
