/** The bounded attempt loop: retries need authority, evidence needs budget, and acceptance needs confidence. */
module Zenkai {
  import opened Wrappers
  import opened Text

  datatype EvidenceKind = Build | Test | Tool | Verifier {
    function Name(): Text {
      match this
      case Build => "BUILD"
      case Test => "TEST"
      case Tool => "TOOL"
      case Verifier => "VERIFIER"
    }
  }

  datatype Evidence = Evidence(kind: EvidenceKind, source: Text, passed: bool, detail: Text)

  datatype Verification = Verification(passed: bool, confidence: real, summary: Text)

  datatype Attempt = Attempt(
    candidate: Text, evidence: seq<Evidence>, verification: Verification, newInformation: bool, fatal: bool)

  datatype RetryAuthority = NoRetry | Bounded {
    function Code(): nat {
      if this == NoRetry then 0 else 1
    }
  }

  datatype StopReason =
    | Verified | RetryNotAuthorized | NoNewInformation | FatalFailure | AttemptBudget | ToolBudget | EvidenceBudget
  {
    function Name(): Text {
      match this
      case Verified => "VERIFIED"
      case RetryNotAuthorized => "RETRY_NOT_AUTHORIZED"
      case NoNewInformation => "NO_NEW_INFORMATION"
      case FatalFailure => "FATAL_FAILURE"
      case AttemptBudget => "ATTEMPT_BUDGET"
      case ToolBudget => "TOOL_BUDGET"
      case EvidenceBudget => "EVIDENCE_BUDGET"
    }

    /** What the trace says of it. */
    function Detail(): Text {
      match this
      case Verified => "verification threshold satisfied"
      case RetryNotAuthorized => "retry authority is not granted"
      case NoNewInformation => "attempt produced no new information"
      case FatalFailure => "attempt reported fatal failure"
      case AttemptBudget => "attempt budget exhausted"
      case ToolBudget => "tool-event budget exhausted"
      case EvidenceBudget => "evidence budget exhausted"
    }
  }

  datatype Budget = Budget(
    maxAttempts: nat, maxToolEvents: nat, maxEvidenceItems: nat, maxEvidenceBytes: nat, maxTraceEntries: nat,
    acceptance: real, maxDetailBytes: nat)

  datatype Stage = AttemptStage | EvidencePass | EvidenceFail | VerifyPass | VerifyFail | Stop

  datatype TraceEntry = TraceEntry(attempt: nat, stage: Stage, detail: Text)

  datatype ZenkaiResult = ZenkaiResult(
    finalState: Text, stop: StopReason, verified: bool, attempts: nat, evidenceItems: nat, evidenceBytes: nat, toolEvents: nat,
    trace: seq<TraceEntry>, traceTruncated: bool)

  function AtLeastOne(n: nat): (r: nat)
    ensures r >= 1 && r >= n && (r == n || n == 0)
  {
    if n == 0 then 1 else n
  }

  function Clamp(x: real): (r: real)
    ensures 0.0 <= r <= 1.0 && (0.0 <= x <= 1.0 ==> r == x)
  {
    if x < 0.0 then 0.0 else if x > 1.0 then 1.0 else x
  }

  /** The budget the loop runs under: every limit at least one, the threshold between zero and one. */
  function Effective(b: Budget): Budget {
    Budget(AtLeastOne(b.maxAttempts), AtLeastOne(b.maxToolEvents), AtLeastOne(b.maxEvidenceItems), AtLeastOne(b.maxEvidenceBytes),
           AtLeastOne(b.maxTraceEntries), Clamp(b.acceptance), AtLeastOne(b.maxDetailBytes))
  }

  function Cut(t: Text, n: nat): Text {
    if |t| > n then t[..n] else t
  }

  predicate IsToolEvent(k: EvidenceKind) {
    k != Verifier
  }

  function Min(a: nat, b: nat): nat {
    if a < b then a else b
  }

  // ----- what each attempt of a run was asked -----

  /** The state after an attempt: its candidate, unless that is empty. */
  function NextState(state: Text, a: Attempt): Text {
    if a.candidate == [] then state else a.candidate
  }

  /** The state the loop holds before attempt `n`, if every earlier attempt let it continue. */
  function StateBefore(attempt: (nat, Text) -> Attempt, initial: Text, n: nat): Text {
    if n == 0 then initial
    else
      var state := StateBefore(attempt, initial, n - 1);
      NextState(state, attempt(n - 1, state))
  }

  function AttemptAt(attempt: (nat, Text) -> Attempt, initial: Text, n: nat): Attempt {
    attempt(n, StateBefore(attempt, initial, n))
  }

  /** An attempt that ends the run with acceptance. */
  predicate Accepts(b: Budget, a: Attempt) {
    !a.fatal && a.verification.passed && Clamp(a.verification.confidence) >= Clamp(b.acceptance)
  }

  /** An attempt after which the loop goes on: no failure, no acceptance, but something learned. */
  predicate Continues(b: Budget, a: Attempt) {
    !a.fatal && !Accepts(b, a) && a.newInformation
  }

  predicate OverBudget(stop: StopReason) {
    stop == ToolBudget || stop == EvidenceBudget
  }

  /** The verdict on an attempt whose evidence fitted the budget and after which the run stops. */
  predicate Justified(b: Budget, a: Attempt, stop: StopReason) {
    && (stop == FatalFailure <==> a.fatal)
    && (stop == Verified <==> Accepts(b, a))
    && (stop == NoNewInformation <==> !a.fatal && !Accepts(b, a) && !a.newInformation)
    && stop in {FatalFailure, Verified, NoNewInformation}
  }

  // ----- what the evidence of a run costs -----

  datatype Spending = Spending(items: nat, bytes: nat, tools: nat)

  const NOTHING := Spending(0, 0, 0)

  function Cost(b: Budget, e: Evidence): nat {
    |Cut(e.source, b.maxDetailBytes)| + |Cut(e.detail, b.maxDetailBytes)|
  }

  function Charge(b: Budget, c: Spending, e: Evidence): Spending {
    Spending(c.items + 1, c.bytes + Cost(b, e), c.tools + (if IsToolEvent(e.kind) then 1 else 0))
  }

  function Charged(b: Budget, c: Spending, evidence: seq<Evidence>): Spending {
    if evidence == [] then c else Charge(b, Charged(b, c, evidence[..|evidence| - 1]), evidence[|evidence| - 1])
  }

  /** The budget that a spending exceeds, tool events first. */
  function Exceeded(b: Budget, c: Spending): Option<StopReason> {
    if c.tools > b.maxToolEvents then Some(ToolBudget)
    else if c.items > b.maxEvidenceItems || c.bytes > b.maxEvidenceBytes then Some(EvidenceBudget)
    else None
  }

  /** The first `n` items were charged, and the next was the one too many. */
  predicate ExhaustsAt(b: Budget, before: Spending, evidence: seq<Evidence>, n: nat, stop: StopReason, spent: Spending) {
    && n < |evidence| && spent == Charged(b, before, evidence[..n])
    && Exceeded(b, Charge(b, spent, evidence[n])) == Some(stop)
  }

  lemma {:induction false} ChargedItems(b: Budget, before: Spending, evidence: seq<Evidence>)
    ensures Charged(b, before, evidence).items == before.items + |evidence|
  {
    if evidence != [] {
      ChargedItems(b, before, evidence[..|evidence| - 1]);
    }
  }

  /** What the first `n` attempts cost. */
  function SpentBefore(b: Budget, attempt: (nat, Text) -> Attempt, initial: Text, n: nat): Spending {
    if n == 0 then NOTHING
    else Charged(b, SpentBefore(b, attempt, initial, n - 1), AttemptAt(attempt, initial, n - 1).evidence)
  }

  function SpentBy(r: ZenkaiResult): Spending {
    Spending(r.evidenceItems, r.evidenceBytes, r.toolEvents)
  }

  predicate WithinBudget(b: Budget, r: ZenkaiResult) {
    var e := Effective(b);
    && r.attempts <= e.maxAttempts && r.toolEvents <= e.maxToolEvents
    && r.evidenceItems <= e.maxEvidenceItems && r.evidenceBytes <= e.maxEvidenceBytes
    && |r.trace| <= e.maxTraceEntries
  }

  // ----- what the trace says -----

  const STARTED: Text := "attempt started"

  function EvidenceEntry(b: Budget, index: nat, e: Evidence): TraceEntry {
    TraceEntry(index, if e.passed then EvidencePass else EvidenceFail, e.kind.Name() + ": " + Cut(e.source, b.maxDetailBytes))
  }

  function EvidenceLog(b: Budget, index: nat, evidence: seq<Evidence>): seq<TraceEntry> {
    seq(|evidence|, i requires 0 <= i < |evidence| => EvidenceEntry(b, index, evidence[i]))
  }

  function VerifyEntry(index: nat, a: Attempt): TraceEntry {
    TraceEntry(index, if a.verification.passed then VerifyPass else VerifyFail, a.verification.summary)
  }

  function StopEntry(index: nat, stop: StopReason): TraceEntry {
    TraceEntry(index, Stop, stop.Detail())
  }

  /** An attempt whose evidence fitted the budget. */
  function AttemptLog(b: Budget, index: nat, a: Attempt): seq<TraceEntry> {
    [TraceEntry(index, AttemptStage, STARTED)] + EvidenceLog(b, index, a.evidence) + [VerifyEntry(index, a)]
  }

  /** The evidence counted, and the stop when a budget would not hold it all. */
  function CountingLog(b: Budget, index: nat, evidence: seq<Evidence>, counted: nat, exhausted: Option<StopReason>): seq<TraceEntry> {
    if exhausted.None? then EvidenceLog(b, index, evidence)
    else EvidenceLog(b, index, evidence[..Min(counted, |evidence|)]) + [StopEntry(index, exhausted.value)]
  }

  /** The attempt that ended the run, of whose evidence `counted` items were counted. */
  function LastLog(b: Budget, index: nat, a: Attempt, stop: StopReason, counted: nat): seq<TraceEntry> {
    if OverBudget(stop) then [TraceEntry(index, AttemptStage, STARTED)] + CountingLog(b, index, a.evidence, counted, Some(stop))
    else AttemptLog(b, index, a) + [StopEntry(index, stop)]
  }

  /** What the first `n` attempts wrote, if each let the loop go on. */
  function LogBefore(b: Budget, attempt: (nat, Text) -> Attempt, initial: Text, n: nat): seq<TraceEntry> {
    if n == 0 then [] else LogBefore(b, attempt, initial, n - 1) + AttemptLog(b, n - 1, AttemptAt(attempt, initial, n - 1))
  }

  function Counted(before: Spending, spent: Spending): nat {
    if spent.items < before.items then 0 else spent.items - before.items
  }

  /** The trace of a whole run, before it is cut to its budget. */
  function FullLog(b: Budget, attempt: (nat, Text) -> Attempt, initial: Text, r: ZenkaiResult): seq<TraceEntry>
    requires r.attempts > 0
  {
    if r.stop == RetryNotAuthorized || r.stop == AttemptBudget
    then LogBefore(b, attempt, initial, r.attempts) + [StopEntry(r.attempts, r.stop)]
    else
      var n := r.attempts - 1;
      LogBefore(b, attempt, initial, n)
      + LastLog(b, n, AttemptAt(attempt, initial, n), r.stop, Counted(SpentBefore(b, attempt, initial, n), SpentBy(r)))
  }

  /** The first entries that fit. */
  function Kept(b: Budget, log: seq<TraceEntry>): seq<TraceEntry> {
    log[..Min(|log|, b.maxTraceEntries)]
  }

  // ----- how a run may end -----

  /** The run ended as its last attempt, or the lack of another, says. */
  predicate EndsWell(b: Budget, authority: RetryAuthority, attempt: (nat, Text) -> Attempt, initial: Text, r: ZenkaiResult) {
    && 1 <= r.attempts && r.finalState == StateBefore(attempt, initial, r.attempts)
    && (forall k | 0 <= k < r.attempts - 1 :: Continues(b, AttemptAt(attempt, initial, k)))
    && (r.verified <==> r.stop == Verified)
    && (authority != Bounded ==> r.attempts == 1)
    && var last := AttemptAt(attempt, initial, r.attempts - 1);
       match r.stop
       case RetryNotAuthorized => authority != Bounded && r.attempts < Effective(b).maxAttempts && Continues(b, last)
       case AttemptBudget => r.attempts == Effective(b).maxAttempts && Continues(b, last)
       case ToolBudget => true
       case EvidenceBudget => true
       case _ => Justified(b, last, r.stop)
  }

  /** The counters are the cost of every attempt's evidence, or of all before the item that exceeded the budget named. */
  predicate Accounted(b: Budget, attempt: (nat, Text) -> Attempt, initial: Text, r: ZenkaiResult)
    requires r.attempts > 0
  {
    var evidence := AttemptAt(attempt, initial, r.attempts - 1).evidence;
    var before := SpentBefore(Effective(b), attempt, initial, r.attempts - 1);
    if OverBudget(r.stop) then ExhaustsAt(Effective(b), before, evidence, Counted(before, SpentBy(r)), r.stop, SpentBy(r))
    else SpentBy(r) == Charged(Effective(b), before, evidence)
  }

  /** The trace is the run's full trace cut to its budget, and says whether it was cut. */
  predicate Traced(b: Budget, attempt: (nat, Text) -> Attempt, initial: Text, r: ZenkaiResult)
    requires r.attempts > 0
  {
    var log := FullLog(Effective(b), attempt, initial, r);
    r.trace == Kept(Effective(b), log) && (r.traceTruncated <==> |log| > Effective(b).maxTraceEntries)
  }

  /**
   The run stays inside every budget; without retry authority it makes exactly one attempt; every attempt but the last
   taught something and was neither accepted nor fatal; it is verified exactly when the last attempt was accepted; its
   counters are the cost of all its evidence, or of all before the item that would have exceeded the budget it names;
   and its trace tells all of that, as far as the trace budget goes.
   */
  predicate Concludes(b: Budget, authority: RetryAuthority, attempt: (nat, Text) -> Attempt, initial: Text, r: ZenkaiResult) {
    WithinBudget(b, r) && EndsWell(b, authority, attempt, initial, r) && Accounted(b, attempt, initial, r) && Traced(b, attempt, initial, r)
  }

  /** What an attempt does to the counters, and whether it ends the run. */
  predicate Weighed(b: Budget, before: Spending, index: nat, a: Attempt, stop: Option<StopReason>, spent: Spending) {
    if stop.None? then Continues(b, a) && spent == Charged(b, before, a.evidence)
    else if OverBudget(stop.value) then ExhaustsAt(b, before, a.evidence, Counted(before, spent), stop.value, spent)
    else Justified(b, a, stop.value) && spent == Charged(b, before, a.evidence)
  }

  // ----- counting -----

  lemma OneMore(b: Budget, before: Spending, index: nat, evidence: seq<Evidence>, i: nat)
    requires i < |evidence|
    ensures Charged(b, before, evidence[..i + 1]) == Charge(b, Charged(b, before, evidence[..i]), evidence[i])
    ensures EvidenceLog(b, index, evidence[..i + 1]) == EvidenceLog(b, index, evidence[..i]) + [EvidenceEntry(b, index, evidence[i])]
  {
    assert evidence[..i + 1][..i] == evidence[..i];
  }

  lemma StoppedAt(b: Budget, before: Spending, index: nat, evidence: seq<Evidence>, i: nat, stop: StopReason)
    requires i < |evidence| && Exceeded(b, Charge(b, Charged(b, before, evidence[..i]), evidence[i])) == Some(stop)
    ensures Counted(before, Charged(b, before, evidence[..i])) == i && OverBudget(stop)
    ensures CountingLog(b, index, evidence, i, Some(stop)) == EvidenceLog(b, index, evidence[..i]) + [StopEntry(index, stop)]
  {
    ChargedItems(b, before, evidence[..i]);
  }

  // ----- the log of one attempt, as it is written -----

  lemma Regrouped(log: seq<TraceEntry>, a: seq<TraceEntry>, b: seq<TraceEntry>, c: seq<TraceEntry>)
    ensures log + a + b + c == log + (a + b + c)
  {
  }

  lemma OverBudgetLog(b: Budget, log: seq<TraceEntry>, index: nat, a: Attempt, stop: Option<StopReason>, counted: nat)
    requires stop.Some? ==> OverBudget(stop.value)
    ensures stop.Some? ==>
              log + [TraceEntry(index, AttemptStage, STARTED)] + CountingLog(b, index, a.evidence, counted, stop)
              == log + LastLog(b, index, a, stop.value, counted)
  {
    Regrouped(log, [TraceEntry(index, AttemptStage, STARTED)], CountingLog(b, index, a.evidence, counted, stop), []);
  }

  lemma JudgedLog(b: Budget, log: seq<TraceEntry>, index: nat, a: Attempt, stop: Option<StopReason>, counted: nat)
    requires stop.Some? ==> !OverBudget(stop.value)
    ensures log + [TraceEntry(index, AttemptStage, STARTED)] + EvidenceLog(b, index, a.evidence) + [VerifyEntry(index, a)]
            + (if stop.Some? then [StopEntry(index, stop.value)] else [])
         == log + (if stop.None? then AttemptLog(b, index, a) else LastLog(b, index, a, stop.value, counted))
  {
    Regrouped(log, [TraceEntry(index, AttemptStage, STARTED)], EvidenceLog(b, index, a.evidence), [VerifyEntry(index, a)]);
    if stop.Some? {
      Regrouped(log, AttemptLog(b, index, a), [StopEntry(index, stop.value)], []);
    }
  }

  // ----- the loop -----

  class ZenkaiLoop {
    const budget: Budget
    var state: Text
    var attempts: nat
    var evidenceItems: nat
    var evidenceBytes: nat
    var toolEvents: nat
    var trace: seq<TraceEntry>
    var traceTruncated: bool
    /** Every entry the trace was given. */
    ghost var log: seq<TraceEntry>

    constructor (b: Budget, initial: Text)
      ensures budget == Effective(b) && state == initial && Valid()
      ensures attempts == 0 && log == [] && Spent() == NOTHING
    {
      budget := Effective(b);
      state := initial;
      attempts, evidenceItems, evidenceBytes, toolEvents := 0, 0, 0, 0;
      trace, traceTruncated, log := [], false, [];
    }

    function Spent(): Spending
      reads this
    {
      Spending(evidenceItems, evidenceBytes, toolEvents)
    }

    ghost predicate Valid()
      reads this
    {
      && toolEvents <= budget.maxToolEvents && evidenceItems <= budget.maxEvidenceItems
      && evidenceBytes <= budget.maxEvidenceBytes && 0.0 <= budget.acceptance <= 1.0
      && trace == Kept(budget, log) && (traceTruncated <==> |log| > budget.maxTraceEntries)
    }

    function Result(stop: StopReason): ZenkaiResult
      reads this
    {
      ZenkaiResult(state, stop, stop == Verified, attempts, evidenceItems, evidenceBytes, toolEvents, trace, traceTruncated)
    }

    method AppendTrace(attempt: nat, stage: Stage, detail: Text)
      requires Valid()
      modifies this`trace, this`traceTruncated, this`log
      ensures Valid() && log == old(log) + [TraceEntry(attempt, stage, detail)]
    {
      log := log + [TraceEntry(attempt, stage, detail)];
      if |trace| >= budget.maxTraceEntries {
        traceTruncated := true;
        return;
      }
      trace := trace + [TraceEntry(attempt, stage, detail)];
    }

    /** Counts one item of evidence, unless it would exceed a budget. */
    method CountItem(index: nat, item: Evidence) returns (exhausted: Option<StopReason>)
      requires Valid()
      modifies this`evidenceItems, this`evidenceBytes, this`toolEvents, this`trace, this`traceTruncated, this`log
      ensures Valid() && exhausted == Exceeded(budget, Charge(budget, old(Spent()), item))
      ensures Spent() == if exhausted.None? then Charge(budget, old(Spent()), item) else old(Spent())
      ensures log == old(log) + [if exhausted.None? then EvidenceEntry(budget, index, item) else StopEntry(index, exhausted.value)]
    {
      var bytes := |Cut(item.source, budget.maxDetailBytes)| + |Cut(item.detail, budget.maxDetailBytes)|;
      var nextToolEvents := toolEvents + (if IsToolEvent(item.kind) then 1 else 0);
      if nextToolEvents > budget.maxToolEvents {
        AppendTrace(index, Stop, ToolBudget.Detail());
        return Some(ToolBudget);
      }
      if evidenceItems + 1 > budget.maxEvidenceItems
         || bytes > budget.maxEvidenceBytes - Min(evidenceBytes, budget.maxEvidenceBytes) {
        AppendTrace(index, Stop, EvidenceBudget.Detail());
        return Some(EvidenceBudget);
      }
      evidenceItems := evidenceItems + 1;
      evidenceBytes := evidenceBytes + bytes;
      toolEvents := nextToolEvents;
      AppendTrace(index, if item.passed then EvidencePass else EvidenceFail,
                  item.kind.Name() + ": " + Cut(item.source, budget.maxDetailBytes));
      return None;
    }

    /** Counts one attempt's evidence; the budget that would be exceeded stops the run. */
    method CountEvidence(index: nat, evidence: seq<Evidence>) returns (exhausted: Option<StopReason>)
      requires Valid()
      modifies this`evidenceItems, this`evidenceBytes, this`toolEvents, this`trace, this`traceTruncated, this`log
      ensures Valid()
      ensures exhausted.None? ==> Spent() == Charged(budget, old(Spent()), evidence)
      ensures exhausted.Some? ==>
                && OverBudget(exhausted.value)
                && ExhaustsAt(budget, old(Spent()), evidence, Counted(old(Spent()), Spent()), exhausted.value, Spent())
      ensures log == old(log) + CountingLog(budget, index, evidence, Counted(old(Spent()), Spent()), exhausted)
    {
      ghost var before, earlier := Spent(), log;
      for i := 0 to |evidence|
        invariant Valid() && Spent() == Charged(budget, before, evidence[..i])
        invariant log == earlier + EvidenceLog(budget, index, evidence[..i])
      {
        exhausted := CountItem(index, evidence[i]);
        if exhausted.Some? {
          StoppedAt(budget, before, index, evidence, i, exhausted.value);
          return;
        }
        OneMore(budget, before, index, evidence, i);
      }
      assert evidence[..|evidence|] == evidence;
      exhausted := None;
    }

    /** What the loop makes of an attempt whose evidence was counted. */
    method Judge(index: nat, current: Attempt) returns (stop: Option<StopReason>)
      requires Valid()
      modifies this`trace, this`traceTruncated, this`log
      ensures Valid()
      ensures if stop.None? then Continues(budget, current) else Justified(budget, current, stop.value)
      ensures log == old(log) + [VerifyEntry(index, current)] + (if stop.Some? then [StopEntry(index, stop.value)] else [])
    {
      AppendTrace(index, if current.verification.passed then VerifyPass else VerifyFail, current.verification.summary);
      stop := None;
      if current.fatal {
        stop := Some(FatalFailure);
      } else if current.verification.passed && Clamp(current.verification.confidence) >= budget.acceptance {
        stop := Some(Verified);
      } else if !current.newInformation {
        stop := Some(NoNewInformation);
      }
      if stop.Some? {
        AppendTrace(index, Stop, stop.value.Detail());
      }
    }

    /** What the loop does with one attempt: a reason to stop, or none. */
    method Weigh(index: nat, current: Attempt) returns (stop: Option<StopReason>)
      requires Valid()
      modifies this
      ensures Valid() && attempts == old(attempts) + 1 && state == NextState(old(state), current)
      ensures Weighed(budget, old(Spent()), index, current, stop, Spent())
      ensures log == old(log) + (if stop.None? then AttemptLog(budget, index, current)
                                 else LastLog(budget, index, current, stop.value, Counted(old(Spent()), Spent())))
    {
      AppendTrace(index, AttemptStage, STARTED);
      attempts := attempts + 1;
      if current.candidate != [] {
        state := current.candidate;
      }
      stop := CountEvidence(index, current.evidence);
      ghost var counted := Counted(old(Spent()), Spent());
      OverBudgetLog(budget, old(log), index, current, stop, counted);
      if stop.None? {
        stop := Judge(index, current);
        JudgedLog(budget, old(log), index, current, stop, counted);
      }
    }

    // ----- the loop's place in a run -----

    /** `n` attempts were made, and each let the loop go on. */
    ghost predicate Reached(b: Budget, attempt: (nat, Text) -> Attempt, initial: Text, n: nat)
      reads this
    {
      && budget == Effective(b) && Valid() && attempts == n && n <= budget.maxAttempts
      && Going(b, attempt, initial, n, state, Spent(), log)
    }

    /** Weighs the run's next attempt: the run goes on, or here is its result. */
    method Take(ghost b: Budget, ghost authority: RetryAuthority, ghost attempt: (nat, Text) -> Attempt, ghost initial: Text,
                index: nat, current: Attempt)
      returns (r: Option<ZenkaiResult>)
      requires Reached(b, attempt, initial, index) && index < budget.maxAttempts && (index > 0 ==> authority == Bounded)
      requires current == attempt(index, state)
      modifies this
      ensures r.None? ==> Reached(b, attempt, initial, index + 1)
      ensures r.Some? ==> Concludes(b, authority, attempt, initial, r.value) && r.value.attempts == index + 1
    {
      var stop := Weigh(index, current);
      if stop.None? {
        GoesOn(b, attempt, initial, index, old(state), old(Spent()), old(log), Spent(), log);
        return None;
      }
      r := Some(Result(stop.value));
      EndedByAttempt(b, authority, attempt, initial, r.value, index, old(state), old(Spent()), old(log), log);
    }

    /** Ends the run before another attempt: no authority for one, or none left. */
    method Halt(ghost b: Budget, authority: RetryAuthority, ghost attempt: (nat, Text) -> Attempt, ghost initial: Text, index: nat)
      returns (r: ZenkaiResult)
      requires index > 0 && Reached(b, attempt, initial, index)
      requires if index == budget.maxAttempts then index > 1 ==> authority == Bounded else index == 1 && authority != Bounded
      modifies this`trace, this`traceTruncated, this`log
      ensures Concludes(b, authority, attempt, initial, r) && r.attempts == index
    {
      var reason := if index < budget.maxAttempts then RetryNotAuthorized else AttemptBudget;
      AppendTrace(attempts, Stop, reason.Detail());
      r := Result(reason);
      EndedBetweenAttempts(b, authority, attempt, initial, r);
    }
  }

  /** After `n` attempts, none of which ended the run. */
  predicate Going(b: Budget, attempt: (nat, Text) -> Attempt, initial: Text, n: nat, state: Text, spent: Spending, log: seq<TraceEntry>) {
    && state == StateBefore(attempt, initial, n) && spent == SpentBefore(Effective(b), attempt, initial, n)
    && log == LogBefore(Effective(b), attempt, initial, n)
    && forall k | 0 <= k < n :: Continues(b, AttemptAt(attempt, initial, k))
  }

  lemma GoesOn(b: Budget, attempt: (nat, Text) -> Attempt, initial: Text, n: nat, state: Text, spent: Spending, log: seq<TraceEntry>,
               spent': Spending, log': seq<TraceEntry>)
    requires Going(b, attempt, initial, n, state, spent, log)
    requires Weighed(Effective(b), spent, n, attempt(n, state), None, spent')
    requires log' == log + AttemptLog(Effective(b), n, attempt(n, state))
    ensures Going(b, attempt, initial, n + 1, NextState(state, attempt(n, state)), spent', log')
  {
    assert AttemptAt(attempt, initial, n) == attempt(n, state);
  }

  /** The attempt just weighed ended the run. */
  lemma EndedByAttempt(b: Budget, authority: RetryAuthority, attempt: (nat, Text) -> Attempt, initial: Text, r: ZenkaiResult,
                       n: nat, state: Text, spent: Spending, log: seq<TraceEntry>, log': seq<TraceEntry>)
    requires Going(b, attempt, initial, n, state, spent, log) && (n > 0 ==> authority == Bounded)
    requires WithinBudget(b, r) && r.attempts == n + 1 && r.finalState == NextState(state, attempt(n, state))
    requires Weighed(Effective(b), spent, n, attempt(n, state), Some(r.stop), SpentBy(r)) && (r.verified <==> r.stop == Verified)
    requires log' == log + LastLog(Effective(b), n, attempt(n, state), r.stop, Counted(spent, SpentBy(r)))
    requires r.trace == Kept(Effective(b), log') && (r.traceTruncated <==> |log'| > Effective(b).maxTraceEntries)
    ensures Concludes(b, authority, attempt, initial, r)
  {
    assert AttemptAt(attempt, initial, n) == attempt(n, state);
    EndsByAttempt(b, authority, attempt, initial, r, n);
    TracedByAttempt(b, attempt, initial, r, n, log');
  }

  lemma TracedByAttempt(b: Budget, attempt: (nat, Text) -> Attempt, initial: Text, r: ZenkaiResult, n: nat, log: seq<TraceEntry>)
    requires r.attempts == n + 1 && r.stop != RetryNotAuthorized && r.stop != AttemptBudget
    requires log == LogBefore(Effective(b), attempt, initial, n)
                    + LastLog(Effective(b), n, AttemptAt(attempt, initial, n), r.stop,
                              Counted(SpentBefore(Effective(b), attempt, initial, n), SpentBy(r)))
    requires r.trace == Kept(Effective(b), log) && (r.traceTruncated <==> |log| > Effective(b).maxTraceEntries)
    ensures Traced(b, attempt, initial, r)
  {
  }

  lemma EndsByAttempt(b: Budget, authority: RetryAuthority, attempt: (nat, Text) -> Attempt, initial: Text, r: ZenkaiResult, n: nat)
    requires r.attempts == n + 1 && r.finalState == StateBefore(attempt, initial, n + 1) && (n > 0 ==> authority == Bounded)
    requires forall k | 0 <= k < n :: Continues(b, AttemptAt(attempt, initial, k))
    requires r.verified <==> r.stop == Verified
    requires Weighed(Effective(b), SpentBefore(Effective(b), attempt, initial, n), n, AttemptAt(attempt, initial, n), Some(r.stop), SpentBy(r))
    ensures EndsWell(b, authority, attempt, initial, r) && Accounted(b, attempt, initial, r)
    ensures r.stop != RetryNotAuthorized && r.stop != AttemptBudget
  {
  }

  /** The run ended before another attempt: no authority, or no attempts left. */
  lemma EndedBetweenAttempts(b: Budget, authority: RetryAuthority, attempt: (nat, Text) -> Attempt, initial: Text, r: ZenkaiResult)
    requires 1 <= r.attempts && r.finalState == StateBefore(attempt, initial, r.attempts) && !r.verified
    requires r.attempts > 1 ==> authority == Bounded
    requires forall k | 0 <= k < r.attempts :: Continues(b, AttemptAt(attempt, initial, k))
    requires r.stop == if r.attempts == Effective(b).maxAttempts then AttemptBudget else RetryNotAuthorized
    requires r.stop == RetryNotAuthorized ==> authority != Bounded && r.attempts < Effective(b).maxAttempts
    requires SpentBy(r) == SpentBefore(Effective(b), attempt, initial, r.attempts)
    ensures EndsWell(b, authority, attempt, initial, r) && Accounted(b, attempt, initial, r)
  {
    assert AttemptAt(attempt, initial, r.attempts - 1) == attempt(r.attempts - 1, StateBefore(attempt, initial, r.attempts - 1));
  }

  method RunLoop(b: Budget, initial: Text, authority: RetryAuthority, attempt: (nat, Text) -> Attempt) returns (r: ZenkaiResult)
    ensures Concludes(b, authority, attempt, initial, r)
  {
    var loop := new ZenkaiLoop(b, initial);
    for index := 0 to Effective(b).maxAttempts
      invariant fresh(loop) && loop.Reached(b, attempt, initial, index)
      invariant index > 1 ==> authority == Bounded
    {
      if index > 0 && authority != Bounded {
        r := loop.Halt(b, authority, attempt, initial, index);
        return;
      }
      var ended := loop.Take(b, authority, attempt, initial, index, attempt(index, loop.state));
      if ended.Some? {
        return ended.value;
      }
    }
    r := loop.Halt(b, authority, attempt, initial, Effective(b).maxAttempts);
  }

  /** A verified run's last attempt passed verification with enough confidence. */
  lemma VerifiedPassed(b: Budget, authority: RetryAuthority, attempt: (nat, Text) -> Attempt, initial: Text, r: ZenkaiResult)
    requires EndsWell(b, authority, attempt, initial, r) && r.verified
    ensures var last := attempt(r.attempts - 1, StateBefore(attempt, initial, r.attempts - 1));
            last.verification.passed && !last.fatal && Clamp(last.verification.confidence) >= Clamp(b.acceptance)
  {
    assert AttemptAt(attempt, initial, r.attempts - 1) == attempt(r.attempts - 1, StateBefore(attempt, initial, r.attempts - 1));
  }
}
