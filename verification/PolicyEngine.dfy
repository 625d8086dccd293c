/** The declarative policy engine: rules matched against one operation, the most restrictive effect winning. */
module PolicyEngine {
  import opened Wrappers
  import opened Text
  import opened HashChain
  import Ordering

  datatype Decision = Allow | Refuse | HumanReview {
    function Name(): Text {
      match this
      case Allow => "ALLOW"
      case Refuse => "REFUSE"
      case HumanReview => "HUMAN_REVIEW"
    }

    /** Refusal outranks review, review outranks permission. */
    function Precedence(): nat {
      match this
      case Refuse => 3
      case HumanReview => 2
      case Allow => 1
    }
  }

  datatype Risk = Low | Moderate | High | Critical {
    function Rank(): nat {
      match this
      case Low => 0
      case Moderate => 1
      case High => 2
      case Critical => 3
    }

    function Name(): Text {
      match this
      case Low => "LOW"
      case Moderate => "MODERATE"
      case High => "HIGH"
      case Critical => "CRITICAL"
    }
  }

  datatype AuthorityLevel =
    | NoAuthority | SignedReceipt | DurableReceipt | DelegatedReceipt | SessionKeyAuthority | RuntimeLeaseAuthority
    | AttestedRuntimeLease
  {
    function Rank(): nat {
      match this
      case NoAuthority => 0
      case SignedReceipt => 1
      case DurableReceipt => 2
      case DelegatedReceipt => 3
      case SessionKeyAuthority => 4
      case RuntimeLeaseAuthority => 5
      case AttestedRuntimeLease => 6
    }

    function Name(): Text {
      match this
      case NoAuthority => "NONE"
      case SignedReceipt => "SIGNED_RECEIPT"
      case DurableReceipt => "DURABLE_RECEIPT"
      case DelegatedReceipt => "DELEGATED_RECEIPT"
      case SessionKeyAuthority => "SESSION_KEY"
      case RuntimeLeaseAuthority => "RUNTIME_LEASE"
      case AttestedRuntimeLease => "ATTESTED_RUNTIME_LEASE"
    }
  }

  datatype Capability =
    | ModelInfer | CodeBuild | CodeTest | RepositoryRead | RepositoryWrite | AudioAnalyze | AudioGenerate | WorldObserve
    | WorldMutate | ImageGenerate | VideoRender | TranslateRepresentation | GenericTool
  {
    function Name(): Text {
      match this
      case ModelInfer => "MODEL_INFER"
      case CodeBuild => "CODE_BUILD"
      case CodeTest => "CODE_TEST"
      case RepositoryRead => "REPOSITORY_READ"
      case RepositoryWrite => "REPOSITORY_WRITE"
      case AudioAnalyze => "AUDIO_ANALYZE"
      case AudioGenerate => "AUDIO_GENERATE"
      case WorldObserve => "WORLD_OBSERVE"
      case WorldMutate => "WORLD_MUTATE"
      case ImageGenerate => "IMAGE_GENERATE"
      case VideoRender => "VIDEO_RENDER"
      case TranslateRepresentation => "TRANSLATE_REPRESENTATION"
      case GenericTool => "GENERIC_TOOL"
    }

    function BaseRisk(): Risk {
      match this
      case RepositoryWrite => High
      case WorldMutate => High
      case GenericTool => High
      case CodeBuild => Moderate
      case CodeTest => Moderate
      case AudioGenerate => Moderate
      case ImageGenerate => Moderate
      case VideoRender => Moderate
      case _ => Low
    }
  }

  datatype Layer =
    | Physical | OperatingSystem | Runtime | Project | Application | Simulation | Semantic | Memory | Meta | Representation
  {
    function Name(): Text {
      match this
      case Physical => "PHYSICAL"
      case OperatingSystem => "OS"
      case Runtime => "RUNTIME"
      case Project => "PROJECT"
      case Application => "APPLICATION"
      case Simulation => "SIMULATION"
      case Semantic => "SEMANTIC"
      case Memory => "MEMORY"
      case Meta => "META"
      case Representation => "REPRESENTATION"
    }
  }

  datatype Operation = Operation(
    subjectId: Text, slotId: Text, capability: Capability, layer: Layer, destructive: bool, persistent: bool,
    externalSideEffect: bool, requiresIdentity: bool, requiresAuthority: bool, uncertainty: real)

  datatype AuthorityFacts = AuthorityFacts(
    level: AuthorityLevel, validated: bool, scopeMatches: bool, capabilityMatches: bool, runtimeBindingMatches: bool, authorityId: Text)

  /** Identity evidence as the engine sees it: its binding, and what the identity store answers about it. */
  datatype Identity = Identity(slotId: Text, layer: Layer, valid: bool, active: bool)

  datatype Request = Request(operation: Operation, authority: AuthorityFacts, identity: Option<Identity>)

  datatype Rule = Rule(
    schemaVersion: u32, name: Text, priority: int, effect: Decision, subjectPrefix: Text, slotId: Text,
    capability: Option<Capability>, layer: Option<Layer>,
    destructive: Option<bool>, persistent: Option<bool>, externalSideEffect: Option<bool>,
    minRisk: Risk, maxRisk: Risk, minAuthority: AuthorityLevel,
    requireValidatedAuthority: bool, requireRuntimeBinding: bool, requireActiveIdentity: bool, enabled: bool, tags: seq<Text>)

  datatype Document = Document(schemaVersion: u32, name: Text, defaultDecision: Decision, rules: seq<Rule>)

  datatype EvaluationBudget = EvaluationBudget(maxRules: nat, maxMatchedRules: nat, maxTraceEntries: nat, maxReasonBytes: nat)

  datatype EvaluationStatus =
    | Decided | InvalidPolicy | InvalidRequest | IdentityRejected | AuthorityRejected | BudgetExceeded | PolicyInactive

  datatype Evaluation = Evaluation(
    status: EvaluationStatus, decision: Decision, risk: Risk, policyId: Text, matchedIds: seq<Text>, matchedTruncated: bool,
    trail: Trail, reason: Text)

  datatype TraceEntry = TraceEntry(code: Text, detail: Text)

  /** The trace kept, and whether entries were dropped for lack of room. */
  datatype Trail = Trail(entries: seq<TraceEntry>, truncated: bool)

  // ----- risk -----

  function MaxRisk(a: Risk, b: Risk): Risk {
    if a.Rank() < b.Rank() then b else a
  }

  function ClassifyRisk(o: Operation): Risk {
    var uncertain := if o.uncertainty >= 0.75 then MaxRisk(o.capability.BaseRisk(), High)
                     else if o.uncertainty >= 0.40 then MaxRisk(o.capability.BaseRisk(), Moderate)
                     else o.capability.BaseRisk();
    var sided := if o.persistent || o.externalSideEffect then MaxRisk(uncertain, High) else uncertain;
    if o.destructive then Critical else sided
  }

  /** Risk never falls when an operation becomes more uncertain or gains an effect. */
  lemma RiskIsMonotone(a: Operation, b: Operation)
    requires a.capability == b.capability && a.uncertainty <= b.uncertainty
    requires (a.persistent ==> b.persistent) && (a.externalSideEffect ==> b.externalSideEffect) && (a.destructive ==> b.destructive)
    ensures ClassifyRisk(a).Rank() <= ClassifyRisk(b).Rank()
    ensures b.destructive <==> ClassifyRisk(b) == Critical
  {
  }

  // ----- identities -----

  function LinesOf(fields: seq<Text>): Text {
    if fields == [] then [] else fields[0] + "\n" + LinesOf(fields[1..])
  }

  function SizedLines(items: seq<Text>): Text {
    if items == [] then [] else Dec(|items[0]|) + ":" + items[0] + "\n" + SizedLines(items[1..])
  }

  function BoolToken(b: bool): Text {
    if b then "1" else "0"
  }

  function OptionalBool(b: Option<bool>): Text {
    if b.None? then "*" else BoolToken(b.value)
  }

  function SignedDec(n: int): Text {
    if n < 0 then "-" + Dec(-n) else Dec(n)
  }

  function CanonicalRule(r: Rule): Text {
    Dec(r.schemaVersion) + "\n" + (r.name + "\n" + AfterName(r))
  }

  /** The canonical text below the rule's name. */
  function AfterName(r: Rule): Text {
    var tags := Ordering.Distinct(Ordering.Sort(r.tags));
    LinesOf([SignedDec(r.priority), r.effect.Name(), r.subjectPrefix, r.slotId,
             if r.capability.Some? then r.capability.value.Name() else "*",
             if r.layer.Some? then r.layer.value.Name() else "*",
             OptionalBool(r.destructive), OptionalBool(r.persistent), OptionalBool(r.externalSideEffect),
             r.minRisk.Name(), r.maxRisk.Name(), r.minAuthority.Name(),
             BoolToken(r.requireValidatedAuthority), BoolToken(r.requireRuntimeBinding), BoolToken(r.requireActiveIdentity),
             BoolToken(r.enabled), Dec(|tags|)]) + SizedLines(tags)
  }

  const RULE_PREFIX: Text := "guff:policy-rule:sha256:"
  const POLICY_PREFIX: Text := "guff:policy:sha256:"

  function RuleId(sha: Hash, r: Rule): Text {
    RULE_PREFIX + sha(CanonicalRule(r))
  }

  function Texts(f: Rule -> Text, rules: seq<Rule>): seq<Text> {
    if rules == [] then [] else [f(rules[0])] + Texts(f, rules[1..])
  }

  function CanonicalPolicy(d: Document): Text {
    var rules := Ordering.Sort(Texts(CanonicalRule, d.rules));
    LinesOf([Dec(d.schemaVersion), d.name, d.defaultDecision.Name(), Dec(|d.rules|)]) + SizedLines(rules)
  }

  function PolicyId(sha: Hash, d: Document): (id: Text)
    ensures PrefixedSha256(id, POLICY_PREFIX)
  {
    var digest := sha(CanonicalPolicy(d));
    assert (POLICY_PREFIX + digest)[|POLICY_PREFIX|..] == digest;
    POLICY_PREFIX + digest
  }

  // ----- validation -----

  predicate ValidOptionalText(t: Text, maxBytes: nat) {
    t == [] || ValidText(t, maxBytes)
  }

  /** An ALLOW rule must narrow the operation in some way. */
  predicate Narrows(r: Rule) {
    || r.subjectPrefix != [] || r.slotId != [] || r.capability.Some? || r.layer.Some?
    || r.destructive.Some? || r.persistent.Some? || r.externalSideEffect.Some?
  }

  predicate ValidRule(r: Rule) {
    && r.schemaVersion == 1 && ValidText(r.name, 128) && ValidOptionalText(r.subjectPrefix, 256) && ValidOptionalText(r.slotId, 192)
    && -1_000_000 <= r.priority <= 1_000_000 && r.minRisk.Rank() <= r.maxRisk.Rank()
    && (r.effect == Allow ==> Narrows(r))
    && (r.requireRuntimeBinding ==> r.minAuthority.Rank() >= RuntimeLeaseAuthority.Rank())
    && |r.tags| <= 32 && (forall i | 0 <= i < |r.tags| :: ValidText(r.tags[i], 64))
  }

  predicate ValidDocument(d: Document) {
    && d.schemaVersion == 1 && ValidText(d.name, 128) && d.defaultDecision == Refuse && d.rules != []
    && (forall i | 0 <= i < |d.rules| :: ValidRule(d.rules[i]))
    && (forall i, j | 0 <= i < j < |d.rules| :: d.rules[i].name != d.rules[j].name)
  }

  predicate ValidOperation(o: Operation) {
    ValidText(o.subjectId, 256) && ValidText(o.slotId, 192) && 0.0 <= o.uncertainty <= 1.0
  }

  predicate IdentityHolds(q: Request) {
    q.operation.requiresIdentity ==>
      && q.identity.Some? && q.identity.value.valid
      && q.identity.value.slotId == q.operation.slotId && q.identity.value.layer == q.operation.layer
      && q.identity.value.active
  }

  predicate AuthorityHolds(q: Request) {
    var a := q.authority;
    q.operation.requiresAuthority ==>
      && a.validated && a.level != NoAuthority && a.scopeMatches && a.capabilityMatches && a.authorityId != []
      && (a.level.Rank() >= RuntimeLeaseAuthority.Rank() ==> a.runtimeBindingMatches)
  }

  /** What refuses an evaluation before any rule is looked at. */
  function Precheck(d: Document, b: EvaluationBudget, q: Request): EvaluationStatus {
    if b.maxRules == 0 || b.maxMatchedRules == 0 || b.maxTraceEntries == 0 || b.maxReasonBytes == 0 then BudgetExceeded
    else if !ValidDocument(d) then InvalidPolicy
    else if |d.rules| > b.maxRules then BudgetExceeded
    else if !ValidOperation(q.operation) then InvalidRequest
    else if !IdentityHolds(q) then IdentityRejected
    else if !AuthorityHolds(q) then AuthorityRejected
    else Decided
  }

  // ----- matching -----

  predicate Matches(r: Rule, q: Request, risk: Risk) {
    var o := q.operation;
    && r.enabled && r.subjectPrefix <= o.subjectId && (r.slotId == [] || o.slotId == r.slotId)
    && (r.capability.Some? ==> o.capability == r.capability.value) && (r.layer.Some? ==> o.layer == r.layer.value)
    && (r.destructive.Some? ==> o.destructive == r.destructive.value)
    && (r.persistent.Some? ==> o.persistent == r.persistent.value)
    && (r.externalSideEffect.Some? ==> o.externalSideEffect == r.externalSideEffect.value)
    && r.minRisk.Rank() <= risk.Rank() <= r.maxRisk.Rank()
    && r.minAuthority.Rank() <= q.authority.level.Rank()
    && (r.requireValidatedAuthority ==> q.authority.validated)
    && (r.requireRuntimeBinding ==> q.authority.runtimeBindingMatches)
    && (r.requireActiveIdentity ==> q.identity.Some? && q.identity.value.active)
  }

  function Matching(rules: seq<Rule>, q: Request, risk: Risk): seq<Rule> {
    if rules == [] then []
    else
      var last := rules[|rules| - 1];
      Matching(rules[..|rules| - 1], q, risk) + (if Matches(last, q, risk) then [last] else [])
  }

  // ----- the order of rules -----

  type Identify = Rule -> Text

  /** `a` outranks `b`: higher precedence, then higher priority, then the smaller identity. */
  predicate Beats(id: Identify, a: Rule, b: Rule) {
    || a.effect.Precedence() > b.effect.Precedence()
    || (a.effect.Precedence() == b.effect.Precedence() && a.priority > b.priority)
    || (a.effect.Precedence() == b.effect.Precedence() && a.priority == b.priority && Ordering.Less(id(a), id(b)))
  }

  /** A matching rule that no matching rule beats. */
  predicate Wins(id: Identify, w: Rule, matching: seq<Rule>) {
    w in matching && forall r | r in matching :: !Beats(id, r, w)
  }

  /** Identity collisions aside, different rules have different identities. */
  predicate DistinctIds(id: Identify, rules: seq<Rule>) {
    forall a, b | a in rules && b in rules && a != b :: id(a) != id(b)
  }

  lemma BeatsIsTotal(id: Identify, a: Rule, b: Rule)
    ensures !(Beats(id, a, b) && Beats(id, b, a))
    ensures Beats(id, a, b) || Beats(id, b, a) || (a.effect == b.effect && a.priority == b.priority && id(a) == id(b))
  {
    Ordering.LessTrichotomy(id(a), id(b));
  }

  lemma BeatsTransitive(id: Identify, a: Rule, b: Rule, c: Rule)
    requires Beats(id, a, b) && !Beats(id, c, b)
    ensures !Beats(id, c, a)
  {
    var x, y, z := id(a), id(b), id(c);
    Ordering.LessTrichotomy(x, z);
    Ordering.LessTrichotomy(y, z);
    if Ordering.Less(x, y) && Ordering.Less(z, x) {
      Ordering.LessTransitive(z, x, y);
    }
  }

  /** The winner's effect and priority are those of any other winner; with distinct identities so is the rule itself. */
  lemma WinnersAgree(id: Identify, v: Rule, w: Rule, matching: seq<Rule>)
    requires Wins(id, v, matching) && Wins(id, w, matching)
    ensures v.effect == w.effect && v.priority == w.priority
    ensures DistinctIds(id, matching) ==> v == w
  {
    BeatsIsTotal(id, v, w);
  }

  // ----- the trace -----

  const RISK_CODE: Text := "RISK"
  const MATCH_CODE: Text := "MATCH"
  const REFUSE_CODE: Text := "REFUSE"
  const DEFAULT_CODE: Text := "DEFAULT"
  const DECISION_CODE: Text := "DECISION"
  const ARROW: Text := " => "

  function Cut(t: Text, n: nat): Text {
    if |t| > n then t[..n] else t
  }

  function Entry(b: EvaluationBudget, code: Text, detail: Text): TraceEntry {
    TraceEntry(code, Cut(detail, b.maxReasonBytes))
  }

  function MatchEntry(b: EvaluationBudget, r: Rule): TraceEntry {
    Entry(b, MATCH_CODE, r.name + ARROW + r.effect.Name())
  }

  /** One entry per matching rule, in order. */
  function MatchEntries(b: EvaluationBudget, matching: seq<Rule>): seq<TraceEntry> {
    if matching == [] then [] else MatchEntries(b, matching[..|matching| - 1]) + [MatchEntry(b, matching[|matching| - 1])]
  }

  /** Everything a decided evaluation has to report, before the trace ceiling. */
  function FullTrace(b: EvaluationBudget, risk: Risk, matching: seq<Rule>, reason: Text): seq<TraceEntry> {
    [Entry(b, RISK_CODE, risk.Name())] + MatchEntries(b, matching)
    + [Entry(b, if matching == [] then DEFAULT_CODE else DECISION_CODE, reason)]
  }

  /** The kept trace is the beginning of the full one, and truncation is reported exactly when entries are missing. */
  predicate Keeps(b: EvaluationBudget, full: seq<TraceEntry>, t: Trail) {
    t.entries == FirstN(full, b.maxTraceEntries) && (t.truncated <==> |full| > b.maxTraceEntries)
  }

  const NO_TRAIL := Trail([], false)

  /** Appends to the trace while there is room. */
  method AppendTrace(b: EvaluationBudget, ghost full: seq<TraceEntry>, t: Trail, entry: TraceEntry) returns (t': Trail)
    requires Keeps(b, full, t)
    ensures Keeps(b, full + [entry], t')
  {
    if |t.entries| >= b.maxTraceEntries {
      return t.(truncated := true);
    }
    return t.(entries := t.entries + [entry]);
  }

  // ----- the evaluation loop -----

  function Ids(id: Identify, rules: seq<Rule>): (ids: seq<Text>)
    ensures |ids| == |rules|
  {
    if rules == [] then [] else Ids(id, rules[..|rules| - 1]) + [id(rules[|rules| - 1])]
  }

  function FirstN<T>(xs: seq<T>, n: nat): seq<T> {
    if |xs| <= n then xs else xs[..n]
  }

  datatype Selection = Selection(winner: Option<Rule>, matchedIds: seq<Text>, truncated: bool)

  /** The right selection: the first identities that fit, and a matching rule that nothing beats. */
  predicate Selects(id: Identify, matching: seq<Rule>, max: nat, s: Selection) {
    && s.matchedIds == FirstN(Ids(id, matching), max) && (s.truncated <==> |matching| > max)
    && (s.winner.None? <==> matching == [])
    && (s.winner.Some? ==> Wins(id, s.winner.value, matching))
  }

  /** One more matching rule. */
  method Consider(id: Identify, ghost before: seq<Rule>, max: nat, s: Selection, rule: Rule) returns (s': Selection)
    requires Selects(id, before, max, s)
    ensures Selects(id, before + [rule], max, s')
  {
    assert (before + [rule])[..|before|] == before;
    s' := s;
    if |s.matchedIds| < max {
      s' := s'.(matchedIds := s.matchedIds + [id(rule)]);
    } else {
      s' := s'.(truncated := true);
    }
    if s.winner.None? || Beats(id, rule, s.winner.value) {
      NewWinner(id, before, s.winner, rule);
      s' := s'.(winner := Some(rule));
    } else {
      BeatsIsTotal(id, rule, s.winner.value);
    }
  }

  lemma NewWinner(id: Identify, before: seq<Rule>, winner: Option<Rule>, rule: Rule)
    requires winner.None? ==> before == []
    requires winner.Some? ==> Wins(id, winner.value, before) && Beats(id, rule, winner.value)
    ensures Wins(id, rule, before + [rule])
  {
    BeatsIsTotal(id, rule, rule);
    forall r | r in before ensures !Beats(id, r, rule) {
      BeatsTransitive(id, rule, winner.value, r);
    }
  }

  /** One more matching rule, for the winner and for the trace. */
  method TakeMatch(id: Identify, ghost before: seq<Rule>, b: EvaluationBudget, ghost full: seq<TraceEntry>, s: Selection, t: Trail,
                   rule: Rule)
    returns (s': Selection, t': Trail)
    requires Selects(id, before, b.maxMatchedRules, s) && Keeps(b, full + MatchEntries(b, before), t)
    ensures Selects(id, before + [rule], b.maxMatchedRules, s') && Keeps(b, full + MatchEntries(b, before + [rule]), t')
  {
    s' := Consider(id, before, b.maxMatchedRules, s, rule);
    t' := AppendTrace(b, full + MatchEntries(b, before), t, MatchEntry(b, rule));
    EntriesGrow(b, full, before, rule);
  }

  method Select(id: Identify, rules: seq<Rule>, q: Request, risk: Risk, b: EvaluationBudget, ghost full: seq<TraceEntry>, t: Trail)
    returns (s: Selection, t': Trail)
    requires Keeps(b, full, t)
    ensures Selects(id, Matching(rules, q, risk), b.maxMatchedRules, s)
    ensures Keeps(b, full + MatchEntries(b, Matching(rules, q, risk)), t')
  {
    s, t' := Selection(None, [], false), t;
    assert full + [] == full;
    for i := 0 to |rules|
      invariant Selects(id, Matching(rules[..i], q, risk), b.maxMatchedRules, s)
      invariant Keeps(b, full + MatchEntries(b, Matching(rules[..i], q, risk)), t')
    {
      ghost var before := Matching(rules[..i], q, risk);
      MatchingGrows(rules, i, q, risk);
      if Matches(rules[i], q, risk) {
        s, t' := TakeMatch(id, before, b, full, s, t', rules[i]);
      } else {
        assert Matching(rules[..i + 1], q, risk) == before;
      }
    }
    assert rules[..|rules|] == rules;
  }

  lemma MatchingGrows(rules: seq<Rule>, i: nat, q: Request, risk: Risk)
    requires i < |rules|
    ensures Matching(rules[..i + 1], q, risk) == Matching(rules[..i], q, risk) + (if Matches(rules[i], q, risk) then [rules[i]] else [])
  {
    assert rules[..i + 1][..i] == rules[..i];
  }

  lemma EntriesGrow(b: EvaluationBudget, full: seq<TraceEntry>, before: seq<Rule>, r: Rule)
    ensures full + MatchEntries(b, before + [r]) == full + MatchEntries(b, before) + [MatchEntry(b, r)]
  {
    assert (before + [r])[..|before|] == before;
  }

  // ----- evaluation -----

  const SELECTED_BY: Text := "policy rule "
  const SELECTED: Text := " selected "
  const NO_MATCH: Text := "no policy rule matched; default deny"

  function IdentifyBy(sha: Hash): Identify {
    (r: Rule) => RuleId(sha, r)
  }

  function ReasonFor(w: Rule, b: EvaluationBudget): Text {
    Cut(SELECTED_BY + w.name + SELECTED + w.effect.Name(), b.maxReasonBytes)
  }

  /** Which evaluations of a document are right; the wording of a refusal before matching is left open. */
  predicate Correct(id: Identify, d: Document, b: EvaluationBudget, q: Request, e: Evaluation) {
    var status, matching := Precheck(d, b, q), Matching(d.rules, q, ClassifyRisk(q.operation));
    && e.risk == ClassifyRisk(q.operation) && e.status == status
    && (status != Decided ==>
          && e.decision == Refuse && e.matchedIds == [] && !e.matchedTruncated
          && Keeps(b, [Entry(b, REFUSE_CODE, e.reason)], e.trail))
    && (status == Decided ==>
          && Keeps(b, FullTrace(b, e.risk, matching, e.reason), e.trail)
          && e.matchedIds == FirstN(Ids(id, matching), b.maxMatchedRules)
          && (e.matchedTruncated <==> |matching| > b.maxMatchedRules)
          && (matching == [] ==> e.decision == Refuse && e.reason == NO_MATCH)
          && (matching != [] ==>
                exists w | w in matching :: Wins(id, w, matching) && e.decision == w.effect && e.reason == ReasonFor(w, b)))
  }

  method Evaluate(sha: Hash, d: Document, b: EvaluationBudget, q: Request) returns (e: Evaluation)
    ensures Correct(IdentifyBy(sha), d, b, q, e)
    ensures e.policyId == PolicyId(sha, d)
  {
    e := EvaluateBy(IdentifyBy(sha), PolicyId(sha, d), d, b, q);
  }

  method EvaluateBy(id: Identify, policyId: Text, d: Document, b: EvaluationBudget, q: Request) returns (e: Evaluation)
    ensures Correct(id, d, b, q, e)
    ensures e.policyId == policyId
  {
    var risk := ClassifyRisk(q.operation);
    var status := Precheck(d, b, q);
    if status != Decided {
      var refused := AppendTrace(b, [], NO_TRAIL, Entry(b, REFUSE_CODE, []));
      return Evaluation(status, Refuse, risk, policyId, [], false, refused, []);
    }
    var opening := Entry(b, RISK_CODE, risk.Name());
    var started := AppendTrace(b, [], NO_TRAIL, opening);
    var s, t := Select(id, d.rules, q, risk, b, [opening], started);
    ghost var matching := Matching(d.rules, q, risk);
    var decision, reason, code := Refuse, NO_MATCH, DEFAULT_CODE;
    if s.winner.Some? {
      decision, reason, code := s.winner.value.effect, ReasonFor(s.winner.value, b), DECISION_CODE;
    }
    var closed := AppendTrace(b, [opening] + MatchEntries(b, matching), t, Entry(b, code, reason));
    assert FullTrace(b, risk, matching, reason) == [opening] + MatchEntries(b, matching) + [Entry(b, code, reason)];
    return Evaluation(Decided, decision, risk, policyId, s.matchedIds, s.truncated, closed, reason);
  }

  // ----- order-free and deny-dominant -----

  lemma {:induction false} MatchingContents(rules: seq<Rule>, q: Request, risk: Risk)
    ensures forall r :: r in Matching(rules, q, risk) <==> r in rules && Matches(r, q, risk)
  {
    if rules != [] {
      MatchingContents(rules[..|rules| - 1], q, risk);
      assert rules == rules[..|rules| - 1] + [rules[|rules| - 1]];
    }
  }

  lemma SameMembersSameWinners(id: Identify, xs: seq<Rule>, ys: seq<Rule>, w: Rule)
    requires forall r :: r in xs <==> r in ys
    ensures Wins(id, w, xs) <==> Wins(id, w, ys)
  {
  }

  lemma PermutedMembers(xs: seq<Rule>, ys: seq<Rule>)
    requires multiset(xs) == multiset(ys)
    ensures forall r :: r in xs <==> r in ys
  {
    forall r ensures r in xs <==> r in ys {
      assert r in xs <==> r in multiset(xs);
      assert r in ys <==> r in multiset(ys);
    }
  }

  lemma MatchingMembers(xs: seq<Rule>, ys: seq<Rule>, q: Request, risk: Risk)
    requires multiset(xs) == multiset(ys)
    ensures forall r :: r in Matching(xs, q, risk) <==> r in Matching(ys, q, risk)
    ensures Matching(xs, q, risk) == [] ==> Matching(ys, q, risk) == []
    ensures forall r :: r in Matching(xs, q, risk) ==> r in xs
  {
    PermutedMembers(xs, ys);
    MatchingContents(xs, q, risk);
    MatchingContents(ys, q, risk);
    if Matching(ys, q, risk) != [] {
      assert Matching(ys, q, risk)[0] in Matching(xs, q, risk);
    }
  }

  /**
   The decision and risk of a decided evaluation do not depend on the order of the rules; nor does the reason, when no
   two rules share an identity.
   */
  lemma WinnerIsOrderFree(id: Identify, d: Document, d': Document, b: EvaluationBudget, q: Request, e: Evaluation, e': Evaluation)
    requires multiset(d.rules) == multiset(d'.rules)
    requires Correct(id, d, b, q, e) && Correct(id, d', b, q, e') && e.status == Decided && e'.status == Decided
    ensures e.decision == e'.decision && e.risk == e'.risk
    ensures DistinctIds(id, d.rules) ==> e.reason == e'.reason
  {
    var risk := ClassifyRisk(q.operation);
    var m, m' := Matching(d.rules, q, risk), Matching(d'.rules, q, risk);
    MatchingMembers(d.rules, d'.rules, q, risk);
    if m != [] {
      assert m[0] in m';
      var w :| w in m && Wins(id, w, m) && e.decision == w.effect && e.reason == ReasonFor(w, b);
      var w' :| w' in m' && Wins(id, w', m') && e'.decision == w'.effect && e'.reason == ReasonFor(w', b);
      SameMembersSameWinners(id, m, m', w');
      WinnersAgree(id, w, w', m);
    }
  }

  /** The texts hashed to identify a document's rules. */
  ghost function RuleTexts(d: Document): set<Text> {
    set r | r in d.rules :: CanonicalRule(r)
  }

  /** The canonical text of a rule shows its name on the second line. */
  lemma CanonicalShowsName(a: Rule, b: Rule)
    requires ValidRule(a) && ValidRule(b) && CanonicalRule(a) == CanonicalRule(b)
    ensures a.name == b.name
  {
    var restA, restB := AfterName(a), AfterName(b);
    DecFree(a.schemaVersion);
    FirstLine(Dec(a.schemaVersion), a.name + "\n" + restA, Dec(b.schemaVersion), b.name + "\n" + restB);
    PrintableIsLineFree(a.name, 128);
    PrintableIsLineFree(b.name, 128);
    FirstLine(a.name, restA, b.name, restB);
  }

  lemma DecFree(n: nat)
    ensures LineFree(Dec(n))
  {
  }

  lemma PrintableIsLineFree(t: Text, max: nat)
    requires ValidText(t, max)
    ensures LineFree(t)
  {
  }

  /** In a valid document rule names differ, so rule identities do unless the hash maps two of its rules to one digest. */
  lemma ValidRulesAreDistinct(sha: Hash, d: Document)
    requires ValidDocument(d) && HashedApart(sha, RuleTexts(d))
    ensures DistinctIds(IdentifyBy(sha), d.rules)
  {
    forall a, b | a in d.rules && b in d.rules && a != b ensures IdentifyBy(sha)(a) != IdentifyBy(sha)(b) {
      var i :| 0 <= i < |d.rules| && d.rules[i] == a;
      var j :| 0 <= j < |d.rules| && d.rules[j] == b;
      assert a.name != b.name;
      assert CanonicalRule(a) in RuleTexts(d) && CanonicalRule(b) in RuleTexts(d);
      if CanonicalRule(a) == CanonicalRule(b) {
        CanonicalShowsName(a, b);
      }
      RuleIdDetermines(sha, a, b);
    }
  }

  lemma RuleIdDetermines(sha: Hash, a: Rule, b: Rule)
    ensures RuleId(sha, a) == RuleId(sha, b) ==> sha(CanonicalRule(a)) == sha(CanonicalRule(b))
  {
    assert sha(CanonicalRule(a)) == RuleId(sha, a)[|RULE_PREFIX|..];
    assert sha(CanonicalRule(b)) == RuleId(sha, b)[|RULE_PREFIX|..];
  }

  /**
   The decision and risk of a decided evaluation do not depend on the order of the rules; nor does the reason, unless
   the hash maps two of the document's rules to one digest.
   */
  lemma DecisionIsOrderFree(sha: Hash, d: Document, d': Document, b: EvaluationBudget, q: Request, e: Evaluation, e': Evaluation)
    requires multiset(d.rules) == multiset(d'.rules)
    requires Correct(IdentifyBy(sha), d, b, q, e) && Correct(IdentifyBy(sha), d', b, q, e')
    requires e.status == Decided && e'.status == Decided
    ensures e.decision == e'.decision && e.risk == e'.risk
    ensures HashedApart(sha, RuleTexts(d)) ==> e.reason == e'.reason
  {
    WinnerIsOrderFree(IdentifyBy(sha), d, d', b, q, e, e');
    if HashedApart(sha, RuleTexts(d)) {
      ValidRulesAreDistinct(sha, d);
    }
  }

  lemma WinnerRanksHighest(id: Identify, w: Rule, matching: seq<Rule>)
    requires Wins(id, w, matching)
    ensures forall r | r in matching :: r.effect.Precedence() <= w.effect.Precedence()
  {
    forall r | r in matching ensures r.effect.Precedence() <= w.effect.Precedence() {
      assert !Beats(id, r, w);
    }
  }

  /** ALLOW comes out exactly when some rule matches and every matching rule says ALLOW; one refusal refuses. */
  lemma DenyDominates(id: Identify, d: Document, b: EvaluationBudget, q: Request, e: Evaluation)
    requires Correct(id, d, b, q, e) && e.status == Decided
    ensures var matching := Matching(d.rules, q, ClassifyRisk(q.operation));
            && (forall r :: r in matching <==> r in d.rules && Matches(r, q, ClassifyRisk(q.operation)))
            && (e.decision == Allow <==> matching != [] && forall r | r in matching :: r.effect == Allow)
            && (e.decision == Refuse <==> matching == [] || exists r | r in matching :: r.effect == Refuse)
  {
    var risk := ClassifyRisk(q.operation);
    var m := Matching(d.rules, q, risk);
    MatchingContents(d.rules, q, risk);
    if m != [] {
      var w :| w in m && Wins(id, w, m) && e.decision == w.effect && e.reason == ReasonFor(w, b);
      WinnerRanksHighest(id, w, m);
    }
  }

  lemma {:induction false} TextsSplit(f: Rule -> Text, xs: seq<Rule>, ys: seq<Rule>)
    ensures Texts(f, xs + ys) == Texts(f, xs) + Texts(f, ys)
  {
    if xs == [] {
      assert xs + ys == ys;
    } else {
      TextsSplit(f, xs[1..], ys);
      assert (xs + ys)[1..] == xs[1..] + ys && (xs + ys)[0] == xs[0];
      FirstTwoTogether([f(xs[0])], Texts(f, xs[1..]), Texts(f, ys));
    }
  }

  lemma FirstTwoTogether(a: seq<Text>, b: seq<Text>, c: seq<Text>)
    ensures a + (b + c) == (a + b) + c
  {
  }

  lemma TextsContents(f: Rule -> Text, rules: seq<Rule>, k: nat)
    requires k < |rules|
    ensures multiset(Texts(f, rules)) == multiset(Texts(f, rules[..k] + rules[k + 1..])) + multiset(Texts(f, [rules[k]]))
  {
    AroundIndex(rules, k);
    MiddleContents(f, rules[..k], [rules[k]], rules[k + 1..]);
  }

  lemma AroundIndex(rules: seq<Rule>, k: nat)
    requires k < |rules|
    ensures rules == rules[..k] + ([rules[k]] + rules[k + 1..])
  {
  }

  lemma MiddleContents(f: Rule -> Text, a: seq<Rule>, b: seq<Rule>, c: seq<Rule>)
    ensures multiset(Texts(f, a + (b + c))) == multiset(Texts(f, a + c)) + multiset(Texts(f, b))
  {
    TextsSplit(f, a, b + c);
    TextsSplit(f, b, c);
    TextsSplit(f, a, c);
    MiddleApart(Texts(f, a), Texts(f, b), Texts(f, c));
  }

  lemma MiddleApart(a: seq<Text>, b: seq<Text>, c: seq<Text>)
    ensures multiset(a + (b + c)) == multiset(a + c) + multiset(b)
  {
  }

  lemma {:induction false} TextsOrderFree(f: Rule -> Text, xs: seq<Rule>, ys: seq<Rule>)
    requires multiset(xs) == multiset(ys)
    ensures multiset(Texts(f, xs)) == multiset(Texts(f, ys))
    decreases |xs|
  {
    if xs == [] {
      assert |ys| == |multiset(ys)| == 0;
    } else {
      assert xs[0] in multiset(ys);
      var k :| 0 <= k < |ys| && ys[k] == xs[0];
      var rest := ys[..k] + ys[k + 1..];
      Ordering.WithoutFirst(xs, ys, k);
      TextsOrderFree(f, xs[1..], rest);
      TextsContents(f, ys, k);
      TextsSplit(f, [xs[0]], xs[1..]);
      assert xs == [xs[0]] + xs[1..];
    }
  }

  /** The policy's identity does not depend on the order its rules are listed in. */
  lemma PolicyIdIsOrderFree(sha: Hash, d: Document, d': Document)
    requires multiset(d.rules) == multiset(d'.rules) && d' == d.(rules := d'.rules)
    ensures PolicyId(sha, d) == PolicyId(sha, d')
  {
    TextsOrderFree(CanonicalRule, d.rules, d'.rules);
    Ordering.SortIsOrderFree(Texts(CanonicalRule, d.rules), Texts(CanonicalRule, d'.rules));
    assert |d.rules| == |multiset(d.rules)| == |multiset(d'.rules)| == |d'.rules|;
  }
}
