/** The registry as the source runs it: a scan over mutable state, and operations over its journal text. */
module PolicyRegistryObject {
  import opened Wrappers
  import opened Text
  import opened HashChain
  import opened PolicyRegistry
  import opened PolicyRegistryQuery
  import PE = PolicyEngine

  /** The state `scan_registry` folds the lines into. */
  class RegistryScan {
    const sha: Hash
    const budget: Budget
    var healthy: bool
    var next: nat
    var head: Text
    var policies: map<Text, Stored>
    var packages: map<Text, Text>
    var controls: set<Text>
    var nonces: map<Text, Text>
    var active: Text
    var activePackage: Text
    var generation: nat

    function Value(): Scan
      reads this
    {
      Scan(healthy, next, head, policies, packages, controls, nonces, active, activePackage, generation)
    }

    constructor (sha: Hash, budget: Budget)
      ensures this.sha == sha && this.budget == budget && Value() == FRESH
    {
      this.sha, this.budget := sha, budget;
      healthy, next, head := true, 0, GENESIS;
      policies, packages, controls, nonces := map[], map[], {}, map[];
      active, activePackage, generation := [], [], 0;
    }

    method ReadRegister(r: Record) returns (ok: bool)
      modifies this
      ensures ok == ScanRegister(old(Value()), budget.maxPolicies, r).Some?
      ensures Value() == if ok then ScanRegister(old(Value()), budget.maxPolicies, r).value else old(Value())
    {
      if |policies| >= budget.maxPolicies || r.policyId in policies || r.packageId in packages {
        return false;
      }
      packages := packages[r.packageId := r.policyId];
      policies := policies[r.policyId := Stored(PackageOf(r), false, false)];
      return true;
    }

    method ReadRevoke(r: Record) returns (ok: bool)
      modifies this
      ensures ok == ScanRevoke(old(Value()), r).Some?
      ensures Value() == if ok then ScanRevoke(old(Value()), r).value else old(Value())
    {
      if !ControlFits(Value(), r) || policies[r.policyId].revoked {
        return false;
      }
      controls := controls + {r.controlId};
      nonces := nonces[NonceKey(r.signerId, r.nonce) := r.controlId];
      policies := policies[r.policyId := policies[r.policyId].(revoked := true)];
      if active == r.policyId {
        active, activePackage := [], [];
        generation := generation + 1;
      }
      return true;
    }

    method ReadActivate(r: Record) returns (ok: bool)
      modifies this
      ensures ok == ScanActivate(old(Value()), r).Some?
      ensures Value() == if ok then ScanActivate(old(Value()), r).value else old(Value())
    {
      if !ControlFits(Value(), r) || policies[r.policyId].revoked {
        return false;
      }
      if r.kind == Rollback && !policies[r.policyId].everActive {
        return false;
      }
      if active == r.policyId {
        return false;
      }
      controls := controls + {r.controlId};
      nonces := nonces[NonceKey(r.signerId, r.nonce) := r.controlId];
      active, activePackage := r.policyId, r.packageId;
      policies := policies[r.policyId := policies[r.policyId].(everActive := true)];
      generation := generation + 1;
      return true;
    }

    method ReadRecord(r: Record)
      requires healthy
      modifies this
      ensures Value() == ScanRecord(old(Value()), budget.maxPolicies, r)
    {
      if r.sequence != next || r.previous != head {
        healthy := false;
        return;
      }
      var ok;
      match r.kind {
        case Register => ok := ReadRegister(r);
        case Revoke => ok := ReadRevoke(r);
        case _ => ok := ReadActivate(r);
      }
      if !ok {
        healthy := false;
        return;
      }
      head := r.recordSha256;
      next := next + 1;
    }

    method ReadText(line: Text)
      requires healthy
      modifies this
      ensures Value() == ScanLine(sha, old(Value()), budget, line)
    {
      if next >= budget.maxRecords {
        healthy := false;
        return;
      }
      var record := Deserialize(sha, Trimmed(line));
      if record.None? {
        healthy := false;
        return;
      }
      ReadRecord(record.value);
    }
  }

  method ScanAll(sha: Hash, b: Budget, journal: seq<Text>) returns (s: Scan)
    ensures s == ScanRegistry(sha, b, journal)
  {
    var state := new RegistryScan(sha, b);
    var i := 0;
    NothingScans(sha, b, journal);
    while i < |journal| && state.healthy
      invariant 0 <= i <= |journal| && state.sha == sha && state.budget == b && fresh(state)
      invariant state.Value() == ScanRegistry(sha, b, journal[..i])
    {
      NextLineScans(sha, b, journal, i);
      state.ReadText(journal[i]);
      i := i + 1;
    }
    DamagedRegistryStays(sha, b, journal, i);
    assert journal[..|journal|] == journal;
    return state.Value();
  }

  lemma NothingScans(sha: Hash, b: Budget, journal: seq<Text>)
    ensures ScanRegistry(sha, b, journal[..0]) == FRESH
  {
  }

  lemma NextLineScans(sha: Hash, b: Budget, journal: seq<Text>, i: nat)
    requires i < |journal| && ScanRegistry(sha, b, journal[..i]).healthy
    ensures ScanRegistry(sha, b, journal[..i + 1]) == ScanLine(sha, ScanRegistry(sha, b, journal[..i]), b, journal[i])
  {
    assert journal[..i + 1][..i] == journal[..i];
  }

  /** Once a prefix is damaged, the rest of the text changes nothing. */
  lemma {:induction false} DamagedRegistryStays(sha: Hash, b: Budget, journal: seq<Text>, i: nat)
    requires i <= |journal| && (i < |journal| ==> !ScanRegistry(sha, b, journal[..i]).healthy)
    ensures ScanRegistry(sha, b, journal) == ScanRegistry(sha, b, journal[..i])
    decreases |journal|
  {
    assert journal[..|journal|] == journal;
    if i < |journal| {
      var front := journal[..|journal| - 1];
      assert front[..i] == journal[..i];
      DamagedRegistryStays(sha, b, front, i);
    }
  }

  const REGISTRY_UNHEALTHY: Text := "policy registry is unhealthy; "
  const FAILS_CLOSED: Text := "evaluation fails closed"
  const UNHEALTHY := REGISTRY_UNHEALTHY + FAILS_CLOSED
  const DOCUMENT_IS_NOT: Text := "policy document is not the "
  const ACTIVE_POLICY: Text := "currently active registered policy"
  const NOT_ACTIVE := DOCUMENT_IS_NOT + ACTIVE_POLICY

  class SignedPolicyRegistryFile {
    const crypto: RegistryCrypto
    const budget: Budget
    var journal: seq<Text>

    constructor (crypto: RegistryCrypto, budget: Budget, journal: seq<Text>)
      ensures this.crypto == crypto && this.budget == budget && this.journal == journal
    {
      this.crypto, this.budget, this.journal := crypto, budget, journal;
    }

    method AppendRecord(r: Record, appends: bool, active: Text, failed: Text) returns (status: Status, reported: Text)
      modifies this
      ensures Written(journal, status, reported) == Append(crypto.sha, old(journal), r, appends, active, failed)
    {
      var record := r.(recordSha256 := crypto.sha(CanonicalRecord(r)));
      var line := Serialize(record);
      if |line| > MAX_LINE {
        return Invalid, failed;
      }
      if !appends {
        return StorageFailure, failed;
      }
      journal := journal + [line];
      return Ready, active;
    }

    method Execute(op: RegistryOp, appends: bool) returns (status: Status, reported: Text)
      requires |journal| <= MAX_U64
      modifies this
      ensures Written(journal, status, reported) == Perform(crypto, budget, old(journal), op, appends)
    {
      var s := ScanAll(crypto.sha, budget, journal);
      ScanLength(crypto.sha, budget, journal);
      match Decide(crypto, budget, s, op)
      case Refused(refusal) =>
        status, reported := refusal, [];
      case Write(r) =>
        status, reported := AppendRecord(r, appends, ReportedActive(s, op), FailedActive(s, op));
    }

    method Register(d: PE.Document, p: Package, appends: bool) returns (status: Status, reported: Text)
      requires |journal| <= MAX_U64
      modifies this
      ensures Written(journal, status, reported) == Perform(crypto, budget, old(journal), RegisterPolicy(d, p), appends)
    {
      status, reported := Execute(RegisterPolicy(d, p), appends);
    }

    method Control(c: PolicyRegistry.Control, appends: bool) returns (status: Status, reported: Text)
      requires |journal| <= MAX_U64
      modifies this
      ensures Written(journal, status, reported) == Perform(crypto, budget, old(journal), ApplyControl(c), appends)
    {
      status, reported := Execute(ApplyControl(c), appends);
    }

    method PackageOfPolicy(id: Text) returns (package: Option<Package>)
      ensures package == PackageById(crypto.sha, budget, journal, id)
    {
      var s := ScanAll(crypto.sha, budget, journal);
      if !s.healthy || id == [] {
        return None;
      }
      package := FindPackageLoop(journal, id);
    }

    method CurrentPackage() returns (package: Option<Package>)
      ensures package == ActivePackage(crypto.sha, budget, journal)
    {
      var s := ScanAll(crypto.sha, budget, journal);
      if !s.healthy || s.active == [] {
        return None;
      }
      package := FindPackageLoop(journal, s.active);
      if package.None? || package.value.packageId != s.activePackage {
        return None;
      }
    }

    /** Evaluates a document only while it is the registry's active policy. */
    method Evaluate(d: PE.Document, b: PE.EvaluationBudget, q: PE.Request) returns (e: PE.Evaluation)
      ensures var s := ScanRegistry(crypto.sha, budget, journal);
              var id := PE.PolicyId(crypto.sha, d);
              if s.healthy && s.active == id && id in s.policies && !s.policies[id].revoked
              then PE.Correct(PE.IdentifyBy(crypto.sha), d, b, q, e)
              else
                && e.status == PE.PolicyInactive && e.decision == PE.Refuse && e.risk == PE.ClassifyRisk(q.operation)
                && e.reason == (if s.healthy then NOT_ACTIVE else UNHEALTHY)
                && e.trail == PE.Trail([PE.TraceEntry(PE.REFUSE_CODE, e.reason)], false)
      ensures e.policyId == PE.PolicyId(crypto.sha, d)
    {
      var s := ScanAll(crypto.sha, budget, journal);
      var id := PE.PolicyId(crypto.sha, d);
      if !s.healthy || s.active != id || id !in s.policies || s.policies[id].revoked {
        var reason := if s.healthy then NOT_ACTIVE else UNHEALTHY;
        return PE.Evaluation(PE.PolicyInactive, PE.Refuse, PE.ClassifyRisk(q.operation), id, [], false,
                             PE.Trail([PE.TraceEntry(PE.REFUSE_CODE, reason)], false), reason);
      }
      e := PE.Evaluate(crypto.sha, d, b, q);
    }
  }
}
