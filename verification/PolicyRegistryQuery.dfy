/** Looking packages up straight from the text of a healthy registry, and why that agrees with the full scan. */
module PolicyRegistryQuery {
  import opened Wrappers
  import opened Text
  import opened HashChain
  import opened Readings
  import opened PolicyRegistry
  import opened PolicyRegistryLaws
  import opened PolicyRegistryTheorems

  // ----- the lookup -----

  datatype LineAnswer = Stop | Skip | Found(package: Package)

  function PackageFields(f: seq<Text>): Option<Package>
    requires |f| == 18
  {
    match (ParseUnsigned(f[8], MAX_U64), HexDecode(f[6]), HexDecode(f[7]), HexDecode(f[9]))
    case (Some(at), Some(signer), Some(algorithm), Some(signature)) =>
      if at <= MAX_U64 then Some(Package(1, f[4], signer, algorithm, at, signature, f[5])) else None
    case _ => None
  }

  /** What one line answers to a lookup: give up, look further, or the package. */
  function LookAt(line: Text, id: Text): LineAnswer {
    var f := SplitTabs(line);
    if |f| != 18 || f[0] != MARKER then Stop
    else
      var schema, kind := ParseUnsigned(f[1], MAX_U32), ParseUnsigned(f[3], MAX_U32);
      if schema.None? || kind.None? then Stop
      else if schema.value != 1 || kind.value != 0 || f[4] != id then Skip
      else
        match PackageFields(f)
        case None => Stop
        case Some(p) => Found(p)
  }

  /** The first answer that settles the lookup. */
  function FirstAnswer(look: Text -> LineAnswer, journal: seq<Text>): Option<Package> {
    if journal == [] then None
    else
      match look(journal[0])
      case Stop => None
      case Found(p) => Some(p)
      case Skip => FirstAnswer(look, journal[1..])
  }

  function Looking(id: Text): Text -> LineAnswer {
    (line: Text) => LookAt(Trimmed(line), id)
  }

  function FindPackage(journal: seq<Text>, id: Text): Option<Package> {
    FirstAnswer(Looking(id), journal)
  }

  method FindPackageLoop(journal: seq<Text>, id: Text) returns (package: Option<Package>)
    ensures package == FindPackage(journal, id)
  {
    package := FirstAnswerLoop(Looking(id), journal);
  }

  method FirstAnswerLoop(look: Text -> LineAnswer, journal: seq<Text>) returns (package: Option<Package>)
    ensures package == FirstAnswer(look, journal)
  {
    assert journal[0..] == journal;
    for i := 0 to |journal|
      invariant FirstAnswer(look, journal) == FirstAnswer(look, journal[i..])
    {
      assert journal[i..][1..] == journal[i + 1..];
      match look(journal[i]) {
        case Stop => return None;
        case Found(p) => return Some(p);
        case Skip =>
      }
    }
    return None;
  }

  function PackageById(sha: Hash, b: Budget, journal: seq<Text>, id: Text): Option<Package> {
    if !ScanRegistry(sha, b, journal).healthy || id == [] then None else FindPackage(journal, id)
  }

  function ActivePackage(sha: Hash, b: Budget, journal: seq<Text>): Option<Package> {
    var s := ScanRegistry(sha, b, journal);
    if !s.healthy || s.active == [] then None
    else
      match FindPackage(journal, s.active)
      case None => None
      case Some(p) => if p.packageId != s.activePackage then None else Some(p)
  }

  // ----- agreement with the scan -----

  lemma ParsedFields(f: seq<Text>, r: Record)
    requires |f| == 18 && ParseRecord(f) == Some(r)
    ensures ParseUnsigned(f[1], MAX_U32) == Some(r.schemaVersion) && ParseUnsigned(f[3], MAX_U32) == Some(r.kind.Code())
    ensures f[4] == r.policyId && r.schemaVersion == 1
    ensures r.kind == Register ==> PackageFields(f) == Some(PackageOf(r))
  {
  }

  lemma RecordIsParsed(sha: Hash, line: Text, r: Record)
    requires Deserialize(sha, line) == Some(r)
    ensures var f := SplitTabs(line);
            |f| == 18 && f[0] == MARKER && ParseRecord(f) == Some(r)
  {
  }

  lemma LookAtRecord(sha: Hash, line: Text, r: Record, id: Text)
    requires Deserialize(sha, line) == Some(r)
    ensures LookAt(line, id) == AnswerOf(r, id)
  {
    RecordIsParsed(sha, line, r);
    ParsedFields(SplitTabs(line), r);
  }

  /** The package of the first registration of a policy. */
  function FirstRegistered(h: History, id: Text): Option<Package> {
    if h == [] then None
    else if h[0].kind == Register && h[0].policyId == id then Some(PackageOf(h[0]))
    else FirstRegistered(h[1..], id)
  }

  function AnswerOf(r: Record, id: Text): LineAnswer {
    if r.kind == Register && r.policyId == id then Found(PackageOf(r)) else Skip
  }

  lemma {:induction false} FindsFirstRegistered(look: Text -> LineAnswer, journal: seq<Text>, h: History, id: Text)
    requires |h| == |journal| && forall i | 0 <= i < |h| :: look(journal[i]) == AnswerOf(h[i], id)
    ensures FirstAnswer(look, journal) == FirstRegistered(h, id)
  {
    if journal != [] {
      assert look(journal[0]) == AnswerOf(h[0], id);
      forall i | 0 <= i < |h| - 1 ensures look(journal[1..][i]) == AnswerOf(h[1..][i], id) {
        assert look(journal[i + 1]) == AnswerOf(h[i + 1], id);
      }
      FindsFirstRegistered(look, journal[1..], h[1..], id);
    }
  }

  lemma {:induction false} FirstIsSomeRegistration(h: History, id: Text)
    ensures FirstRegistered(h, id).Some? ==>
              exists i | 0 <= i < |h| :: h[i].kind == Register && h[i].policyId == id && FirstRegistered(h, id) == Some(PackageOf(h[i]))
    ensures FirstRegistered(h, id).None? ==> !Registered(h, id)
  {
    if h != [] && !(h[0].kind == Register && h[0].policyId == id) {
      FirstIsSomeRegistration(h[1..], id);
      if FirstRegistered(h[1..], id).Some? {
        var i :| 0 <= i < |h[1..]| && h[1..][i].kind == Register && h[1..][i].policyId == id
                 && FirstRegistered(h[1..], id) == Some(PackageOf(h[1..][i]));
        assert h[i + 1] == h[1..][i];
      } else {
        forall i | 0 <= i < |h| ensures !(h[i].kind == Register && h[i].policyId == id) {
          if i > 0 {
            assert h[1..][i - 1] == h[i];
          }
        }
      }
    }
  }

  lemma StoredIsFirst(h: History, policies: map<Text, Stored>, id: Text)
    requires PoliciesDescribe(h, policies)
    ensures FirstRegistered(h, id) == if id in policies then Some(policies[id].package) else None
  {
    FirstIsSomeRegistration(h, id);
    assert id in policies <==> Registered(h, id);
  }

  lemma {:induction false} ReadAllIndex(sha: Hash, journal: seq<Text>, i: nat)
    requires i < |journal|
    ensures ReadAll(sha, journal)[i] == Deserialize(sha, Trimmed(journal[i]))
  {
    if i < |journal| - 1 {
      ReadAllIndex(sha, journal[..|journal| - 1], i);
    }
  }

  lemma AnswerAt(sha: Hash, journal: seq<Text>, id: Text, i: nat)
    requires i < |ReadAll(sha, journal)| && AllRead(ReadAll(sha, journal))
    ensures Looking(id)(journal[i]) == AnswerOf(Values(ReadAll(sha, journal))[i], id)
  {
    var lines := ReadAll(sha, journal);
    var h := Values(lines);
    ReadAllIndex(sha, journal, i);
    assert lines[i] == Some(h[i]);
    LookAtRecord(sha, Trimmed(journal[i]), h[i], id);
  }

  lemma AnswersAgree(sha: Hash, journal: seq<Text>, id: Text)
    requires AllRead(ReadAll(sha, journal))
    ensures forall i | 0 <= i < |ReadAll(sha, journal)| ::
              Looking(id)(journal[i]) == AnswerOf(Values(ReadAll(sha, journal))[i], id)
  {
    forall i | 0 <= i < |ReadAll(sha, journal)|
      ensures Looking(id)(journal[i]) == AnswerOf(Values(ReadAll(sha, journal))[i], id)
    {
      AnswerAt(sha, journal, id, i);
    }
  }

  lemma HealthyStores(sha: Hash, b: Budget, journal: seq<Text>)
    requires ScanRegistry(sha, b, journal).healthy
    ensures AllRead(ReadAll(sha, journal))
    ensures PoliciesDescribe(Values(ReadAll(sha, journal)), ScanRegistry(sha, b, journal).policies)
  {
    ScanDecidesLawfulness(sha, b, journal);
  }

  lemma LookupIsFirst(sha: Hash, journal: seq<Text>, id: Text)
    requires AllRead(ReadAll(sha, journal))
    ensures FindPackage(journal, id) == FirstRegistered(Values(ReadAll(sha, journal)), id)
  {
    AnswersAgree(sha, journal, id);
    FindsFirstRegistered(Looking(id), journal, Values(ReadAll(sha, journal)), id);
  }

  /** Looking a package up from the text gives exactly the package the full scan stores for that policy. */
  lemma LookupAgrees(sha: Hash, b: Budget, journal: seq<Text>, id: Text)
    requires ScanRegistry(sha, b, journal).healthy
    ensures var s := ScanRegistry(sha, b, journal);
            FindPackage(journal, id) == if id in s.policies then Some(s.policies[id].package) else None
  {
    HealthyStores(sha, b, journal);
    LookupIsFirst(sha, journal, id);
    StoredIsFirst(Values(ReadAll(sha, journal)), ScanRegistry(sha, b, journal).policies, id);
  }

  /** The active package is there whenever a policy is active: the mismatch it guards against cannot happen. */
  lemma ActivePackageAgrees(sha: Hash, b: Budget, journal: seq<Text>)
    requires ScanRegistry(sha, b, journal).healthy
    ensures var s := ScanRegistry(sha, b, journal);
            ActivePackage(sha, b, journal)
            == if s.active != [] && s.active in s.policies then Some(s.policies[s.active].package) else None
    ensures ScanRegistry(sha, b, journal).active != [] ==> ActivePackage(sha, b, journal).Some?
  {
    var s := ScanRegistry(sha, b, journal);
    ActivePolicyIsSound(sha, b, journal);
    LookupAgrees(sha, b, journal, s.active);
    UsableActiveIsFound(s, FindPackage(journal, s.active));
  }

  lemma UsableActiveIsFound(s: Scan, found: Option<Package>)
    requires ActiveIsUsable(s) && found == if s.active in s.policies then Some(s.policies[s.active].package) else None
    ensures s.active != [] ==> found.Some? && found.value.packageId == s.activePackage
  {
  }
}
