/**
 The registry's history as one linear compare-and-swap sequence, stated on records alone, and the
 proof that the scan accepts exactly such histories and reports exactly what they say.
 */
module PolicyRegistryLaws {
  import opened Text
  import opened PolicyRegistry

  type History = seq<Record>

  // ----- what a history says -----

  predicate IsControl(r: Record) {
    r.kind != Register
  }

  predicate Activates(r: Record) {
    r.kind == Activate || r.kind == Rollback
  }

  /** The active policy after a history. */
  function ActiveAfter(h: History): Text {
    if h == [] then []
    else
      var before, r := ActiveAfter(h[..|h| - 1]), h[|h| - 1];
      if Activates(r) then r.policyId else if r.kind == Revoke && r.policyId == before then [] else before
  }

  function ActivePackageAfter(h: History): Text {
    if h == [] then []
    else
      var r := h[|h| - 1];
      if Activates(r) then r.packageId
      else if r.kind == Revoke && r.policyId == ActiveAfter(h[..|h| - 1]) then []
      else ActivePackageAfter(h[..|h| - 1])
  }

  /** How often the active policy changed. */
  function Changes(h: History): nat {
    if h == [] then 0
    else Changes(h[..|h| - 1]) + (if ActiveAfter(h) != ActiveAfter(h[..|h| - 1]) then 1 else 0)
  }

  function Registrations(h: History): nat {
    if h == [] then 0 else Registrations(h[..|h| - 1]) + (if h[|h| - 1].kind == Register then 1 else 0)
  }

  ghost predicate Registered(h: History, id: Text) {
    exists i | 0 <= i < |h| :: h[i].kind == Register && h[i].policyId == id
  }

  ghost predicate PackageRegistered(h: History, package: Text) {
    exists i | 0 <= i < |h| :: h[i].kind == Register && h[i].packageId == package
  }

  ghost predicate RegisteredAs(h: History, id: Text, package: Text) {
    exists i | 0 <= i < |h| :: h[i].kind == Register && h[i].policyId == id && h[i].packageId == package
  }

  ghost predicate Revoked(h: History, id: Text) {
    exists i | 0 <= i < |h| :: h[i].kind == Revoke && h[i].policyId == id
  }

  ghost predicate EverActive(h: History, id: Text) {
    exists i | 0 <= i < |h| :: Activates(h[i]) && h[i].policyId == id
  }

  ghost predicate ControlUsed(h: History, id: Text) {
    exists i | 0 <= i < |h| :: IsControl(h[i]) && h[i].controlId == id
  }

  ghost predicate NonceUsed(h: History, key: Text) {
    exists i | 0 <= i < |h| :: IsControl(h[i]) && NonceKey(h[i].signerId, h[i].nonce) == key
  }

  function HeadOf(h: History): Text {
    if h == [] then GENESIS else h[|h| - 1].recordSha256
  }

  /** A control swaps against the current active policy, is new, and names a registered pair. */
  ghost predicate FreshControl(h: History, r: Record) {
    && r.expectedActive == ActiveAfter(h)
    && !ControlUsed(h, r.controlId) && !NonceUsed(h, NonceKey(r.signerId, r.nonce))
    && RegisteredAs(h, r.policyId, r.packageId)
    && !Revoked(h, r.policyId)
  }

  /** What must hold of the record that follows a history. */
  ghost predicate Follows(h: History, maxPolicies: nat, r: Record) {
    && r.sequence == |h| && r.previous == HeadOf(h)
    && match r.kind
       case Register => Registrations(h) < maxPolicies && !Registered(h, r.policyId) && !PackageRegistered(h, r.packageId)
       case Revoke => FreshControl(h, r)
       case Activate => FreshControl(h, r) && ActiveAfter(h) != r.policyId
       case Rollback => FreshControl(h, r) && ActiveAfter(h) != r.policyId && EverActive(h, r.policyId)
  }

  ghost predicate Lawful(h: History, maxPolicies: nat) {
    forall j | 0 <= j < |h| :: Follows(h[..j], maxPolicies, h[j])
  }

  lemma LawfulExtends(h: History, maxPolicies: nat, r: Record)
    ensures Lawful(h + [r], maxPolicies) <==> Lawful(h, maxPolicies) && Follows(h, maxPolicies, r)
  {
    var g := h + [r];
    assert g[..|h|] == h;
    forall j | 0 <= j < |h| ensures g[..j] == h[..j] && g[j] == h[j] {
    }
    if Lawful(g, maxPolicies) {
      forall j | 0 <= j < |h| ensures Follows(h[..j], maxPolicies, h[j]) {
        assert Follows(g[..j], maxPolicies, g[j]);
      }
      assert Follows(g[..|h|], maxPolicies, g[|h|]);
    }
    if Lawful(h, maxPolicies) && Follows(h, maxPolicies, r) {
      forall j | 0 <= j < |g| ensures Follows(g[..j], maxPolicies, g[j]) {
        if j < |h| {
          assert Follows(h[..j], maxPolicies, h[j]);
        }
      }
    }
  }

  // ----- the scan state describes the history -----

  ghost predicate FlagsDescribe(h: History, policies: map<Text, Stored>) {
    && (forall id :: id in policies <==> Registered(h, id))
    && (forall id | id in policies :: policies[id].revoked <==> Revoked(h, id))
    && (forall id | id in policies :: policies[id].everActive <==> EverActive(h, id))
  }

  ghost predicate StoredAsRegistered(h: History, policies: map<Text, Stored>) {
    forall i | 0 <= i < |h| && h[i].kind == Register ::
      h[i].policyId in policies && policies[h[i].policyId].package == PackageOf(h[i])
  }

  ghost predicate PoliciesDescribe(h: History, policies: map<Text, Stored>) {
    |policies| == Registrations(h) && FlagsDescribe(h, policies) && StoredAsRegistered(h, policies)
  }

  ghost predicate PackagesDescribe(h: History, packages: map<Text, Text>) {
    && (forall p :: p in packages <==> PackageRegistered(h, p))
    && (forall i | 0 <= i < |h| && h[i].kind == Register :: h[i].packageId in packages && packages[h[i].packageId] == h[i].policyId)
  }

  ghost predicate ControlsDescribe(h: History, controls: set<Text>, nonces: map<Text, Text>) {
    && (forall c :: c in controls <==> ControlUsed(h, c))
    && (forall k :: k in nonces <==> NonceUsed(h, k))
    && (forall k | k in nonces :: nonces[k] in controls)
  }

  ghost predicate ActiveDescribes(h: History, s: Scan) {
    s.active == ActiveAfter(h) && s.activePackage == ActivePackageAfter(h) && s.generation == Changes(h)
  }

  ghost predicate Describes(h: History, s: Scan) {
    && s.healthy && s.next == |h| && s.head == HeadOf(h)
    && PoliciesDescribe(h, s.policies) && PackagesDescribe(h, s.packages) && ControlsDescribe(h, s.controls, s.nonces)
    && ActiveDescribes(h, s)
    && (forall id :: EverActive(h, id) || Revoked(h, id) ==> Registered(h, id))
    && ([] !in s.policies)
  }

  // ----- how one more record changes what the history says -----

  lemma PoliciesExtend(h: History, r: Record, id: Text)
    ensures Registered(h + [r], id) <==> Registered(h, id) || (r.kind == Register && r.policyId == id)
    ensures PackageRegistered(h + [r], id) <==> PackageRegistered(h, id) || (r.kind == Register && r.packageId == id)
    ensures Revoked(h + [r], id) <==> Revoked(h, id) || (r.kind == Revoke && r.policyId == id)
    ensures EverActive(h + [r], id) <==> EverActive(h, id) || (Activates(r) && r.policyId == id)
  {
    var g := h + [r];
    assert forall i | 0 <= i < |h| :: g[i] == h[i];
    assert g[|h|] == r;
  }

  lemma ControlsExtend(h: History, r: Record, x: Text)
    ensures ControlUsed(h + [r], x) <==> ControlUsed(h, x) || (IsControl(r) && r.controlId == x)
    ensures NonceUsed(h + [r], x) <==> NonceUsed(h, x) || (IsControl(r) && NonceKey(r.signerId, r.nonce) == x)
  {
    var g := h + [r];
    assert forall i | 0 <= i < |h| :: g[i] == h[i];
    assert g[|h|] == r;
  }

  lemma CountsExtend(h: History, r: Record)
    ensures Registrations(h + [r]) == Registrations(h) + if r.kind == Register then 1 else 0
    ensures ActiveAfter(h + [r]) == if Activates(r) then r.policyId
                                    else if r.kind == Revoke && r.policyId == ActiveAfter(h) then [] else ActiveAfter(h)
    ensures ActivePackageAfter(h + [r]) == if Activates(r) then r.packageId
                                           else if r.kind == Revoke && r.policyId == ActiveAfter(h) then [] else ActivePackageAfter(h)
    ensures Changes(h + [r]) == Changes(h) + if ActiveAfter(h + [r]) != ActiveAfter(h) then 1 else 0
  {
    assert (h + [r])[..|h|] == h;
  }

  lemma PairDescribes(h: History, s: Scan, id: Text, package: Text)
    requires PoliciesDescribe(h, s.policies) && PackagesDescribe(h, s.packages)
    ensures package in s.packages && s.packages[package] == id && id in s.policies <==> RegisteredAs(h, id, package)
  {
    if package in s.packages && s.packages[package] == id {
      var i :| 0 <= i < |h| && h[i].kind == Register && h[i].packageId == package;
      assert h[i].policyId == id;
    }
    if RegisteredAs(h, id, package) {
      var i :| 0 <= i < |h| && h[i].kind == Register && h[i].policyId == id && h[i].packageId == package;
    }
  }

  lemma ControlFitsDescribes(h: History, s: Scan, r: Record)
    requires Describes(h, s)
    ensures ControlFits(s, r) && !s.policies[r.policyId].revoked <==> FreshControl(h, r)
  {
    PairDescribes(h, s, r.policyId, r.packageId);
  }

  // ----- one accepted record -----

  lemma MapSize(m: map<Text, Stored>, k: Text, v: Stored)
    ensures |m[k := v]| == |m| + if k in m then 0 else 1
  {
    assert m[k := v].Keys == m.Keys + {k};
  }

  lemma FlagsAfter(h: History, policies: map<Text, Stored>, r: Record, stored: Stored)
    requires FlagsDescribe(h, policies)
    requires r.kind == Register || r.policyId in policies
    requires stored.revoked <==> Revoked(h, r.policyId) || r.kind == Revoke
    requires stored.everActive <==> EverActive(h, r.policyId) || Activates(r)
    ensures FlagsDescribe(h + [r], policies[r.policyId := stored])
  {
    var g, policies' := h + [r], policies[r.policyId := stored];
    forall id ensures id in policies' <==> Registered(g, id)
              ensures id in policies' ==> (policies'[id].revoked <==> Revoked(g, id)) && (policies'[id].everActive <==> EverActive(g, id)) {
      PoliciesExtend(h, r, id);
    }
  }

  lemma StoredAfter(h: History, policies: map<Text, Stored>, r: Record, stored: Stored)
    requires StoredAsRegistered(h, policies)
    requires if r.kind == Register then !Registered(h, r.policyId) && stored.package == PackageOf(r)
             else r.policyId in policies && stored.package == policies[r.policyId].package
    ensures StoredAsRegistered(h + [r], policies[r.policyId := stored])
  {
    var g := h + [r];
    forall i | 0 <= i < |g| && g[i].kind == Register
      ensures g[i].policyId in policies[r.policyId := stored] && policies[r.policyId := stored][g[i].policyId].package == PackageOf(g[i]) {
      if i < |h| {
        assert g[i] == h[i];
        assert Registered(h, h[i].policyId);
      }
    }
  }

  /** The stored policies after a registration, or after a control that sets one flag. */
  lemma PoliciesAfter(h: History, policies: map<Text, Stored>, r: Record, stored: Stored)
    requires PoliciesDescribe(h, policies)
    requires if r.kind == Register then !Registered(h, r.policyId) && stored.package == PackageOf(r)
             else r.policyId in policies && stored.package == policies[r.policyId].package
    requires stored.revoked <==> Revoked(h, r.policyId) || r.kind == Revoke
    requires stored.everActive <==> EverActive(h, r.policyId) || Activates(r)
    ensures PoliciesDescribe(h + [r], policies[r.policyId := stored])
  {
    CountsExtend(h, r);
    MapSize(policies, r.policyId, stored);
    FlagsAfter(h, policies, r, stored);
    StoredAfter(h, policies, r, stored);
  }

  lemma RegisterPackages(h: History, packages: map<Text, Text>, r: Record)
    requires PackagesDescribe(h, packages) && r.kind == Register && !PackageRegistered(h, r.packageId)
    ensures PackagesDescribe(h + [r], packages[r.packageId := r.policyId])
  {
    var g, packages' := h + [r], packages[r.packageId := r.policyId];
    forall p ensures p in packages' <==> PackageRegistered(g, p) {
      PoliciesExtend(h, r, p);
    }
    forall i | 0 <= i < |g| && g[i].kind == Register
      ensures g[i].packageId in packages' && packages'[g[i].packageId] == g[i].policyId {
      if i < |h| {
        assert g[i] == h[i];
        assert PackageRegistered(h, h[i].packageId);
      }
    }
  }

  lemma OtherPackages(h: History, packages: map<Text, Text>, r: Record)
    requires PackagesDescribe(h, packages) && IsControl(r)
    ensures PackagesDescribe(h + [r], packages)
  {
    forall p ensures p in packages <==> PackageRegistered(h + [r], p) {
      PoliciesExtend(h, r, p);
    }
    assert forall i | 0 <= i < |h| :: (h + [r])[i] == h[i];
  }

  lemma ControlsAfter(h: History, controls: set<Text>, nonces: map<Text, Text>, r: Record)
    requires ControlsDescribe(h, controls, nonces)
    ensures IsControl(r) ==>
              ControlsDescribe(h + [r], controls + {r.controlId}, nonces[NonceKey(r.signerId, r.nonce) := r.controlId])
    ensures !IsControl(r) ==> ControlsDescribe(h + [r], controls, nonces)
  {
    forall x ensures ControlUsed(h + [r], x) <==> ControlUsed(h, x) || (IsControl(r) && r.controlId == x)
             ensures NonceUsed(h + [r], x) <==> NonceUsed(h, x) || (IsControl(r) && NonceKey(r.signerId, r.nonce) == x) {
      ControlsExtend(h, r, x);
    }
  }

  lemma KnownStay(h: History, r: Record)
    requires forall id :: EverActive(h, id) || Revoked(h, id) ==> Registered(h, id)
    requires IsControl(r) ==> Registered(h, r.policyId)
    ensures forall id :: EverActive(h + [r], id) || Revoked(h + [r], id) ==> Registered(h + [r], id)
  {
    forall id ensures EverActive(h + [r], id) || Revoked(h + [r], id) ==> Registered(h + [r], id) {
      PoliciesExtend(h, r, id);
    }
  }

  lemma RegisterStep(h: History, s: Scan, maxPolicies: nat, r: Record)
    requires Describes(h, s) && r.kind == Register && Follows(h, maxPolicies, r) && r.policyId != []
    ensures Describes(h + [r], ScanRecord(s, maxPolicies, r))
  {
    PoliciesAfter(h, s.policies, r, Stored(PackageOf(r), false, false));
    RegisterPackages(h, s.packages, r);
    ControlsAfter(h, s.controls, s.nonces, r);
    CountsExtend(h, r);
    KnownStay(h, r);
  }

  /** What a control leaves behind, whichever kind it is. */
  lemma ControlScans(s: Scan, maxPolicies: nat, r: Record)
    requires IsControl(r) && s.healthy && ScanRecord(s, maxPolicies, r).healthy
    ensures ControlFits(s, r) && !s.policies[r.policyId].revoked
    ensures var s', stored := ScanRecord(s, maxPolicies, r), s.policies[r.policyId];
            && s'.next == s.next + 1 && s'.head == r.recordSha256 && s'.packages == s.packages
            && s'.controls == s.controls + {r.controlId} && s'.nonces == s.nonces[NonceKey(r.signerId, r.nonce) := r.controlId]
            && s'.policies == s.policies[r.policyId := stored.(revoked := stored.revoked || r.kind == Revoke,
                                                               everActive := stored.everActive || Activates(r))]
            && s'.active == (if Activates(r) then r.policyId else if r.policyId == s.active then [] else s.active)
            && s'.activePackage == (if Activates(r) then r.packageId else if r.policyId == s.active then [] else s.activePackage)
            && s'.generation == s.generation + if Activates(r) || r.policyId == s.active then 1 else 0
  {
  }

  lemma ControlDescribes(h: History, s: Scan, s': Scan, r: Record, stored: Stored)
    requires Describes(h, s) && IsControl(r) && r.policyId in s.policies && Registered(h, r.policyId)
    requires stored.package == s.policies[r.policyId].package
    requires stored.revoked <==> Revoked(h, r.policyId) || r.kind == Revoke
    requires stored.everActive <==> EverActive(h, r.policyId) || Activates(r)
    requires s'.healthy && s'.next == s.next + 1 && s'.head == r.recordSha256 && s'.packages == s.packages
    requires s'.controls == s.controls + {r.controlId} && s'.nonces == s.nonces[NonceKey(r.signerId, r.nonce) := r.controlId]
    requires s'.policies == s.policies[r.policyId := stored] && ActiveDescribes(h + [r], s')
    ensures Describes(h + [r], s')
  {
    PoliciesAfter(h, s.policies, r, stored);
    OtherPackages(h, s.packages, r);
    ControlsAfter(h, s.controls, s.nonces, r);
    KnownStay(h, r);
  }

  lemma ActiveAfterControl(h: History, s: Scan, s': Scan, r: Record)
    requires ActiveDescribes(h, s) && IsControl(r) && r.policyId != [] && (Activates(r) ==> s.active != r.policyId)
    requires s'.active == (if Activates(r) then r.policyId else if r.policyId == s.active then [] else s.active)
    requires s'.activePackage == (if Activates(r) then r.packageId else if r.policyId == s.active then [] else s.activePackage)
    requires s'.generation == s.generation + if Activates(r) || r.policyId == s.active then 1 else 0
    ensures ActiveDescribes(h + [r], s')
  {
    CountsExtend(h, r);
  }

  lemma ControlStep(h: History, s: Scan, maxPolicies: nat, r: Record)
    requires Describes(h, s) && IsControl(r) && ScanRecord(s, maxPolicies, r).healthy && r.policyId != []
    requires Activates(r) ==> ActiveAfter(h) != r.policyId
    ensures Describes(h + [r], ScanRecord(s, maxPolicies, r))
  {
    var s', stored := ScanRecord(s, maxPolicies, r), s.policies[r.policyId];
    ControlScans(s, maxPolicies, r);
    ActiveAfterControl(h, s, s', r);
    ControlDescribes(h, s, s', r, stored.(revoked := stored.revoked || r.kind == Revoke, everActive := stored.everActive || Activates(r)));
  }

  lemma ControlAccepted(h: History, s: Scan, maxPolicies: nat, r: Record)
    requires Describes(h, s) && IsControl(r)
    ensures ScanRecord(s, maxPolicies, r).healthy <==> Follows(h, maxPolicies, r)
  {
    if r.kind == Revoke {
      RevocationAccepted(h, s, maxPolicies, r);
    } else {
      ActivationAccepted(h, s, maxPolicies, r);
    }
  }

  lemma RevocationScans(s: Scan, maxPolicies: nat, r: Record)
    requires s.healthy && r.kind == Revoke
    ensures ScanRecord(s, maxPolicies, r).healthy <==>
              r.sequence == s.next && r.previous == s.head && ControlFits(s, r) && !s.policies[r.policyId].revoked
  {
  }

  lemma ActivationScans(s: Scan, maxPolicies: nat, r: Record)
    requires s.healthy && Activates(r)
    ensures ScanRecord(s, maxPolicies, r).healthy <==>
              && r.sequence == s.next && r.previous == s.head && ControlFits(s, r) && !s.policies[r.policyId].revoked
              && s.active != r.policyId && (r.kind == Rollback ==> s.policies[r.policyId].everActive)
  {
  }

  lemma RevocationAccepted(h: History, s: Scan, maxPolicies: nat, r: Record)
    requires Describes(h, s) && r.kind == Revoke
    ensures ScanRecord(s, maxPolicies, r).healthy <==> Follows(h, maxPolicies, r)
  {
    RevocationScans(s, maxPolicies, r);
    ControlFitsDescribes(h, s, r);
  }

  lemma ActivationAccepted(h: History, s: Scan, maxPolicies: nat, r: Record)
    requires Describes(h, s) && Activates(r)
    ensures ScanRecord(s, maxPolicies, r).healthy <==> Follows(h, maxPolicies, r)
  {
    ActivationScans(s, maxPolicies, r);
    ControlFitsDescribes(h, s, r);
  }

  /** One record: the scan accepts it exactly when it may follow, and then describes the longer history. */
  lemma ScanStep(h: History, s: Scan, maxPolicies: nat, r: Record)
    requires Describes(h, s) && r.policyId != []
    ensures ScanRecord(s, maxPolicies, r).healthy <==> Follows(h, maxPolicies, r)
    ensures Follows(h, maxPolicies, r) ==> Describes(h + [r], ScanRecord(s, maxPolicies, r))
  {
    if r.kind == Register {
      if Follows(h, maxPolicies, r) {
        RegisterStep(h, s, maxPolicies, r);
      }
    } else {
      ControlAccepted(h, s, maxPolicies, r);
      if Follows(h, maxPolicies, r) {
        ControlStep(h, s, maxPolicies, r);
      }
    }
  }
}
