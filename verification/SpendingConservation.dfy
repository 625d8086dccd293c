/**
 Conservation across the three ledgers: whichever appends fail, lease uses are backed by session
 uses, session uses by voucher uses, and voucher uses by the root's signed budget.
 */
module SpendingConservation {
  import opened Wrappers
  import opened Text
  import opened HashChain
  import opened AuthorityReceipt
  import opened AuthorityBook
  import opened AuthorityForest
  import opened AuthorityInvariants
  import opened SessionKey
  import opened RuntimeLease
  import opened SpendingGates
  import AL = AuthorityLedger
  import AG = AuthorityGate
  import AT = AuthorityTheorems
  import Ordering

  // ----- backing: uses counted in one ledger are covered, owner by owner, in the next -----

  function OwnedBy(owner: map<Text, Text>, p: Text): set<Text> {
    set c | c in owner && owner[c] == p
  }

  function OwnedByAny(owner: map<Text, Text>, ps: set<Text>): set<Text> {
    set c | c in owner && owner[c] in ps
  }

  ghost predicate Backed(uses: map<Text, nat>, owner: map<Text, Text>, backing: map<Text, nat>) {
    && uses.Keys <= owner.Keys
    && forall p :: Sum(uses, OwnedBy(owner, p)) <= At(backing, p)
  }

  ghost predicate NoLess(low: map<Text, nat>, high: map<Text, nat>) {
    forall x :: At(low, x) <= At(high, x)
  }

  /** Backing lifts from single owners to any set of owners. */
  lemma {:induction false} BackedSum(uses: map<Text, nat>, owner: map<Text, Text>, backing: map<Text, nat>, ps: set<Text>)
    requires Backed(uses, owner, backing)
    ensures Sum(uses, OwnedByAny(owner, ps)) <= Sum(backing, ps)
    decreases |ps|
  {
    if ps == {} {
      assert OwnedByAny(owner, ps) == {};
    } else {
      var p :| p in ps;
      BackedSum(uses, owner, backing, ps - {p});
      SumSplit(uses, OwnedBy(owner, p), OwnedByAny(owner, ps - {p}));
      assert OwnedByAny(owner, ps) == OwnedBy(owner, p) + OwnedByAny(owner, ps - {p});
      SumRemove(backing, ps, p);
    }
  }

  lemma BackingGrows(uses: map<Text, nat>, owner: map<Text, Text>, backing: map<Text, nat>, backing': map<Text, nat>)
    requires Backed(uses, owner, backing) && NoLess(backing, backing')
    ensures Backed(uses, owner, backing')
  {
    forall p ensures Sum(uses, OwnedBy(owner, p)) <= At(backing', p) {
      assert At(backing, p) <= At(backing', p);
    }
  }

  /** A new, unused member changes no sum. */
  lemma BackedWithNewMember(uses: map<Text, nat>, owner: map<Text, Text>, backing: map<Text, nat>, c: Text, p: Text)
    requires Backed(uses, owner, backing) && c !in owner
    ensures Backed(uses, owner[c := p], backing)
  {
    forall q ensures Sum(uses, OwnedBy(owner[c := p], q)) <= At(backing, q) {
      if q == p {
        SumRemove(uses, OwnedBy(owner[c := p], p), c);
        assert OwnedBy(owner[c := p], p) - {c} == OwnedBy(owner, p);
      } else {
        assert OwnedBy(owner[c := p], q) == OwnedBy(owner, q);
      }
    }
  }

  /** One more use of a member, after one more use of its owner. */
  lemma BackedAfterUse(uses: map<Text, nat>, owner: map<Text, Text>, backing: map<Text, nat>, backing': map<Text, nat>, c: Text)
    requires Backed(uses, owner, backing) && c in owner && NoLess(backing, backing')
    requires At(backing', owner[c]) == At(backing, owner[c]) + 1
    ensures Backed(uses[c := At(uses, c) + 1], owner, backing')
  {
    var uses' := uses[c := At(uses, c) + 1];
    forall q ensures Sum(uses', OwnedBy(owner, q)) <= At(backing', q) {
      var s := OwnedBy(owner, q);
      assert At(backing, q) <= At(backing', q);
      if c in s {
        SumRemove(uses, s, c);
        SumRemove(uses', s, c);
        SumSame(uses, uses', s - {c});
      } else {
        SumSame(uses, uses', s);
      }
    }
  }

  // ----- each ledger's own steps -----

  function VoucherOf(l: SessionLedger): map<Text, Text> {
    map id | id in l.registrations :: l.registrations[id].voucherId
  }

  function SessionOf(l: LeaseLedger): map<Text, Text> {
    map id | id in l.registrations :: l.registrations[id].sessionReceiptId
  }

  ghost predicate SessionsBacked(t: Stores) {
    Backed(t.sessions.ledger.uses, VoucherOf(t.sessions.ledger), t.authority.ledger.uses)
  }

  ghost predicate LeasesBacked(t: Stores) {
    Backed(t.leases.ledger.uses, SessionOf(t.leases.ledger), t.sessions.ledger.uses)
  }

  ghost predicate TierInv(sha: Hash, book: Book, t: Stores) {
    Inv(sha, book, t.authority.ledger) && SessionsBacked(t) && LeasesBacked(t)
  }

  lemma AppliedUsesGrow(l: AL.Ledger, e: AL.Event)
    requires AL.Applicable(l, e)
    requires e.Used? ==> l.UseCount(e.id) <= e.use
    requires e.Delegated? ==> l.UseCount(e.parentId) <= e.use
    ensures NoLess(l.uses, AL.Apply(l, e).uses)
  {
  }

  lemma JudgedUsesGrow(crypto: Crypto, l: AL.Ledger, op: AL.Op)
    requires AL.Judge(crypto, l, op).Accept?
    ensures NoLess(l.uses, AL.Apply(l, AL.Judge(crypto, l, op).event).uses)
  {
    AppliedUsesGrow(l, AL.Judge(crypto, l, op).event);
  }

  lemma AuthorityUsesGrow(crypto: Crypto, st: AL.Store, op: AL.Op, appends: bool)
    ensures NoLess(st.ledger.uses, AL.Step(crypto, st, op, appends).store.ledger.uses)
  {
    if AL.Judge(crypto, st.ledger, op).Accept? {
      JudgedUsesGrow(crypto, st.ledger, op);
    }
  }

  /** Membership stays, or one new member joins. */
  ghost predicate GainsAtMostOne(owner: map<Text, Text>, owner': map<Text, Text>) {
    owner' == owner || exists id | id in owner' :: id !in owner && owner' == owner[id := owner'[id]]
  }

  lemma SessionAdministration(sha: Hash, st: SessionStore, op: SessionOp, appends: bool)
    requires !op.ConsumeSession?
    ensures var l, l' := st.ledger, StepSession(sha, st, op, appends).store.ledger;
            && l'.uses == l.uses
            && GainsAtMostOne(VoucherOf(l), VoucherOf(l'))
  {
    match op
    case RegisterBundle(b) => RegistrationAdds(sha, st, b, appends);
    case _ =>
  }

  /** A registration keeps every use, and files at most one new receipt under its voucher. */
  lemma RegistrationAdds(sha: Hash, st: SessionStore, b: Bundle, appends: bool)
    ensures var l, l' := st.ledger, StepSession(sha, st, RegisterBundle(b), appends).store.ledger;
            && l'.uses == l.uses
            && GainsAtMostOne(VoucherOf(l), VoucherOf(l'))
  {
    var l, l' := st.ledger, StepSession(sha, st, RegisterBundle(b), appends).store.ledger;
    if l' != l {
      var g := RegistrationOf(b);
      assert VoucherOf(l') == VoucherOf(l)[g.receiptId := g.voucherId];
    }
  }

  lemma LeaseAdministration(sha: Hash, st: LeaseStore, verdict: LeaseVerdict, appends: bool)
    requires verdict.AcceptLease? ==> !verdict.event.LeaseUsed?
    requires verdict.AcceptLease? && verdict.event.Leased? ==> verdict.event.id !in st.ledger.registrations
    ensures var l, l' := st.ledger, SettleLease(sha, st, verdict, appends).store.ledger;
            && l'.uses == l.uses
            && GainsAtMostOne(SessionOf(l), SessionOf(l'))
  {
    var l, l' := st.ledger, SettleLease(sha, st, verdict, appends).store.ledger;
    if verdict.AcceptLease? && verdict.event.Leased? && l' != l {
      assert SessionOf(l') == SessionOf(l)[verdict.event.id := verdict.event.registration.sessionReceiptId];
    }
  }

  lemma BackedAfterAdministration(uses: map<Text, nat>, owner: map<Text, Text>, owner': map<Text, Text>, backing: map<Text, nat>)
    requires Backed(uses, owner, backing)
    requires GainsAtMostOne(owner, owner')
    ensures Backed(uses, owner', backing)
  {
    if owner' != owner {
      var id :| id in owner' && id !in owner && owner' == owner[id := owner'[id]];
      BackedWithNewMember(uses, owner, backing, id, owner'[id]);
    }
  }

  // ----- the session gate -----

  /** What the gate's outcome says about the three use counts. */
  ghost predicate SessionGateEffect(t: Stores, t': Stores, allowed: bool, b: Bundle) {
    var id, voucher := b.receipt.receiptId, b.voucher.receiptId;
    && t'.leases == t.leases
    && NoLess(t.authority.ledger.uses, t'.authority.ledger.uses)
    && (allowed ==>
          && id in t.sessions.ledger.registrations && t.sessions.ledger.registrations[id].voucherId == voucher
          && At(t'.authority.ledger.uses, voucher) == At(t.authority.ledger.uses, voucher) + 1
          && t'.sessions.ledger.registrations == t.sessions.ledger.registrations
          && t'.sessions.ledger.uses == t.sessions.ledger.uses[id := At(t.sessions.ledger.uses, id) + 1])
    && (!allowed ==> t'.sessions == t.sessions)
  }

  lemma BackingEffect(crypto: Crypto, st: AL.Store, voucher: Receipt, q: Operation, now: u64, appends: bool)
    ensures var o := AG.GateAuthorize(crypto, st, Some(voucher), q.purpose, q.subject, q.scope, q.capability, now, appends);
            && NoLess(st.ledger.uses, o.store.ledger.uses)
            && (o.status == AG.Allowed ==>
                  At(o.store.ledger.uses, voucher.receiptId) == At(st.ledger.uses, voucher.receiptId) + 1)
  {
    AG.GateOpensExactly(crypto, st, Some(voucher), q.purpose, q.subject, q.scope, q.capability, now, appends);
    AuthorityUsesGrow(crypto, st, AL.Authorize(voucher, q.purpose, q.subject, q.scope, now), appends);
  }

  lemma ConsumeEffect(sha: Hash, st: SessionStore, id: Text, now: u64, appends: bool)
    ensures var o := StepSession(sha, st, ConsumeSession(id, now), appends);
            && (o.status == Allowed ==>
                  && o.store.ledger.registrations == st.ledger.registrations
                  && o.store.ledger.uses == st.ledger.uses[id := At(st.ledger.uses, id) + 1])
            && (o.status != Allowed ==> o.store == st)
  {
  }

  lemma SessionGateDoes(crypto: Crypto, kv: KeyVerifier, t: Stores, b: Bundle, q: Operation, c: Circumstances)
    ensures var o := SessionGate(crypto, kv, t, b, q, c);
            SessionGateEffect(t, o.stores, o.status == Allowed, b)
  {
    BackingEffect(crypto, t.authority, b.voucher, q, c.authorityAt, c.authorityAppends);
    ConsumeEffect(crypto.sha, t.sessions, b.receipt.receiptId, c.sessionUseAt, c.sessionAppends);
  }

  lemma SessionGateKeepsBacking(t: Stores, t': Stores, allowed: bool, b: Bundle)
    requires SessionsBacked(t) && LeasesBacked(t) && SessionGateEffect(t, t', allowed, b)
    ensures SessionsBacked(t') && LeasesBacked(t')
  {
    var uses, owner := t.sessions.ledger.uses, VoucherOf(t.sessions.ledger);
    var a, a' := t.authority.ledger.uses, t'.authority.ledger.uses;
    if allowed {
      BackedAfterUse(uses, owner, a, a', b.receipt.receiptId);
      BackingGrows(t.leases.ledger.uses, SessionOf(t.leases.ledger), uses, t'.sessions.ledger.uses);
    } else {
      BackingGrows(uses, owner, a, a');
    }
  }

  // ----- the lease gate -----

  lemma LeaseConsumeEffect(sha: Hash, st: LeaseStore, id: Text, now: u64, appends: bool)
    ensures var o := SettleLease(sha, st, JudgeLeaseUse(st.ledger, id, now), appends);
            && (o.status == Granted ==>
                  && id in st.ledger.registrations
                  && o.store.ledger.registrations == st.ledger.registrations
                  && o.store.ledger.uses == st.ledger.uses[id := At(st.ledger.uses, id) + 1])
            && (o.status != Granted ==> o.store == st)
  {
  }

  /** A lease use is granted only with one more use in each ledger; a refused one leaves the lease ledger as it was. */
  ghost predicate LeaseGateEffect(t: Stores, t': Stores, granted: bool, lease: Lease, b: Bundle) {
    var id, session, voucher := lease.leaseId, b.receipt.receiptId, b.voucher.receiptId;
    && (granted ==>
          && id in t.leases.ledger.registrations && t.leases.ledger.registrations[id].sessionReceiptId == session
          && session in t.sessions.ledger.registrations && t.sessions.ledger.registrations[session].voucherId == voucher
          && At(t'.leases.ledger.uses, id) == At(t.leases.ledger.uses, id) + 1
          && At(t'.sessions.ledger.uses, session) == At(t.sessions.ledger.uses, session) + 1
          && At(t'.authority.ledger.uses, voucher) == At(t.authority.ledger.uses, voucher) + 1)
    && (!granted ==> t'.leases == t.leases)
  }

  lemma LeasePreflightBinds(sha: Hash, kv: KeyVerifier, l: LeaseLedger, lease: Lease, b: Bundle, observed: Binding, now: u64)
    requires LeasePreflight(sha, kv, l, lease, b, observed, now) == Granted
    ensures SameBranch(lease, b) && WithinBranch(lease, b)
    ensures lease.leaseId in l.registrations
    ensures l.registrations[lease.leaseId].sessionReceiptId == lease.sessionReceiptId == b.receipt.receiptId
  {
  }

  /** The lease ledger's own consumption, after the session gate let it through. */
  lemma LeaseUseKeepsBacking(t: Stores, s: Stores, t': Stores, lease: Lease, b: Bundle)
    requires SessionsBacked(s) && LeasesBacked(t) && SessionGateEffect(t, s, true, b)
    requires t'.authority == s.authority && t'.sessions == s.sessions
    requires lease.leaseId in t.leases.ledger.registrations
    requires t.leases.ledger.registrations[lease.leaseId].sessionReceiptId == b.receipt.receiptId
    requires t'.leases.ledger.registrations == t.leases.ledger.registrations
    requires t'.leases.ledger.uses == t.leases.ledger.uses[lease.leaseId := At(t.leases.ledger.uses, lease.leaseId) + 1]
    ensures SessionsBacked(t') && LeasesBacked(t') && LeaseGateEffect(t, t', true, lease, b)
  {
    BackedAfterUse(t.leases.ledger.uses, SessionOf(t.leases.ledger), t.sessions.ledger.uses, s.sessions.ledger.uses, lease.leaseId);
  }

  lemma LeaseConsumeKeepsBacking(sha: Hash, t: Stores, s: Stores, lease: Lease, b: Bundle, now: u64, appends: bool)
    requires SessionsBacked(s) && LeasesBacked(s) && LeasesBacked(t) && SessionGateEffect(t, s, true, b)
    requires lease.leaseId in t.leases.ledger.registrations
    requires t.leases.ledger.registrations[lease.leaseId].sessionReceiptId == b.receipt.receiptId
    ensures var o := SettleLease(sha, s.leases, JudgeLeaseUse(s.leases.ledger, lease.leaseId, now), appends);
            var t' := s.(leases := o.store);
            SessionsBacked(t') && LeasesBacked(t') && LeaseGateEffect(t, t', o.status == Granted, lease, b)
  {
    var o := SettleLease(sha, s.leases, JudgeLeaseUse(s.leases.ledger, lease.leaseId, now), appends);
    LeaseConsumeEffect(sha, s.leases, lease.leaseId, now, appends);
    if o.status == Granted {
      LeaseUseKeepsBacking(t, s, s.(leases := o.store), lease, b);
    }
  }

  lemma LeaseGateKeepsBacking(crypto: Crypto, kv: KeyVerifier, t: Stores, lease: Lease, b: Bundle, observed: Binding, c: Circumstances)
    requires SessionsBacked(t) && LeasesBacked(t)
    ensures var o := LeaseGate(crypto, kv, t, lease, b, observed, c);
            && SessionsBacked(o.stores) && LeasesBacked(o.stores)
            && LeaseGateEffect(t, o.stores, o.status == Granted, lease, b)
  {
    if LeasePreflight(crypto.sha, kv, t.leases.ledger, lease, b, observed, c.leaseCheckAt) == Granted {
      var s := SessionGate(crypto, kv, t, b, LeaseOperation(lease), c);
      SessionGateDoes(crypto, kv, t, b, LeaseOperation(lease), c);
      SessionGateKeepsBacking(t, s.stores, s.status == Allowed, b);
      LeasePreflightBinds(crypto.sha, kv, t.leases.ledger, lease, b, observed, c.leaseCheckAt);
      if s.status == Allowed {
        LeaseConsumeKeepsBacking(crypto.sha, t, s.stores, lease, b, c.leaseUseAt, c.leaseAppends);
      }
    }
  }

  // ----- the handoff -----

  ghost predicate HandoffEffect(t: Stores, t': Stores) {
    && t'.leases == t.leases
    && NoLess(t.authority.ledger.uses, t'.authority.ledger.uses)
    && t'.sessions.ledger.uses == t.sessions.ledger.uses
    && GainsAtMostOne(VoucherOf(t.sessions.ledger), VoucherOf(t'.sessions.ledger))
  }

  /** The receipt a delegation request would mint. */
  function Minted(crypto: Crypto, q: AG.DelegationRequest, signer: Signer): Option<Receipt> {
    if q.parent.envelope.delegationDepth >= MAX_U32 then None
    else IssueReceipt(crypto.sha, AG.ChildEnvelope(crypto, q), signer)
  }

  /** The delegator touches the ledger at most once, to register the child it minted. */
  lemma DelegateSteps(crypto: Crypto, st: AL.Store, q: AG.DelegationRequest, signer: Signer, now: u64, appends: bool)
    ensures var o := AG.Delegate(crypto, st, q, signer, now, appends);
            o.store == st ||
            (Minted(crypto, q, signer).Some?
             && o.store == AL.Step(crypto, st, AL.RegisterDelegation(q.parent, Minted(crypto, q, signer).value, now), appends).store)
  {
  }

  lemma DelegateUsesGrow(crypto: Crypto, st: AL.Store, q: AG.DelegationRequest, signer: Signer, now: u64, appends: bool)
    ensures NoLess(st.ledger.uses, AG.Delegate(crypto, st, q, signer, now, appends).store.ledger.uses)
  {
    DelegateSteps(crypto, st, q, signer, now, appends);
    if Minted(crypto, q, signer).Some? {
      AuthorityUsesGrow(crypto, st, AL.RegisterDelegation(q.parent, Minted(crypto, q, signer).value, now), appends);
    }
  }

  lemma FinishHandoffDoes(crypto: Crypto, kv: KeyVerifier, t: Stores, delegated: Option<Receipt>, q: HandoffRequest,
                          parentSigner: Signer, childSigner: KeySigner, appends: bool)
    ensures var t' := FinishHandoff(crypto, kv, t, delegated, q, parentSigner, childSigner, appends).stores;
            && t'.authority == t.authority && t'.leases == t.leases && t'.sessions.ledger.uses == t.sessions.ledger.uses
            && GainsAtMostOne(VoucherOf(t.sessions.ledger), VoucherOf(t'.sessions.ledger))
  {
    if delegated.Some? {
      var bound := BindBundle(crypto, kv, delegated.value, q, parentSigner, childSigner);
      if bound.1.Some? {
        SessionAdministration(crypto.sha, t.sessions, RegisterBundle(bound.1.value), appends);
      }
    }
  }

  /** A handoff delegates at most one voucher, then registers at most one bundle. */
  lemma HandoffDoes(crypto: Crypto, kv: KeyVerifier, t: Stores, q: HandoffRequest, parentSigner: Signer, childSigner: KeySigner,
                    c: Circumstances)
    ensures var t' := Handoff(crypto, kv, t, q, parentSigner, childSigner, c).stores;
            && HandoffEffect(t, t')
            && (t'.authority == t.authority
                || t'.authority == AG.Delegate(crypto, t.authority, q.delegation, parentSigner, c.authorityAt, c.authorityAppends).store)
  {
    if HandoffChecks(kv, q, parentSigner, childSigner) == HandoffIssued {
      var voucher := AG.Delegate(crypto, t.authority, q.delegation, parentSigner, c.authorityAt, c.authorityAppends);
      DelegateUsesGrow(crypto, t.authority, q.delegation, parentSigner, c.authorityAt, c.authorityAppends);
      FinishHandoffDoes(crypto, kv, t.(authority := voucher.store), voucher.child, q, parentSigner, childSigner, c.sessionAppends);
    }
  }

  lemma HandoffKeepsBacking(t: Stores, t': Stores)
    requires SessionsBacked(t) && LeasesBacked(t) && HandoffEffect(t, t')
    ensures SessionsBacked(t') && LeasesBacked(t')
  {
    var uses := t.sessions.ledger.uses;
    BackingGrows(uses, VoucherOf(t.sessions.ledger), t.authority.ledger.uses, t'.authority.ledger.uses);
    BackedAfterAdministration(uses, VoucherOf(t.sessions.ledger), VoucherOf(t'.sessions.ledger), t'.authority.ledger.uses);
  }

  // ----- every move keeps the invariant -----

  /** Receipts a move shows to the authority ledger are those the book names. */
  ghost predicate PresentsMove(crypto: Crypto, book: Book, m: Move) {
    match m
    case OnAuthority(op, _) => Presents(crypto.sha, book, op)
    case IssueHandoff(q, signer, _, _) =>
      && FiledIfGenuine(crypto.sha, book, q.delegation.parent)
      && (Minted(crypto, q.delegation, signer).Some? ==>
            FiledIfGenuine(crypto.sha, book, Minted(crypto, q.delegation, signer).value))
    case SpendSession(b, _, _) => FiledIfGenuine(crypto.sha, book, b.voucher)
    case SpendLease(_, b, _, _) => FiledIfGenuine(crypto.sha, book, b.voucher)
    case _ => true
  }

  lemma BackingGateKeepsInv(crypto: Crypto, book: Book, st: AL.Store, r: Receipt, q: Operation, now: u64, appends: bool)
    requires Inv(crypto.sha, book, st.ledger) && FiledIfGenuine(crypto.sha, book, r)
    ensures Inv(crypto.sha, book, AG.GateAuthorize(crypto, st, Some(r), q.purpose, q.subject, q.scope, q.capability, now, appends).store.ledger)
  {
    StepKeepsInv(crypto, book, st, AL.Authorize(r, q.purpose, q.subject, q.scope, now), appends);
  }

  lemma SessionGateKeepsInv(crypto: Crypto, kv: KeyVerifier, book: Book, t: Stores, b: Bundle, q: Operation, c: Circumstances)
    requires Inv(crypto.sha, book, t.authority.ledger) && FiledIfGenuine(crypto.sha, book, b.voucher)
    ensures Inv(crypto.sha, book, SessionGate(crypto, kv, t, b, q, c).stores.authority.ledger)
  {
    BackingGateKeepsInv(crypto, book, t.authority, b.voucher, q, c.authorityAt, c.authorityAppends);
  }

  lemma DelegateKeepsInv(crypto: Crypto, book: Book, st: AL.Store, q: AG.DelegationRequest, signer: Signer, now: u64, appends: bool)
    requires Inv(crypto.sha, book, st.ledger) && FiledIfGenuine(crypto.sha, book, q.parent)
    requires Minted(crypto, q, signer).Some? ==> FiledIfGenuine(crypto.sha, book, Minted(crypto, q, signer).value)
    ensures Inv(crypto.sha, book, AG.Delegate(crypto, st, q, signer, now, appends).store.ledger)
  {
    DelegateSteps(crypto, st, q, signer, now, appends);
    if AG.Delegate(crypto, st, q, signer, now, appends).store != st {
      StepKeepsInv(crypto, book, st, AL.RegisterDelegation(q.parent, Minted(crypto, q, signer).value, now), appends);
    }
  }

  lemma MoveKeepsAuthority(crypto: Crypto, kv: KeyVerifier, book: Book, t: Stores, m: Move)
    requires Inv(crypto.sha, book, t.authority.ledger) && PresentsMove(crypto, book, m)
    ensures Inv(crypto.sha, book, Perform(crypto, kv, t, m).authority.ledger)
  {
    match m
    case OnAuthority(op, appends) => StepKeepsInv(crypto, book, t.authority, op, appends);
    case IssueHandoff(q, parentSigner, childSigner, c) =>
      HandoffDoes(crypto, kv, t, q, parentSigner, childSigner, c);
      DelegateKeepsInv(crypto, book, t.authority, q.delegation, parentSigner, c.authorityAt, c.authorityAppends);
    case SpendSession(b, q, c) => SessionGateKeepsInv(crypto, kv, book, t, b, q, c);
    case SpendLease(lease, b, observed, c) => SessionGateKeepsInv(crypto, kv, book, t, b, LeaseOperation(lease), c);
    case _ =>
  }

  lemma LeaseMoveKeepsBacking(sha: Hash, t: Stores, verdict: LeaseVerdict, appends: bool)
    requires LeasesBacked(t)
    requires verdict.AcceptLease? ==> !verdict.event.LeaseUsed?
    requires verdict.AcceptLease? && verdict.event.Leased? ==> verdict.event.id !in t.leases.ledger.registrations
    ensures LeasesBacked(t.(leases := SettleLease(sha, t.leases, verdict, appends).store))
  {
    var l' := SettleLease(sha, t.leases, verdict, appends).store.ledger;
    LeaseAdministration(sha, t.leases, verdict, appends);
    BackedAfterAdministration(t.leases.ledger.uses, SessionOf(t.leases.ledger), SessionOf(l'), t.sessions.ledger.uses);
  }

  lemma SessionMoveKeepsBacking(sha: Hash, t: Stores, op: SessionOp, appends: bool)
    requires SessionsBacked(t) && LeasesBacked(t) && !op.ConsumeSession?
    ensures var t' := t.(sessions := StepSession(sha, t.sessions, op, appends).store);
            SessionsBacked(t') && LeasesBacked(t')
  {
    var l' := StepSession(sha, t.sessions, op, appends).store.ledger;
    SessionAdministration(sha, t.sessions, op, appends);
    BackedAfterAdministration(t.sessions.ledger.uses, VoucherOf(t.sessions.ledger), VoucherOf(l'), t.authority.ledger.uses);
  }

  lemma AuthorityMoveKeepsBacking(crypto: Crypto, t: Stores, op: AL.Op, appends: bool)
    requires SessionsBacked(t) && LeasesBacked(t)
    ensures var t' := t.(authority := AL.Step(crypto, t.authority, op, appends).store); SessionsBacked(t') && LeasesBacked(t')
  {
    AuthorityUsesGrow(crypto, t.authority, op, appends);
    BackingGrows(t.sessions.ledger.uses, VoucherOf(t.sessions.ledger), t.authority.ledger.uses,
                 AL.Step(crypto, t.authority, op, appends).store.ledger.uses);
  }

  lemma RegistersOnlyNew(sha: Hash, kv: KeyVerifier, l: LeaseLedger, lease: Lease, b: Bundle, now: u64)
    ensures var v := JudgeRegister(sha, kv, l, lease, b, now); v.AcceptLease? ==> v.event.Leased? && v.event.id !in l.registrations
  {
  }

  lemma HandoffMoveKeepsBacking(crypto: Crypto, kv: KeyVerifier, t: Stores, q: HandoffRequest, parentSigner: Signer,
                                childSigner: KeySigner, c: Circumstances)
    requires SessionsBacked(t) && LeasesBacked(t)
    ensures var t' := Handoff(crypto, kv, t, q, parentSigner, childSigner, c).stores; SessionsBacked(t') && LeasesBacked(t')
  {
    HandoffDoes(crypto, kv, t, q, parentSigner, childSigner, c);
    HandoffKeepsBacking(t, Handoff(crypto, kv, t, q, parentSigner, childSigner, c).stores);
  }

  lemma SessionSpendKeepsBacking(crypto: Crypto, kv: KeyVerifier, t: Stores, b: Bundle, q: Operation, c: Circumstances)
    requires SessionsBacked(t) && LeasesBacked(t)
    ensures var t' := SessionGate(crypto, kv, t, b, q, c).stores; SessionsBacked(t') && LeasesBacked(t')
  {
    var o := SessionGate(crypto, kv, t, b, q, c);
    SessionGateDoes(crypto, kv, t, b, q, c);
    SessionGateKeepsBacking(t, o.stores, o.status == Allowed, b);
  }

  lemma MoveKeepsBacking(crypto: Crypto, kv: KeyVerifier, t: Stores, m: Move)
    requires SessionsBacked(t) && LeasesBacked(t) && ThroughGates(m)
    ensures SessionsBacked(Perform(crypto, kv, t, m)) && LeasesBacked(Perform(crypto, kv, t, m))
  {
    match m
    case OnAuthority(op, appends) => AuthorityMoveKeepsBacking(crypto, t, op, appends);
    case OnSessions(op, appends) => SessionMoveKeepsBacking(crypto.sha, t, op, appends);
    case RegisterLease(lease, b, now, appends) =>
      RegistersOnlyNew(crypto.sha, kv, t.leases.ledger, lease, b, now);
      LeaseMoveKeepsBacking(crypto.sha, t, JudgeRegister(crypto.sha, kv, t.leases.ledger, lease, b, now), appends);
    case RevokeLease(id, at, appends) => LeaseMoveKeepsBacking(crypto.sha, t, JudgeLeaseRevoke(t.leases.ledger, id, at), appends);
    case IssueHandoff(q, parentSigner, childSigner, c) => HandoffMoveKeepsBacking(crypto, kv, t, q, parentSigner, childSigner, c);
    case SpendSession(b, q, c) => SessionSpendKeepsBacking(crypto, kv, t, b, q, c);
    case SpendLease(lease, b, observed, c) => LeaseGateKeepsBacking(crypto, kv, t, lease, b, observed, c);
  }

  ghost predicate Orderly(crypto: Crypto, book: Book, moves: seq<Move>) {
    forall i | 0 <= i < |moves| :: ThroughGates(moves[i]) && PresentsMove(crypto, book, moves[i])
  }

  /** The receipts a move shows to the authority ledger. */
  function ShownBy(crypto: Crypto, m: Move): set<Receipt> {
    match m
    case OnAuthority(op, _) => AT.Presented(op)
    case IssueHandoff(q, signer, _, _) =>
      var minted := Minted(crypto, q.delegation, signer);
      {q.delegation.parent} + (if minted.Some? then {minted.value} else {})
    case SpendSession(b, _, _) => {b.voucher}
    case SpendLease(_, b, _, _) => {b.voucher}
    case _ => {}
  }

  function ShownIn(crypto: Crypto, moves: seq<Move>): set<Receipt> {
    set i, r | 0 <= i < |moves| && r in ShownBy(crypto, moves[i]) :: r
  }

  /** Runs over all three ledgers have such books too, over any hash that keeps the texts of their own receipts apart. */
  lemma BookForMoves(form: Form, crypto: Crypto, moves: seq<Move>) returns (book: Book)
    requires forall i | 0 <= i < |moves| :: ThroughGates(moves[i])
    requires HashedApart(crypto.sha, HashedFor(crypto.sha, ShownIn(crypto, moves)))
    requires form.Signed? ==> forall r | r in ShownIn(crypto, moves) :: WrittenOnLines(r.envelope)
    ensures book.form == form && WellFiled(book) && Orderly(crypto, book, moves)
  {
    book := BookFromHash(form, crypto.sha, ShownIn(crypto, moves));
    forall i | 0 <= i < |moves| ensures PresentsMove(crypto, book, moves[i]) {
      assert forall r | r in ShownBy(crypto, moves[i]) :: r in ShownIn(crypto, moves);
      ShownIsPresented(crypto, book, moves[i]);
    }
  }

  lemma ShownIsPresented(crypto: Crypto, book: Book, m: Move)
    requires forall r | r in ShownBy(crypto, m) :: FiledIfGenuine(crypto.sha, book, r)
    ensures PresentsMove(crypto, book, m)
  {
  }

  lemma {:induction false} RunKeepsTiers(crypto: Crypto, kv: KeyVerifier, book: Book, moves: seq<Move>)
    requires WellFiled(book) && Orderly(crypto, book, moves)
    ensures TierInv(crypto.sha, book, PerformAll(crypto, kv, moves))
  {
    if moves == [] {
      EmptyKeepsInv(crypto.sha, book);
      assert VoucherOf(EMPTY_SESSIONS) == map[] && SessionOf(EMPTY_LEASES) == map[];
      forall p ensures Sum(map[], OwnedBy(map[], p)) == 0 {
        assert OwnedBy(map[], p) == {};
      }
    } else {
      var front, last := moves[..|moves| - 1], moves[|moves| - 1];
      RunKeepsTiers(crypto, kv, book, front);
      MoveKeepsAuthority(crypto, kv, book, PerformAll(crypto, kv, front), last);
      MoveKeepsBacking(crypto, kv, PerformAll(crypto, kv, front), last);
    }
  }

  // ----- conservation -----

  /** The session receipts whose voucher is the root or descends from it. */
  ghost function SessionsUnder(t: Stores, root: Text): set<Text> {
    OwnedByAny(VoucherOf(t.sessions.ledger), Below(t.authority.ledger.parent, root))
  }

  /** The leases of those session receipts. */
  ghost function LeasesUnder(t: Stores, root: Text): set<Text> {
    OwnedByAny(SessionOf(t.leases.ledger), SessionsUnder(t, root))
  }

  /**
   No interleaving of delegation, handoff, session-key use and lease use, with appends failing anywhere, spends more
   than was signed: lease uses per session receipt stay within its uses, session uses per voucher within its uses,
   and all lease uses and all session uses under a root within the root's budget.
   */
  lemma ThreeLedgerConservation(crypto: Crypto, kv: KeyVerifier, book: Book, moves: seq<Move>, root: Text)
    requires WellFiled(book) && Orderly(crypto, book, moves) && root in book.entries
    ensures var t := PerformAll(crypto, kv, moves);
            && (forall r :: Sum(t.leases.ledger.uses, OwnedBy(SessionOf(t.leases.ledger), r)) <= At(t.sessions.ledger.uses, r))
            && (forall v :: Sum(t.sessions.ledger.uses, OwnedBy(VoucherOf(t.sessions.ledger), v)) <= At(t.authority.ledger.uses, v))
            && Sum(t.leases.ledger.uses, LeasesUnder(t, root)) <= Sum(t.sessions.ledger.uses, SessionsUnder(t, root))
            && Sum(t.sessions.ledger.uses, SessionsUnder(t, root)) <= book.entries[root].envelope.maxUses
  {
    var t := PerformAll(crypto, kv, moves);
    var below := Below(t.authority.ledger.parent, root);
    RunKeepsTiers(crypto, kv, book, moves);
    BackedSum(t.leases.ledger.uses, SessionOf(t.leases.ledger), t.sessions.ledger.uses, SessionsUnder(t, root));
    BackedSum(t.sessions.ledger.uses, VoucherOf(t.sessions.ledger), t.authority.ledger.uses, below);
    AT.InvLayered(crypto.sha, book, t.authority.ledger);
    UsesBelow(t.authority.ledger.parent, AT.Depths(book), t.authority.ledger.uses, Budgets(book), root, below);
  }

  lemma ShownIsFiled(crypto: Crypto, book: Book, moves: seq<Move>, r: Receipt)
    requires Orderly(crypto, book, moves) && r in ShownIn(crypto, moves) && Genuine(crypto.sha, r)
    ensures Filed(book, r)
  {
    var i :| 0 <= i < |moves| && r in ShownBy(crypto, moves[i]);
    assert PresentsMove(crypto, book, moves[i]);
  }

  /**
   The same without a book: over a hash that keeps the texts of the run's own receipts apart, all lease uses and all
   session uses under a genuine receipt shown to the authority ledger stay within the budget signed into it.
   */
  lemma SpendingUnderHash(crypto: Crypto, kv: KeyVerifier, moves: seq<Move>, r: Receipt)
    requires forall i | 0 <= i < |moves| :: ThroughGates(moves[i])
    requires HashedApart(crypto.sha, HashedFor(crypto.sha, ShownIn(crypto, moves)))
    requires r in ShownIn(crypto, moves) && Genuine(crypto.sha, r)
    ensures var t := PerformAll(crypto, kv, moves);
            Sum(t.leases.ledger.uses, LeasesUnder(t, r.receiptId)) <= Sum(t.sessions.ledger.uses, SessionsUnder(t, r.receiptId))
                                                                   <= r.envelope.maxUses
  {
    var book := BookForMoves(Terms, crypto, moves);
    ShownIsFiled(crypto, book, moves, r);
    ThreeLedgerConservation(crypto, kv, book, moves, r.receiptId);
  }

  // ----- what a granted lease use rests on -----

  lemma SessionPreflightBinds(crypto: Crypto, kv: KeyVerifier, l: SessionLedger, b: Bundle, q: Operation, now: u64)
    requires Preflight(crypto, kv, l, b, q.purpose, q.subject, q.scope, q.capability, now) == Allowed
    ensures VerifyCertificate(crypto, b) && VerifyChildReceipt(crypto.sha, kv, b)
    ensures q.capability in b.receipt.capabilities && now < b.receipt.expiresAt
  {
    assert BundleChecks(crypto, kv, l, b, q.purpose, q.subject, q.scope, q.capability) == Allowed;
  }

  /** The lease stays inside the voucher: same capability, scope, purpose and subject, and a shorter life. */
  ghost predicate WithinVoucher(lease: Lease, v: Envelope) {
    && lease.capability in v.capabilities && lease.scopePath == v.scopePath
    && lease.purpose == v.purpose && lease.subjectId == v.subjectId
    && v.issuedAt <= lease.issuedAt && lease.expiresAt <= v.expiresAt && lease.maxUses <= v.maxUses
  }

  lemma LeaseWithinVoucher(lease: Lease, b: Bundle)
    requires SameBranch(lease, b) && WithinBranch(lease, b)
    requires ReceiptMatchesCertificate(b) && CertificateMatchesVoucher(b)
    ensures WithinVoucher(lease, b.voucher.envelope)
  {
    var c := lease.capability;
    assert c in Names(b.receipt.capabilities);
    assert c in Names(b.certificate.capabilities);
    assert c in Names(b.voucher.envelope.capabilities);
  }

  /** `a` allows what the lease does: it holds the capability, contains the scope, and outlives the lease. */
  ghost predicate Sanctions(a: Envelope, lease: Lease) {
    && lease.capability in a.capabilities && ScopeContains(a.scopePath, lease.scopePath)
    && lease.purpose == a.purpose && lease.subjectId == a.subjectId
    && a.issuedAt <= lease.issuedAt && lease.expiresAt <= a.expiresAt && lease.maxUses <= a.maxUses
  }

  lemma GrantedLeaseChecks(crypto: Crypto, kv: KeyVerifier, t: Stores, lease: Lease, b: Bundle, observed: Binding, c: Circumstances)
    requires LeaseGate(crypto, kv, t, lease, b, observed, c).status == Granted
    ensures WithinVoucher(lease, b.voucher.envelope)
    ensures AL.JudgeAuthorize(crypto, t.authority.ledger, b.voucher, lease.purpose, lease.subjectId, lease.scopeSha256, c.authorityAt).Accept?
  {
    var q := LeaseOperation(lease);
    LeasePreflightBinds(crypto.sha, kv, t.leases.ledger, lease, b, observed, c.leaseCheckAt);
    SessionPreflightBinds(crypto, kv, t.sessions.ledger, b, q, c.sessionCheckAt);
    LeaseWithinVoucher(lease, b);
    AG.GateOpensExactly(crypto, t.authority, Some(b.voucher), q.purpose, q.subject, q.scope, q.capability, c.authorityAt,
                        c.authorityAppends);
  }

  lemma WithinForm(form: Form, lease: Lease, v: Receipt)
    requires WithinVoucher(lease, v.envelope) && v.envelope.schemaVersion == 3
    ensures WithinVoucher(lease, form.Of(v).envelope)
  {
    Ordering.SortContents(v.envelope.capabilities);
    assert lease.capability in multiset(v.envelope.capabilities);
    assert lease.capability in multiset(form.Of(v).envelope.capabilities);
  }

  lemma SanctionedAbove(a: Receipt, v: Receipt, lease: Lease, k: nat)
    requires WithinVoucher(lease, v.envelope) && AT.Dominates(a, v, k)
    ensures Sanctions(a.envelope, lease)
  {
    CapabilitiesTransitive(a.envelope.capabilities, v.envelope.capabilities, v.envelope.capabilities);
  }

  /**
   A granted lease use is sanctioned by every receipt above its voucher, and each of those is current, and told by its
   signed form live, when the voucher is spent: the process behind the lease never does what any ancestor could not
   have allowed at that moment.
   */
  lemma GrantedLeaseIsSanctioned(crypto: Crypto, kv: KeyVerifier, book: Book, moves: seq<Move>, lease: Lease, b: Bundle,
                                 observed: Binding, c: Circumstances, k: nat)
    requires WellFiled(book) && Orderly(crypto, book, moves) && FiledIfGenuine(crypto.sha, book, b.voucher)
    requires LeaseGate(crypto, kv, PerformAll(crypto, kv, moves), lease, b, observed, c).status == Granted
    requires k > 0 && Climb(PerformAll(crypto, kv, moves).authority.ledger.parent, b.voucher.receiptId, k).Some?
    ensures var l := PerformAll(crypto, kv, moves).authority.ledger;
            var a := Climb(l.parent, b.voucher.receiptId, k).value;
            && a in book.entries && Sanctions(book.entries[a].envelope, lease) && AT.Current(l, book.entries[a], c.authorityAt)
            && (book.form.Signed? ==> AT.Live(l, book.entries[a], c.authorityAt))
  {
    var t := PerformAll(crypto, kv, moves);
    RunKeepsTiers(crypto, kv, book, moves);
    GrantedLeaseChecks(crypto, kv, t, lease, b, observed, c);
    VoucherIsSanctioned(crypto, book, t.authority.ledger, b.voucher, lease, c.authorityAt, k);
  }

  /** What a voucher the ledger accepts allows, every receipt above it allowed, and is live. */
  lemma VoucherIsSanctioned(crypto: Crypto, book: Book, l: AL.Ledger, v: Receipt, lease: Lease, now: u64, k: nat)
    requires Inv(crypto.sha, book, l) && FiledIfGenuine(crypto.sha, book, v)
    requires WithinVoucher(lease, v.envelope)
    requires AL.JudgeAuthorize(crypto, l, v, lease.purpose, lease.subjectId, lease.scopeSha256, now).Accept?
    requires k > 0 && Climb(l.parent, v.receiptId, k).Some?
    ensures var a := Climb(l.parent, v.receiptId, k).value;
            && a in book.entries && Sanctions(book.entries[a].envelope, lease) && AT.Current(l, book.entries[a], now)
            && (book.form.Signed? ==> AT.Live(l, book.entries[a], now))
  {
    var a := Climb(l.parent, v.receiptId, k).value;
    AT.AllowedAncestorIsLive(crypto, book, l, v, lease.purpose, lease.subjectId, lease.scopeSha256, now, k);
    WithinForm(book.form, lease, v);
    SanctionedAbove(book.entries[a], book.entries[v.receiptId], lease, k);
  }
}
