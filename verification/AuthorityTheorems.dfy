/** What the ledger's invariant gives over whole delegation chains and whole runs. */
module AuthorityTheorems {
  import opened Text
  import opened HashChain
  import opened AuthorityReceipt
  import opened AuthorityBook
  import Ordering
  import opened AuthorityLedger
  import opened AuthorityForest
  import opened AuthorityInvariants

  // ----- chains -----

  /** `a` may do everything `d` may do, `k` hops further down. */
  ghost predicate Dominates(a: Receipt, d: Receipt, k: nat) {
    && a.envelope.delegationDepth + k == d.envelope.delegationDepth <= 8
    && SameAuthority(a, d)
    && NarrowerScope(a, d)
    && a.envelope.issuedAt <= d.envelope.issuedAt
    && d.envelope.expiresAt <= a.envelope.expiresAt
    && d.envelope.maxUses + k <= a.envelope.maxUses
  }

  lemma NarrowsDominates(sha: Hash, p: Receipt, c: Receipt)
    requires Narrows(sha, p, c)
    ensures Dominates(p, c, 1)
  {
  }

  /** What one registered hop gives. */
  lemma Hop(sha: Hash, book: Book, l: Ledger, id: Text)
    requires Inv(sha, book, l) && id in l.parent
    ensures id in book.entries && l.parent[id] in book.entries
    ensures Dominates(book.entries[l.parent[id]], book.entries[id], 1)
    ensures book.form.Signed? ==> Anchored(l, book.entries[l.parent[id]])
  {
    assert Edge(sha, book, l, id);
    NarrowsDominates(sha, book.entries[l.parent[id]], book.entries[id]);
  }

  lemma DominatesTransitive(a: Receipt, b: Receipt, c: Receipt, j: nat, k: nat)
    requires Dominates(a, b, j) && Dominates(b, c, k)
    ensures Dominates(a, c, j + k)
  {
    ScopeIsPartialOrder(a.envelope.scopePath, b.envelope.scopePath, c.envelope.scopePath);
    CapabilitiesTransitive(a.envelope.capabilities, b.envelope.capabilities, c.envelope.capabilities);
  }

  /** Authority is attenuated along the whole chain, and the budget strictly falls at every hop. */
  lemma {:induction false} ChainAttenuates(sha: Hash, book: Book, l: Ledger, id: Text, k: nat)
    requires Inv(sha, book, l) && k > 0 && Climb(l.parent, id, k).Some?
    ensures id in book.entries && Climb(l.parent, id, k).value in book.entries
    ensures Dominates(book.entries[Climb(l.parent, id, k).value], book.entries[id], k)
    ensures book.form.Signed? ==> Anchored(l, book.entries[Climb(l.parent, id, k).value])
    decreases k
  {
    var p := l.parent[id];
    Hop(sha, book, l, id);
    assert Climb(l.parent, id, k) == Climb(l.parent, p, k - 1);
    if k > 1 {
      var a := Climb(l.parent, p, k - 1).value;
      ChainAttenuates(sha, book, l, p, k - 1);
      DominatesTransitive(book.entries[a], book.entries[p], book.entries[id], k - 1, 1);
    }
  }

  /** In every reachable ledger, for every registered ancestor: attenuation, bounded depth, no cycle. */
  lemma ReachableChainsAttenuate(crypto: Crypto, book: Book, calls: seq<Call>, id: Text, k: nat)
    requires WellFiled(book) && PresentsAll(crypto.sha, book, calls)
    requires k > 0 && Climb(Run(crypto, calls).ledger.parent, id, k).Some?
    ensures var a := Climb(Run(crypto, calls).ledger.parent, id, k).value;
            && id in book.entries && a in book.entries && a != id && k <= 8
            && Dominates(book.entries[a], book.entries[id], k)
  {
    RunKeepsInv(crypto, book, calls);
    ChainAttenuates(crypto.sha, book, Run(crypto, calls).ledger, id, k);
  }

  // ----- the ancestor walk -----

  ghost predicate SomeAncestorRevoked(l: Ledger, id: Text, now: u64) {
    exists a :: Ancestor(l.parent, a, id) && l.RevokedAt(a, now)
  }

  /** With more steps than the depth of the receipt, the bounded walk is the unbounded question. */
  lemma {:induction false} WalkIsExactWithin(l: Ledger, depth: map<Text, nat>, id: Text, now: u64, steps: nat)
    requires Layered(l.parent, depth)
    requires steps > 0 && (id in l.parent ==> depth[id] < steps)
    ensures AncestorRevokedWithin(l, id, now, steps) <==> SomeAncestorRevoked(l, id, now)
    decreases steps
  {
    if id !in l.parent {
      RootHasNoAncestor(l.parent, id);
    } else {
      var p := l.parent[id];
      WalkIsExactWithin(l, depth, p, now, steps - 1);
      forall a ensures Ancestor(l.parent, a, id) <==> a == p || Ancestor(l.parent, a, p) {
        AncestorOfParent(l.parent, a, id);
      }
    }
  }

  function Depths(book: Book): map<Text, nat> {
    map id | id in book.entries :: book.entries[id].envelope.delegationDepth
  }

  lemma InvLayered(sha: Hash, book: Book, l: Ledger)
    requires Inv(sha, book, l)
    ensures Layered(l.parent, Depths(book)) && Solvent(l.parent, l.uses, Budgets(book))
  {
    forall c | c in l.parent
      ensures c in book.entries && l.parent[c] in book.entries
      ensures book.entries[c].envelope.delegationDepth == book.entries[l.parent[c]].envelope.delegationDepth + 1 <= MAX_DEPTH
    {
      Hop(sha, book, l, c);
    }
    forall id | id in book.entries ensures At(l.uses, id) + Sum(Budgets(book), Children(l.parent, id)) <= Budgets(book)[id] {
      assert InBudget(book, l, id);
    }
  }

  /** In every reachable ledger the nine-step walk answers exactly "some proper ancestor is revoked by now". */
  lemma WalkIsExact(crypto: Crypto, book: Book, calls: seq<Call>, id: Text, now: u64)
    requires WellFiled(book) && PresentsAll(crypto.sha, book, calls)
    ensures var l := Run(crypto, calls).ledger;
            AncestorRevoked(l, id, now) <==> SomeAncestorRevoked(l, id, now)
  {
    var l := Run(crypto, calls).ledger;
    RunKeepsInv(crypto, book, calls);
    InvLayered(crypto.sha, book, l);
    WalkIsExactWithin(l, Depths(book), id, now, MAX_WALK);
  }

  // ----- whole-chain liveness from a leaf check -----

  /** The receipt is neither early, expired nor revoked at `now`. */
  ghost predicate Current(l: Ledger, r: Receipt, now: u64) {
    r.envelope.issuedAt <= now < r.envelope.expiresAt && !l.RevokedAt(r.receiptId, now)
  }

  /** Everything a receipt needs to be live at `now`: it is current, and its key vouches for it. */
  ghost predicate Live(l: Ledger, r: Receipt, now: u64) {
    var id := EnvelopeKey(r.envelope);
    && Current(l, r, now)
    && id in l.keys && l.keys[id].algorithm == r.algorithm
    && IssuedInWindow(l.keys[id], r.envelope.issuedAt)
    && !KeyRevokedAt(l.keys[id], now)
  }

  lemma AllowedIsLive(crypto: Crypto, l: Ledger, r: Receipt, purpose: Purpose, subject: Text, scope: Text, now: u64)
    requires JudgeAuthorize(crypto, l, r, purpose, subject, scope, now).Accept?
    ensures Live(l, r, now) && !AncestorRevoked(l, r.receiptId, now) && Genuine(crypto.sha, r)
    ensures Live(l, SignedForm(r), now) && Current(l, Terms.Of(r), now)
  {
  }

  lemma LiveUpward(l: Ledger, a: Receipt, d: Receipt, now: u64, k: nat)
    requires Dominates(a, d, k) && Current(l, d, now) && !l.RevokedAt(a.receiptId, now)
    ensures Current(l, a, now)
    ensures Live(l, d, now) && Anchored(l, a) ==> Live(l, a, now)
  {
    assert EnvelopeKey(a.envelope) == EnvelopeKey(d.envelope);
  }

  lemma AllowedAncestorIsLive(crypto: Crypto, book: Book, l: Ledger,
                              r: Receipt, purpose: Purpose, subject: Text, scope: Text, now: u64, k: nat)
    requires Inv(crypto.sha, book, l) && FiledIfGenuine(crypto.sha, book, r)
    requires JudgeAuthorize(crypto, l, r, purpose, subject, scope, now).Accept?
    requires k > 0 && Climb(l.parent, r.receiptId, k).Some?
    ensures var a := Climb(l.parent, r.receiptId, k).value;
            && a in book.entries && Current(l, book.entries[a], now)
            && (book.form.Signed? ==> Live(l, book.entries[a], now))
            && Filed(book, r) && Dominates(book.entries[a], book.entries[r.receiptId], k)
  {
    var a := Climb(l.parent, r.receiptId, k).value;
    AllowedIsLive(crypto, l, r, purpose, subject, scope, now);
    InvLayered(crypto.sha, book, l);
    WalkIsExactWithin(l, Depths(book), r.receiptId, now, MAX_WALK);
    ChainAttenuates(crypto.sha, book, l, r.receiptId, k);
    assert Ancestor(l.parent, a, r.receiptId);
    LiveUpward(l, book.entries[a], book.entries[r.receiptId], now, k);
  }

  /**
   If a reachable ledger allows a receipt at `now`, every receipt above it is current at `now`: unexpired and unrevoked.
   Told by signed forms, every receipt above it was also issued inside the window its key has today, although only the
   presented receipt's expiry and window are tested.
   */
  lemma AllowedChainIsLive(crypto: Crypto, book: Book, calls: seq<Call>,
                           r: Receipt, purpose: Purpose, subject: Text, scope: Text, now: u64, k: nat)
    requires WellFiled(book) && PresentsAll(crypto.sha, book, calls) && FiledIfGenuine(crypto.sha, book, r)
    requires JudgeAuthorize(crypto, Run(crypto, calls).ledger, r, purpose, subject, scope, now).Accept?
    requires Climb(Run(crypto, calls).ledger.parent, r.receiptId, k).Some?
    ensures var l, a := Run(crypto, calls).ledger, Climb(Run(crypto, calls).ledger.parent, r.receiptId, k).value;
            && a in book.entries && Current(l, book.entries[a], now)
            && (book.form.Signed? ==> Live(l, book.entries[a], now))
  {
    var l := Run(crypto, calls).ledger;
    RunKeepsInv(crypto, book, calls);
    AllowedIsLive(crypto, l, r, purpose, subject, scope, now);
    if k > 0 {
      AllowedAncestorIsLive(crypto, book, l, r, purpose, subject, scope, now, k);
    }
  }

  // ----- conservation over the forest -----

  /**
   Forest-wide conservation: in every reachable ledger, uses of a receipt and of any set of receipts delegated from
   it, at whatever depth, add up to no more than the budget signed into that receipt.
   */
  lemma ForestConservation(crypto: Crypto, book: Book, calls: seq<Call>, root: Text, ids: set<Text>)
    requires WellFiled(book) && PresentsAll(crypto.sha, book, calls) && root in book.entries
    requires ids <= Below(Run(crypto, calls).ledger.parent, root)
    ensures Sum(Run(crypto, calls).ledger.uses, ids) <= book.entries[root].envelope.maxUses
  {
    RunKeepsInv(crypto, book, calls);
    var l := Run(crypto, calls).ledger;
    InvLayered(crypto.sha, book, l);
    UsesBelow(l.parent, Depths(book), l.uses, Budgets(book), root, ids);
  }

  /** Reservations are exactly the budgets of the registered children, and uses plus reservations fit the budget. */
  lemma ReservationsAreExact(crypto: Crypto, book: Book, calls: seq<Call>, id: Text)
    requires WellFiled(book) && PresentsAll(crypto.sha, book, calls) && id in book.entries
    ensures var l := Run(crypto, calls).ledger;
            && l.DelegatedUses(id) == Sum(Budgets(book), Children(l.parent, id))
            && l.UseCount(id) + l.DelegatedUses(id) <= book.entries[id].envelope.maxUses
  {
    RunKeepsInv(crypto, book, calls);
    assert InBudget(book, Run(crypto, calls).ledger, id);
  }

  // ----- the assumption is satisfiable -----

  function Presented(op: Op): set<Receipt> {
    match op
    case RegisterDelegation(p, c, _) => {p, c}
    case Authorize(r, _, _, _, _) => {r}
    case _ => {}
  }

  function PresentedIn(calls: seq<Call>): set<Receipt> {
    set i, r | 0 <= i < |calls| && r in Presented(calls[i].op) :: r
  }

  /** A run whose genuine receipts do not collide in a form has a book of that form, so the theorems above apply to it. */
  lemma BookExists(form: Form, crypto: Crypto, calls: seq<Call>) returns (book: Book)
    requires forall r, s | r in PresentedIn(calls) && s in PresentedIn(calls) :: !Collides(form, crypto.sha, r, s)
    ensures book.form == form && WellFiled(book) && PresentsAll(crypto.sha, book, calls)
  {
    book := BookOf(form, crypto.sha, PresentedIn(calls));
    BookServes(crypto, calls, book);
  }

  /**
   Every run over a hash that keeps the texts of its own receipts apart has a book of terms; and one of signed forms, if
   no actor reference and no issue time holds a line break.
   */
  lemma BookExistsForHash(form: Form, crypto: Crypto, calls: seq<Call>) returns (book: Book)
    requires HashedApart(crypto.sha, HashedFor(crypto.sha, PresentedIn(calls)))
    requires form.Signed? ==> forall r | r in PresentedIn(calls) :: WrittenOnLines(r.envelope)
    ensures book.form == form && WellFiled(book) && PresentsAll(crypto.sha, book, calls)
  {
    book := BookFromHash(form, crypto.sha, PresentedIn(calls));
    BookServes(crypto, calls, book);
  }

  lemma BookServes(crypto: Crypto, calls: seq<Call>, book: Book)
    requires forall r | r in PresentedIn(calls) :: FiledIfGenuine(crypto.sha, book, r)
    ensures PresentsAll(crypto.sha, book, calls)
  {
    forall i | 0 <= i < |calls| ensures Presents(crypto.sha, book, calls[i].op) {
      assert forall r | r in Presented(calls[i].op) :: r in PresentedIn(calls);
    }
  }

  lemma PresentedIsFiled(crypto: Crypto, book: Book, calls: seq<Call>, r: Receipt)
    requires PresentsAll(crypto.sha, book, calls) && r in PresentedIn(calls) && Genuine(crypto.sha, r)
    ensures Filed(book, r)
  {
    var i :| 0 <= i < |calls| && r in Presented(calls[i].op);
    assert Presents(crypto.sha, book, calls[i].op);
  }

  /**
   Conservation without a book: over a hash that keeps the texts of the run's own receipts apart, uses of a genuine
   receipt presented and of any receipts below it add up to no more than the budget signed into it.
   */
  lemma ConservationUnderHash(crypto: Crypto, calls: seq<Call>, r: Receipt, ids: set<Text>)
    requires HashedApart(crypto.sha, HashedFor(crypto.sha, PresentedIn(calls)))
    requires r in PresentedIn(calls) && Genuine(crypto.sha, r)
    requires ids <= Below(Run(crypto, calls).ledger.parent, r.receiptId)
    ensures Sum(Run(crypto, calls).ledger.uses, ids) <= r.envelope.maxUses
  {
    var book := BookExistsForHash(Terms, crypto, calls);
    PresentedIsFiled(crypto, book, calls, r);
    ForestConservation(crypto, book, calls, r.receiptId, ids);
  }

  // ----- spellings -----

  /** The verdict on a use, given what verification said. */
  function OnceVerified(l: Ledger, r: Receipt, verified: ReceiptStatus, scope: Text, now: u64): Verdict {
    var status := if !l.healthy then Corrupt
                  else if verified != Valid then if verified == SignerUnknown then UnknownSigner else Rejected
                  else UseChecks(l, r, scope, now);
    if status != Allowed then Refuse(status, 0) else UseBudget(l, r, now)
  }

  lemma JudgedOnceVerified(crypto: Crypto, l: Ledger, r: Receipt, purpose: Purpose, subject: Text, scope: Text, now: u64)
    ensures JudgeAuthorize(crypto, l, r, purpose, subject, scope, now)
         == OnceVerified(l, r, VerifyReceipt(crypto, r, purpose, subject), scope, now)
  {
  }

  lemma ChecksSeeForm(l: Ledger, r: Receipt, scope: Text, now: u64)
    ensures UseChecks(l, SignedForm(r), scope, now) == UseChecks(l, r, scope, now)
    ensures UseChecks(l, r, scope, now) == Allowed ==> UseBudget(l, SignedForm(r), now) == UseBudget(l, r, now)
  {
  }

  lemma UseJudgedByForm(crypto: Crypto, l: Ledger, r: Receipt, purpose: Purpose, subject: Text, scope: Text, now: u64)
    ensures JudgeAuthorize(crypto, l, SignedForm(r), purpose, subject, scope, now)
         == JudgeAuthorize(crypto, l, r, purpose, subject, scope, now)
  {
    JudgedOnceVerified(crypto, l, r, purpose, subject, scope, now);
    JudgedOnceVerified(crypto, l, SignedForm(r), purpose, subject, scope, now);
    VerifiedInForm(crypto, r, purpose, subject);
    FormOnceVerified(l, r, VerifyReceipt(crypto, r, purpose, subject), scope, now);
  }

  lemma FormOnceVerified(l: Ledger, r: Receipt, verified: ReceiptStatus, scope: Text, now: u64)
    ensures OnceVerified(l, SignedForm(r), verified, scope, now) == OnceVerified(l, r, verified, scope, now)
  {
    ChecksSeeForm(l, r, scope, now);
  }

  predicate Attenuates(p: Receipt, c: Receipt) {
    DepthContract(p, c) && SameAuthority(p, c) && NarrowerScope(p, c) && NarrowerLifetime(p, c)
  }

  lemma AttenuatesByForm(p: Receipt, c: Receipt)
    requires p.envelope.schemaVersion == 3 && c.envelope.schemaVersion == 3
    ensures Attenuates(SignedForm(p), SignedForm(c)) <==> Attenuates(p, c)
  {
    SortedContain(p.envelope.capabilities, c.envelope.capabilities);
  }

  lemma SortedContain(ps: seq<Text>, cs: seq<Text>)
    ensures CapabilitiesContain(Ordering.Sort(ps), Ordering.Sort(cs)) <==> CapabilitiesContain(ps, cs)
    ensures |Ordering.Sort(ps)| == |ps| && |Ordering.Sort(cs)| == |cs|
  {
    Ordering.SortContents(ps);
    Ordering.SortContents(cs);
    assert |Ordering.Sort(ps)| == |multiset(ps)| && |Ordering.Sort(cs)| == |multiset(cs)|;
  }

  /** The verdict on a delegation, given whether the receipts meet its contract. */
  function OnceContracted(l: Ledger, p: Receipt, c: Receipt, contract: bool, now: u64): Verdict {
    var status := if !l.healthy then Corrupt else if !contract then DelegationRejected else LineageChecks(l, p, c, now);
    if status != Allowed then Refuse(status, 0) else DelegationBudget(l, p, c, now)
  }

  lemma JudgedOnceContracted(crypto: Crypto, l: Ledger, p: Receipt, c: Receipt, now: u64)
    ensures JudgeDelegation(crypto, l, p, c, now) == OnceContracted(l, p, c, DelegationContract(crypto, p, c), now)
  {
  }

  predicate BothVerify(p: ReceiptStatus, c: ReceiptStatus) {
    p == Valid && c == Valid
  }

  lemma ContractIs(crypto: Crypto, p: Receipt, c: Receipt)
    ensures DelegationContract(crypto, p, c) <==>
              && p.envelope.schemaVersion == 3 && c.envelope.schemaVersion == 3 && Attenuates(p, c)
              && BothVerify(VerifyReceipt(crypto, p, p.envelope.purpose, p.envelope.subjectId),
                            VerifyReceipt(crypto, c, c.envelope.purpose, c.envelope.subjectId))
  {
  }

  lemma ContractInForm(crypto: Crypto, p: Receipt, c: Receipt)
    ensures DelegationContract(crypto, SignedForm(p), SignedForm(c)) <==> DelegationContract(crypto, p, c)
  {
    ContractIs(crypto, p, c);
    ContractIs(crypto, SignedForm(p), SignedForm(c));
    VerifiedInForm(crypto, p, p.envelope.purpose, p.envelope.subjectId);
    VerifiedInForm(crypto, c, c.envelope.purpose, c.envelope.subjectId);
    if p.envelope.schemaVersion == 3 && c.envelope.schemaVersion == 3 {
      AttenuatesByForm(p, c);
    }
  }

  lemma LineageSeesForm(l: Ledger, p: Receipt, c: Receipt, now: u64)
    requires p.envelope.schemaVersion == 3 && c.envelope.schemaVersion == 3
    ensures LineageChecks(l, SignedForm(p), SignedForm(c), now) == LineageChecks(l, p, c, now)
    ensures DelegationBudget(l, SignedForm(p), SignedForm(c), now) == DelegationBudget(l, p, c, now)
  {
  }

  lemma DelegationJudgedByForm(crypto: Crypto, l: Ledger, p: Receipt, c: Receipt, now: u64)
    ensures JudgeDelegation(crypto, l, SignedForm(p), SignedForm(c), now) == JudgeDelegation(crypto, l, p, c, now)
  {
    JudgedOnceContracted(crypto, l, p, c, now);
    JudgedOnceContracted(crypto, l, SignedForm(p), SignedForm(c), now);
    ContractInForm(crypto, p, c);
    ContractIs(crypto, p, c);
    FormOnceContracted(l, p, c, DelegationContract(crypto, p, c), now);
  }

  lemma FormOnceContracted(l: Ledger, p: Receipt, c: Receipt, contract: bool, now: u64)
    requires contract ==> p.envelope.schemaVersion == 3 && c.envelope.schemaVersion == 3
    ensures OnceContracted(l, SignedForm(p), SignedForm(c), contract, now) == OnceContracted(l, p, c, contract, now)
  {
    if contract {
      LineageSeesForm(l, p, c, now);
    }
  }

  /**
   The ledger judges receipts by their signed form: two spellings of one receipt, with capabilities in another order or
   with unsigned fields changed, get the same verdict on every use.
   */
  lemma SpellingsJudgedAlike(crypto: Crypto, l: Ledger, r: Receipt, s: Receipt, purpose: Purpose, subject: Text, scope: Text, now: u64)
    requires SignedForm(r) == SignedForm(s)
    ensures JudgeAuthorize(crypto, l, r, purpose, subject, scope, now) == JudgeAuthorize(crypto, l, s, purpose, subject, scope, now)
  {
    UseJudgedByForm(crypto, l, r, purpose, subject, scope, now);
    UseJudgedByForm(crypto, l, s, purpose, subject, scope, now);
  }
}
