/**
 What every run of the authority ledger keeps, told through a book of the signed forms, or of the terms, behind the
 identities. Only a book of signed forms tells which key a receipt was signed with.
 */
module AuthorityInvariants {
  import opened Text
  import opened HashChain
  import opened AuthorityReceipt
  import opened AuthorityBook
  import opened AuthorityLedger
  import opened AuthorityForest

  ghost predicate Presents(sha: Hash, book: Book, op: Op) {
    match op
    case RegisterDelegation(p, c, _) => FiledIfGenuine(sha, book, p) && FiledIfGenuine(sha, book, c)
    case Authorize(r, _, _, _, _) => FiledIfGenuine(sha, book, r)
    case _ => true
  }

  ghost predicate PresentsAll(sha: Hash, book: Book, calls: seq<Call>) {
    forall i | 0 <= i < |calls| :: Presents(sha, book, calls[i].op)
  }

  function Budgets(book: Book): map<Text, nat> {
    map id | id in book.entries :: book.entries[id].envelope.maxUses
  }

  // ----- the invariant -----

  /** One hop of delegation: everything the child may do, the parent may do, and strictly more often. */
  ghost predicate Narrows(sha: Hash, p: Receipt, c: Receipt) {
    && p.envelope.schemaVersion == 3 && c.envelope.schemaVersion == 3
    && ValidDelegable(sha, p.envelope) && ValidDelegable(sha, c.envelope)
    && DepthContract(p, c) && SameAuthority(p, c) && NarrowerScope(p, c) && NarrowerLifetime(p, c)
    && c.envelope.maxUses < p.envelope.maxUses
  }

  /** The signing key is still held, and the receipt was issued after it became valid. */
  ghost predicate Anchored(l: Ledger, r: Receipt) {
    var id := EnvelopeKey(r.envelope);
    id in l.keys && l.keys[id].validFrom <= r.envelope.issuedAt && l.keys[id].algorithm == r.algorithm
  }

  ghost predicate Edge(sha: Hash, book: Book, l: Ledger, c: Text)
    requires c in l.parent
  {
    var p := l.parent[c];
    && c in book.entries && p in book.entries
    && Narrows(sha, book.entries[p], book.entries[c])
    && (book.form.Signed? ==> Anchored(l, book.entries[p]))
    && (book.entries[p].envelope.parentReceiptId != [] ==> p in l.parent)
  }

  ghost predicate Lineage(sha: Hash, book: Book, l: Ledger) {
    forall c {:trigger Edge(sha, book, l, c)} | c in l.parent :: Edge(sha, book, l, c)
  }

  ghost predicate InBudget(book: Book, l: Ledger, id: Text)
    requires id in book.entries
  {
    && l.UseCount(id) + l.DelegatedUses(id) <= book.entries[id].envelope.maxUses
    && l.DelegatedUses(id) == Sum(Budgets(book), Children(l.parent, id))
  }

  ghost predicate Budgeted(book: Book, l: Ledger) {
    && l.uses.Keys <= book.entries.Keys && l.reserved.Keys <= book.entries.Keys
    && forall id {:trigger InBudget(book, l, id)} | id in book.entries :: InBudget(book, l, id)
  }

  ghost predicate Inv(sha: Hash, book: Book, l: Ledger) {
    WellFiled(book) && Lineage(sha, book, l) && Budgeted(book, l)
  }

  // ----- the invariant is kept -----

  lemma EmptyKeepsInv(sha: Hash, book: Book)
    requires WellFiled(book)
    ensures Inv(sha, book, EMPTY)
  {
    forall id | id in book.entries ensures InBudget(book, EMPTY, id) {
      assert Children(EMPTY.parent, id) == {};
    }
  }

  /** Changing a key's later fields leaves every anchor in place. */
  lemma KeyChangeKeepsInv(sha: Hash, book: Book, l: Ledger, l': Ledger)
    requires Inv(sha, book, l)
    requires l' == l.(keys := l'.keys) || l' == l.(revoked := l'.revoked)
    requires forall id | id in l.keys ::
               id in l'.keys && l'.keys[id].validFrom == l.keys[id].validFrom && l'.keys[id].algorithm == l.keys[id].algorithm
    ensures Inv(sha, book, l')
  {
    forall c | c in l'.parent ensures Edge(sha, book, l', c) {
      assert Edge(sha, book, l, c);
    }
    forall id | id in book.entries ensures InBudget(book, l', id) {
      assert InBudget(book, l, id);
    }
  }

  /** Narrowing is a relation of signed forms, and of terms. */
  lemma NarrowsInForm(form: Form, sha: Hash, p: Receipt, c: Receipt)
    requires Narrows(sha, p, c)
    ensures Narrows(sha, form.Of(p), form.Of(c))
  {
    DelegableInForm(sha, p.envelope);
    DelegableInForm(sha, c.envelope);
  }

  /** What an accepted delegation establishes about its two receipts. */
  lemma DelegationFacts(crypto: Crypto, book: Book, l: Ledger, p: Receipt, c: Receipt, now: u64)
    requires JudgeDelegation(crypto, l, p, c, now).Accept?
    requires FiledIfGenuine(crypto.sha, book, p) && FiledIfGenuine(crypto.sha, book, c)
    ensures Filed(book, p) && Filed(book, c)
    ensures Narrows(crypto.sha, book.form.Of(p), book.form.Of(c)) && (book.form.Signed? ==> Anchored(l, book.form.Of(p)))
    ensures c.receiptId !in l.parent && p.receiptId != c.receiptId
    ensures p.envelope.parentReceiptId != [] ==> p.receiptId in l.parent
    ensures l.UseCount(p.receiptId) + l.DelegatedUses(p.receiptId) + 1 + c.envelope.maxUses <= p.envelope.maxUses
    ensures JudgeDelegation(crypto, l, p, c, now).event ==
      Delegated(p.receiptId, c.receiptId, p.envelope.signerId, p.envelope.signerKeyId, p.envelope.nonce, c.envelope.nonce,
                l.UseCount(p.receiptId) + 1, c.envelope.maxUses, now)
  {
    RegisteredFacts(crypto, l, p, c, now);
    NarrowsInForm(book.form, crypto.sha, p, c);
  }

  lemma RegisteredFacts(crypto: Crypto, l: Ledger, p: Receipt, c: Receipt, now: u64)
    requires JudgeDelegation(crypto, l, p, c, now).Accept?
    ensures Genuine(crypto.sha, p) && Genuine(crypto.sha, c) && Narrows(crypto.sha, p, c) && Anchored(l, p)
    ensures c.receiptId !in l.parent && c.envelope.parentReceiptId == p.receiptId && c.envelope.delegationDepth > p.envelope.delegationDepth
    ensures p.envelope.parentReceiptId != [] ==> p.receiptId in l.parent
    ensures DelegationBudget(l, p, c, now) == JudgeDelegation(crypto, l, p, c, now)
  {
  }

  lemma DelegationKeepsLineage(sha: Hash, book: Book, l: Ledger, l': Ledger, p: Text, c: Text)
    requires Lineage(sha, book, l)
    requires c !in l.parent && l'.keys == l.keys && l'.parent == l.parent[c := p]
    requires p in book.entries && c in book.entries && Narrows(sha, book.entries[p], book.entries[c])
    requires book.form.Signed? ==> Anchored(l, book.entries[p])
    requires book.entries[p].envelope.parentReceiptId != [] ==> p in l.parent
    ensures Lineage(sha, book, l')
  {
    forall x | x in l'.parent ensures Edge(sha, book, l', x) {
      if x != c {
        assert Edge(sha, book, l, x);
      }
    }
  }

  lemma DelegationKeepsBudget(book: Book, l: Ledger, l': Ledger, p: Text, c: Text)
    requires Budgeted(book, l) && p in book.entries && c in book.entries && p != c && c !in l.parent
    requires l'.parent == l.parent[c := p]
    requires l'.uses == l.uses[p := l.UseCount(p) + 1]
    requires l'.reserved == l.reserved[p := l.DelegatedUses(p) + book.entries[c].envelope.maxUses]
    requires l.UseCount(p) + l.DelegatedUses(p) + 1 + book.entries[c].envelope.maxUses <= book.entries[p].envelope.maxUses
    ensures Budgeted(book, l')
  {
    forall id | id in book.entries ensures InBudget(book, l', id) {
      assert InBudget(book, l, id);
      if id == p {
        SumRemove(Budgets(book), Children(l'.parent, p), c);
        assert Children(l'.parent, p) - {c} == Children(l.parent, p);
      } else {
        assert Children(l'.parent, id) == Children(l.parent, id);
      }
    }
  }

  lemma AuthorizeFacts(crypto: Crypto, book: Book, l: Ledger, r: Receipt, purpose: Purpose, subject: Text, scope: Text, now: u64)
    requires JudgeAuthorize(crypto, l, r, purpose, subject, scope, now).Accept?
    requires FiledIfGenuine(crypto.sha, book, r)
    ensures Filed(book, r)
    ensures l.UseCount(r.receiptId) + l.DelegatedUses(r.receiptId) < r.envelope.maxUses
    ensures JudgeAuthorize(crypto, l, r, purpose, subject, scope, now).event ==
      Used(r.receiptId, r.envelope.signerId, r.envelope.signerKeyId, r.envelope.nonce, l.UseCount(r.receiptId) + 1, now)
  {
  }

  lemma UseKeepsInv(sha: Hash, book: Book, l: Ledger, l': Ledger, id: Text)
    requires Inv(sha, book, l) && id in book.entries
    requires l'.keys == l.keys && l'.parent == l.parent && l'.reserved == l.reserved
    requires l'.uses == l.uses[id := l.UseCount(id) + 1]
    requires l.UseCount(id) + l.DelegatedUses(id) < book.entries[id].envelope.maxUses
    ensures Inv(sha, book, l')
  {
    forall c | c in l'.parent ensures Edge(sha, book, l', c) {
      assert Edge(sha, book, l, c);
    }
    forall x | x in book.entries ensures InBudget(book, l', x) {
      assert InBudget(book, l, x);
    }
  }

  /** What registration has checked of a parent and its new child, filed under their identities. */
  ghost predicate DelegationFits(sha: Hash, book: Book, l: Ledger, p: Text, c: Text) {
    && p in book.entries && c in book.entries && p != c && c !in l.parent
    && Narrows(sha, book.entries[p], book.entries[c]) && (book.form.Signed? ==> Anchored(l, book.entries[p]))
    && (book.entries[p].envelope.parentReceiptId != [] ==> p in l.parent)
    && l.UseCount(p) + l.DelegatedUses(p) + 1 + book.entries[c].envelope.maxUses <= book.entries[p].envelope.maxUses
  }

  lemma DelegatedKeepsInv(sha: Hash, book: Book, l: Ledger, l': Ledger, p: Text, c: Text)
    requires Inv(sha, book, l) && DelegationFits(sha, book, l, p, c)
    requires l'.keys == l.keys && l'.parent == l.parent[c := p]
    requires l'.uses == l.uses[p := l.UseCount(p) + 1]
    requires l'.reserved == l.reserved[p := l.DelegatedUses(p) + book.entries[c].envelope.maxUses]
    ensures Inv(sha, book, l')
  {
    assert Lineage(sha, book, l') by {
      DelegationKeepsLineage(sha, book, l, l', p, c);
    }
    assert Budgeted(book, l') by {
      DelegationKeepsBudget(book, l, l', p, c);
    }
  }

  lemma DelegatedEventKeepsInv(sha: Hash, book: Book, l: Ledger, e: Event)
    requires Inv(sha, book, l) && e.Delegated? && DelegationFits(sha, book, l, e.parentId, e.childId)
    requires e.use == l.UseCount(e.parentId) + 1 && e.reservation == book.entries[e.childId].envelope.maxUses
    ensures Inv(sha, book, Apply(l, e))
  {
    var p, c := e.parentId, e.childId;
    var l' := AppliedDelegation(l, e, book.entries[c].envelope.maxUses);
    DelegatedKeepsInv(sha, book, l, l', p, c);
  }

  lemma AppliedDelegation(l: Ledger, e: Event, reservation: nat) returns (l': Ledger)
    requires e.Delegated? && e.reservation == reservation && e.use == l.UseCount(e.parentId) + 1
    ensures l' == Apply(l, e)
    ensures l'.keys == l.keys && l'.parent == l.parent[e.childId := e.parentId]
    ensures l'.uses == l.uses[e.parentId := l.UseCount(e.parentId) + 1]
    ensures l'.reserved == l.reserved[e.parentId := l.DelegatedUses(e.parentId) + reservation]
  {
    l' := Apply(l, e);
  }

  lemma DelegationKeepsInv(crypto: Crypto, book: Book, l: Ledger, p: Receipt, c: Receipt, now: u64)
    requires Inv(crypto.sha, book, l)
    requires FiledIfGenuine(crypto.sha, book, p) && FiledIfGenuine(crypto.sha, book, c)
    requires JudgeDelegation(crypto, l, p, c, now).Accept?
    ensures Inv(crypto.sha, book, Apply(l, JudgeDelegation(crypto, l, p, c, now).event))
  {
    DelegationFacts(crypto, book, l, p, c, now);
    DelegatedEventKeepsInv(crypto.sha, book, l, JudgeDelegation(crypto, l, p, c, now).event);
  }

  lemma AuthorizeKeepsInv(crypto: Crypto, book: Book, l: Ledger, r: Receipt, purpose: Purpose, subject: Text, scope: Text, now: u64)
    requires Inv(crypto.sha, book, l) && FiledIfGenuine(crypto.sha, book, r)
    requires JudgeAuthorize(crypto, l, r, purpose, subject, scope, now).Accept?
    ensures Inv(crypto.sha, book, Apply(l, JudgeAuthorize(crypto, l, r, purpose, subject, scope, now).event))
  {
    AuthorizeFacts(crypto, book, l, r, purpose, subject, scope, now);
    UseKeepsInv(crypto.sha, book, l, Apply(l, JudgeAuthorize(crypto, l, r, purpose, subject, scope, now).event), r.receiptId);
  }

  /** Key and receipt revocation events touch neither budgets nor lineage. */
  lemma AdministrationKeepsInv(sha: Hash, book: Book, l: Ledger, e: Event)
    requires Inv(sha, book, l) && Applicable(l, e)
    requires e.KeyTrusted? || e.KeyRetired? || e.KeyRevoked? || e.ReceiptRevoked?
    requires e.KeyTrusted? ==> KeyMapId(e.signer, e.key) !in l.keys
    ensures Inv(sha, book, Apply(l, e))
  {
    KeyChangeKeepsInv(sha, book, l, Apply(l, e));
  }

  lemma AcceptKeepsInv(crypto: Crypto, book: Book, l: Ledger, op: Op)
    requires Inv(crypto.sha, book, l) && Presents(crypto.sha, book, op)
    requires Judge(crypto, l, op).Accept?
    ensures Inv(crypto.sha, book, Apply(l, Judge(crypto, l, op).event))
  {
    match op
    case RegisterDelegation(p, c, now) => DelegationKeepsInv(crypto, book, l, p, c, now);
    case Authorize(r, purpose, subject, scope, now) => AuthorizeKeepsInv(crypto, book, l, r, purpose, subject, scope, now);
    case TrustKey(k) => AdministrationKeepsInv(crypto.sha, book, l, Judge(crypto, l, op).event);
    case RetireKey(_, _, _) => AdministrationKeepsInv(crypto.sha, book, l, Judge(crypto, l, op).event);
    case RevokeKey(_, _, _) => AdministrationKeepsInv(crypto.sha, book, l, Judge(crypto, l, op).event);
    case RevokeReceipt(_, _) => AdministrationKeepsInv(crypto.sha, book, l, Judge(crypto, l, op).event);
  }

  lemma StepKeepsInv(crypto: Crypto, book: Book, st: Store, op: Op, appends: bool)
    requires Inv(crypto.sha, book, st.ledger) && Presents(crypto.sha, book, op)
    ensures Inv(crypto.sha, book, Step(crypto, st, op, appends).store.ledger)
  {
    var l := st.ledger;
    if Judge(crypto, l, op).Accept? && l.healthy && appends {
      AcceptKeepsInv(crypto, book, l, op);
      BookkeepingKeepsInv(crypto.sha, book, Apply(l, Judge(crypto, l, op).event), Step(crypto, st, op, appends).store.ledger);
    }
  }

  lemma BookkeepingKeepsInv(sha: Hash, book: Book, l: Ledger, l': Ledger)
    requires Inv(sha, book, l) && l' == l.(sequence := l'.sequence, head := l'.head)
    ensures Inv(sha, book, l')
  {
    forall c | c in l'.parent ensures Edge(sha, book, l', c) {
      assert Edge(sha, book, l, c);
    }
    forall x | x in book.entries ensures InBudget(book, l', x) {
      assert InBudget(book, l, x);
    }
  }

  /** Every reachable ledger satisfies the invariant, whichever appends failed. */
  lemma {:induction false} RunKeepsInv(crypto: Crypto, book: Book, calls: seq<Call>)
    requires WellFiled(book) && PresentsAll(crypto.sha, book, calls)
    ensures Inv(crypto.sha, book, Run(crypto, calls).ledger)
  {
    if calls == [] {
      EmptyKeepsInv(crypto.sha, book);
    } else {
      var front, last := calls[..|calls| - 1], calls[|calls| - 1];
      RunKeepsInv(crypto, book, front);
      StepKeepsInv(crypto, book, Run(crypto, front), last.op, last.appends);
    }
  }
}
