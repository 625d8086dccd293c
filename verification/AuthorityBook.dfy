/**
 The book behind the ledger's theorems: what an identity stands for. An identity covers only the signed form of a
 receipt, in which capabilities are sorted and the fields its schema leaves out of the canonical text are blank. A book
 files either that form or its terms, everything in it but the attribution: who acts, who signs with which key, and when
 in words. A book exists for any receipts that do not collide in the form it files, and they do not collide unless the
 hash does; for the signed form, as long as no actor reference and no issue time holds a line break, and for the terms
 in every case.
 */
module AuthorityBook {
  import opened Text
  import opened HashChain
  import opened AuthorityReceipt
  import opened CanonicalLines
  import Ordering

  // ----- the signed form -----

  /** The envelope as its signature covers it. */
  function SignedEnvelope(e: Envelope): Envelope {
    if e.schemaVersion == 3 then e.(capabilities := Ordering.Sort(e.capabilities))
    else
      var v2 := e.(parentReceiptId := [], delegationDepth := 0, maxDelegationDepth := 0, scopePath := [], capabilities := []);
      if e.schemaVersion == 2 then v2 else v2.(signerKeyId := [], issuedAt := 0, expiresAt := 0, maxUses := 0)
  }

  function SignedForm(r: Receipt): Receipt {
    r.(envelope := SignedEnvelope(r.envelope))
  }

  /** The signed form is what the canonical text shows: it has that same text. */
  lemma SignedTextIsCanonical(e: Envelope)
    requires 1 <= e.schemaVersion <= 3
    ensures EnvelopeLines(SignedEnvelope(e)) == EnvelopeLines(e)
  {
    Ordering.SortContents(e.capabilities);
    Ordering.SortIsOrderFree(Ordering.Sort(e.capabilities), e.capabilities);
    assert IdentityLines(SignedEnvelope(e)) == IdentityLines(e);
    assert LimitLines(SignedEnvelope(e)) == LimitLines(e);
    assert DelegationLines(SignedEnvelope(e)) == DelegationLines(e);
  }

  lemma {:induction false} DistinctCounts(xs: seq<Text>)
    ensures NoDuplicates(xs) <==> forall x | x in multiset(xs) :: multiset(xs)[x] == 1
  {
    if xs != [] {
      var front, last := xs[..|xs| - 1], xs[|xs| - 1];
      assert xs == front + [last];
      DistinctCounts(front);
      if NoDuplicates(xs) {
        assert last !in front;
      }
      if forall x | x in multiset(xs) :: multiset(xs)[x] == 1 {
        forall x | x in multiset(front) ensures multiset(front)[x] == 1 {
          assert multiset(xs)[x] == multiset(front)[x] + multiset([last])[x];
        }
        assert multiset(xs)[last] == multiset(front)[last] + 1;
        assert last !in front;
      }
    }
  }

  lemma SameContentsSameDistinctness(xs: seq<Text>, ys: seq<Text>)
    requires multiset(xs) == multiset(ys)
    ensures NoDuplicates(xs) <==> NoDuplicates(ys)
  {
    DistinctCounts(xs);
    DistinctCounts(ys);
  }

  lemma SortedCapabilities(caps: seq<Text>)
    ensures var sorted := Ordering.Sort(caps);
            && multiset(sorted) == multiset(caps) && |sorted| == |caps| && (NoDuplicates(sorted) <==> NoDuplicates(caps))
            && forall x :: x in sorted <==> x in caps
  {
    var sorted := Ordering.Sort(caps);
    Ordering.SortContents(caps);
    SameContentsSameDistinctness(caps, sorted);
    assert |sorted| == |multiset(sorted)| == |multiset(caps)| == |caps|;
    forall x ensures x in sorted <==> x in caps {
      assert x in sorted <==> x in multiset(sorted);
      assert x in caps <==> x in multiset(caps);
    }
  }

  lemma DelegableInForm(sha: Hash, e: Envelope)
    requires e.schemaVersion == 3
    ensures ValidDelegable(sha, SignedEnvelope(e)) <==> ValidDelegable(sha, e)
    ensures multiset(SignedEnvelope(e).capabilities) == multiset(e.capabilities)
    ensures |SignedEnvelope(e).capabilities| == |e.capabilities|
  {
    var caps, sorted := e.capabilities, SignedEnvelope(e).capabilities;
    SortedCapabilities(caps);
    assert (forall i | 0 <= i < |caps| :: ValidToken(caps[i], 128)) <==> (forall x | x in caps :: ValidToken(x, 128));
    assert (forall i | 0 <= i < |sorted| :: ValidToken(sorted[i], 128)) <==> (forall x | x in sorted :: ValidToken(x, 128));
  }

  lemma ValidInForm(sha: Hash, e: Envelope)
    ensures ValidEnvelope(sha, SignedEnvelope(e)) <==> ValidEnvelope(sha, e)
  {
    if e.schemaVersion == 3 {
      DelegableInForm(sha, e);
    }
  }

  /** Verification sees the signed form only. */
  lemma VerifiedInForm(crypto: Crypto, r: Receipt, purpose: Purpose, subject: Text)
    ensures VerifyReceipt(crypto, SignedForm(r), purpose, subject) == VerifyReceipt(crypto, r, purpose, subject)
  {
    ValidInForm(crypto.sha, r.envelope);
    if 1 <= r.envelope.schemaVersion <= 3 {
      SignedTextIsCanonical(r.envelope);
    }
  }

  // ----- genuine receipts and their book -----

  /** A well-formed receipt whose stored identities are those its content hashes to. */
  predicate Genuine(sha: Hash, r: Receipt) {
    ValidEnvelope(sha, r.envelope) && ValidToken(r.algorithm, 64) && ContentAddressed(sha, r)
  }

  /** Everything signed but who acts, who signs with which key, and when in words. */
  function Unattributed(e: Envelope): Envelope {
    e.(actorReference := [], signerId := [], signerKeyId := [], issuedAtUtc := [])
  }

  datatype Form = Signed | Terms {
    function Of(r: Receipt): Receipt {
      var signed := SignedForm(r);
      if Signed? then signed else signed.(envelope := Unattributed(signed.envelope))
    }
  }

  datatype Book = Book(form: Form, entries: map<Text, Receipt>)

  ghost predicate Filed(book: Book, r: Receipt) {
    r.receiptId in book.entries && book.entries[r.receiptId] == book.form.Of(r)
  }

  ghost predicate FiledIfGenuine(sha: Hash, book: Book, r: Receipt) {
    Genuine(sha, r) ==> Filed(book, r)
  }

  /** Every receipt is filed under its own id. */
  ghost predicate WellFiled(book: Book) {
    forall id | id in book.entries :: book.entries[id].receiptId == id
  }

  /** Two genuine receipts share an identity although they differ in the form. */
  ghost predicate Collides(form: Form, sha: Hash, r: Receipt, s: Receipt) {
    Genuine(sha, r) && Genuine(sha, s) && r.receiptId == s.receiptId && form.Of(r) != form.Of(s)
  }

  function WithEntry(book: Book, r: Receipt): Book {
    book.(entries := book.entries[r.receiptId := book.form.Of(r)])
  }

  /** Filing one more genuine receipt that collides with none already filed. */
  lemma FileOne(sha: Hash, book: Book, r: Receipt, s: Receipt)
    requires FiledIfGenuine(sha, book, s) && !Collides(book.form, sha, r, s) && Genuine(sha, r)
    ensures FiledIfGenuine(sha, WithEntry(book, r), s)
  {
  }

  /** Receipts that do not collide have a book. */
  lemma BookOf(form: Form, sha: Hash, receipts: set<Receipt>) returns (book: Book)
    requires forall r, s | r in receipts && s in receipts :: !Collides(form, sha, r, s)
    ensures book.form == form && WellFiled(book) && forall r | r in receipts :: FiledIfGenuine(sha, book, r)
    decreases |receipts|
  {
    if receipts == {} {
      return Book(form, map[]);
    }
    var r :| r in receipts;
    var rest := BookOf(form, sha, receipts - {r});
    if !Genuine(sha, r) {
      return rest;
    }
    book := WithEntry(rest, r);
    forall s | s in receipts - {r} ensures FiledIfGenuine(sha, book, s) {
      FileOne(sha, rest, r, s);
    }
  }

  // ----- what the canonical text determines -----

  lemma SameTerms(e: Envelope, f: Envelope)
    requires 1 <= e.schemaVersion <= 3 && HeadLines(e) == HeadLines(f) && BackLines(e) == BackLines(f)
    ensures Unattributed(SignedEnvelope(e)) == Unattributed(SignedEnvelope(f))
  {
    SameHead(e, f);
    var l := |LimitLines(e)|;
    assert BackLines(e)[..l] == LimitLines(e) && BackLines(f)[..l] == LimitLines(f);
    assert BackLines(e)[l..] == DelegationLines(e) && BackLines(f)[l..] == DelegationLines(f);
    SameLimits(e, f);
    if e.schemaVersion == 3 {
      SameDelegation(e, f);
    }
  }

  /** The signed terms show in the text: they have the same lines before and behind the attribution. */
  lemma TermsShow(e: Envelope)
    requires 1 <= e.schemaVersion <= 3
    ensures HeadLines(Unattributed(SignedEnvelope(e))) == HeadLines(e) && BackLines(Unattributed(SignedEnvelope(e))) == BackLines(e)
  {
    Ordering.SortContents(e.capabilities);
    Ordering.SortIsOrderFree(Ordering.Sort(e.capabilities), e.capabilities);
  }

  /** For valid envelopes, the canonical text is the same exactly when the terms and the text of the attribution are. */
  lemma CanonicalDeterminesTerms(sha: Hash, e: Envelope, f: Envelope)
    requires ValidEnvelope(sha, e) && ValidEnvelope(sha, f)
    ensures CanonicalEnvelope(e) == CanonicalEnvelope(f) <==>
              Unattributed(SignedEnvelope(e)) == Unattributed(SignedEnvelope(f)) && Attribution(e) == Attribution(f)
  {
    CanonicalShows(sha, e, f);
    TermsShow(e);
    TermsShow(f);
    if CanonicalEnvelope(e) == CanonicalEnvelope(f) {
      SameTerms(e, f);
    }
  }

  /** The two fields in which the envelope contract admits line breaks hold none. */
  predicate WrittenOnLines(e: Envelope) {
    LineFree(e.actorReference) && LineFree(e.issuedAtUtc)
  }

  lemma AttributionIsLineFree(sha: Hash, e: Envelope)
    requires ValidEnvelope(sha, e) && WrittenOnLines(e)
    ensures AllLineFree(AttributionLines(e))
  {
    TokenIsLineFree(e.signerId, 128);
    if e.schemaVersion >= 2 {
      TokenIsLineFree(e.signerKeyId, 128);
    }
  }

  lemma SameAttribution(e: Envelope, f: Envelope)
    requires AttributionLines(e) == AttributionLines(f) && e.schemaVersion == f.schemaVersion
    ensures e.actorReference == f.actorReference && e.signerId == f.signerId && e.issuedAtUtc == f.issuedAtUtc
    ensures e.schemaVersion >= 2 ==> e.signerKeyId == f.signerKeyId
  {
    var x, y := AttributionLines(e), AttributionLines(f);
    assert x[0] == e.actorReference && x[1] == e.signerId && x[|x| - 1] == e.issuedAtUtc;
    assert y[0] == f.actorReference && y[1] == f.signerId && y[|y| - 1] == f.issuedAtUtc;
    if e.schemaVersion >= 2 {
      assert x[2] == e.signerKeyId && y[2] == f.signerKeyId;
    }
  }

  lemma FormFromTerms(e: Envelope, f: Envelope)
    requires 1 <= e.schemaVersion <= 3
    requires Unattributed(SignedEnvelope(e)) == Unattributed(SignedEnvelope(f)) && AttributionLines(e) == AttributionLines(f)
    ensures SignedEnvelope(e) == SignedEnvelope(f)
  {
    assert SignedEnvelope(e).schemaVersion == e.schemaVersion && SignedEnvelope(f).schemaVersion == f.schemaVersion;
    SameAttribution(e, f);
  }

  /**
   For valid envelopes without line breaks in the actor reference and the issue time, the canonical text is the same
   exactly when the signed form is.
   */
  lemma CanonicalDeterminesForm(sha: Hash, e: Envelope, f: Envelope)
    requires ValidEnvelope(sha, e) && ValidEnvelope(sha, f) && WrittenOnLines(e) && WrittenOnLines(f)
    ensures CanonicalEnvelope(e) == CanonicalEnvelope(f) <==> SignedEnvelope(e) == SignedEnvelope(f)
  {
    CanonicalDeterminesTerms(sha, e, f);
    if CanonicalEnvelope(e) == CanonicalEnvelope(f) {
      AttributionIsLineFree(sha, e);
      AttributionIsLineFree(sha, f);
      JoinedLinesDetermined(AttributionLines(e), AttributionLines(f));
      FormFromTerms(e, f);
    }
    if SignedEnvelope(e) == SignedEnvelope(f) {
      SignedTextIsCanonical(e);
      SignedTextIsCanonical(f);
    }
  }

  // ----- what a line break blurs -----

  /** The envelope that moves the actor's second line to the signer, the signer to the key, and the key to the time. */
  function Shifted(e: Envelope, actor: Text, signer: Text): Envelope {
    e.(actorReference := actor, signerId := signer, signerKeyId := e.signerId, issuedAtUtc := e.signerKeyId + "\n" + e.issuedAtUtc)
  }

  /**
   The condition on line breaks is needed: with one in the actor reference, a valid envelope has the canonical text of
   another valid envelope with another signer, whatever the hash.
   */
  lemma LineBreakBlursSigner(sha: Hash, e: Envelope, actor: Text, signer: Text)
    requires ValidEnvelope(sha, e) && e.schemaVersion >= 2 && e.actorReference == actor + "\n" + signer
    requires actor != [] && ValidToken(signer, 128) && signer != e.signerId
    requires |e.signerKeyId| + 1 + |e.issuedAtUtc| <= 128
    ensures ValidEnvelope(sha, Shifted(e, actor, signer)) && SignedEnvelope(Shifted(e, actor, signer)) != SignedEnvelope(e)
    ensures CanonicalEnvelope(Shifted(e, actor, signer)) == CanonicalEnvelope(e)
  {
    ShiftedText(e, actor, signer);
  }

  lemma ThreeLines(a: Text, b: Text, c: Text)
    ensures JoinLines([a, b, c]) == a + "\n" + (b + "\n" + c)
  {
    assert [a, b, c][1..] == [b, c] && [b, c][1..] == [c];
    assert JoinLines([b, c]) == b + "\n" + c;
  }

  lemma FourLines(a: Text, b: Text, c: Text, d: Text)
    ensures JoinLines([a, b, c, d]) == a + "\n" + (b + "\n" + (c + "\n" + d))
  {
    assert [a, b, c, d][1..] == [b, c, d];
    ThreeLines(b, c, d);
  }

  lemma ShiftedText(e: Envelope, actor: Text, signer: Text)
    requires e.schemaVersion >= 2 && e.actorReference == actor + "\n" + signer
    ensures CanonicalEnvelope(Shifted(e, actor, signer)) == CanonicalEnvelope(e)
  {
    var f := Shifted(e, actor, signer);
    CanonicalInSections(e);
    CanonicalInSections(f);
    assert HeadLines(f) == HeadLines(e) && BackLines(f) == BackLines(e);
    FourLines(e.actorReference, e.signerId, e.signerKeyId, e.issuedAtUtc);
    FourLines(actor, signer, e.signerId, f.issuedAtUtc);
    SameFourLines(actor, signer, e.signerId, e.signerKeyId, e.issuedAtUtc);
    assert AttributionLines(e) == [e.actorReference, e.signerId, e.signerKeyId, e.issuedAtUtc];
    assert AttributionLines(f) == [actor, signer, e.signerId, f.issuedAtUtc];
  }

  lemma SameFourLines(a: Text, b: Text, c: Text, d: Text, e: Text)
    ensures (a + "\n" + b) + "\n" + (c + "\n" + (d + "\n" + e)) == a + "\n" + (b + "\n" + (c + "\n" + (d + "\n" + e)))
  {
  }

  // ----- from the hash to the book -----

  function IdentityText(sha: Hash, r: Receipt): Text {
    JoinLines([sha(CanonicalEnvelope(r.envelope)), r.algorithm, r.signature])
  }

  /** The texts hashed to identify some receipts. */
  ghost function HashedFor(sha: Hash, receipts: set<Receipt>): set<Text> {
    (set r | r in receipts :: CanonicalEnvelope(r.envelope)) + (set r | r in receipts :: IdentityText(sha, r))
  }

  lemma IdentityTextDetermines(sha: Hash, r: Receipt, s: Receipt)
    requires ValidToken(r.algorithm, 64) && ValidToken(s.algorithm, 64) && IdentityText(sha, r) == IdentityText(sha, s)
    ensures sha(CanonicalEnvelope(r.envelope)) == sha(CanonicalEnvelope(s.envelope))
    ensures r.algorithm == s.algorithm && r.signature == s.signature
  {
    var a, b := sha(CanonicalEnvelope(r.envelope)), sha(CanonicalEnvelope(s.envelope));
    Sha256IsLineFree(a);
    Sha256IsLineFree(b);
    TokenIsLineFree(r.algorithm, 64);
    TokenIsLineFree(s.algorithm, 64);
    ThreeLines(a, r.algorithm, r.signature);
    ThreeLines(b, s.algorithm, s.signature);
    FirstLine(a, r.algorithm + "\n" + r.signature, b, s.algorithm + "\n" + s.signature);
    FirstLine(r.algorithm, r.signature, s.algorithm, s.signature);
  }

  lemma SameIdDigest(a: Digest, b: Digest)
    requires RECEIPT_PREFIX + a == RECEIPT_PREFIX + b
    ensures a == b
  {
    assert a == (RECEIPT_PREFIX + a)[|RECEIPT_PREFIX|..] && b == (RECEIPT_PREFIX + b)[|RECEIPT_PREFIX|..];
  }

  /** What was signed under a form shows in the canonical text, or, for the signed form, if it is written on lines. */
  lemma SameText(form: Form, sha: Hash, r: Receipt, s: Receipt)
    requires Genuine(sha, r) && Genuine(sha, s) && r.receiptId == s.receiptId && r.algorithm == s.algorithm && r.signature == s.signature
    requires CanonicalEnvelope(r.envelope) == CanonicalEnvelope(s.envelope)
    requires form.Signed? ==> WrittenOnLines(r.envelope) && WrittenOnLines(s.envelope)
    ensures form.Of(r) == form.Of(s)
  {
    if form.Signed? {
      CanonicalDeterminesForm(sha, r.envelope, s.envelope);
    } else {
      CanonicalDeterminesTerms(sha, r.envelope, s.envelope);
    }
  }

  /** Two receipts hashed apart collide in no case: not in their terms, and in their signed form if written on lines. */
  lemma ApartDoNotCollide(form: Form, sha: Hash, receipts: set<Receipt>, r: Receipt, s: Receipt)
    requires r in receipts && s in receipts && HashedApart(sha, HashedFor(sha, receipts))
    requires form.Signed? ==> WrittenOnLines(r.envelope) && WrittenOnLines(s.envelope)
    ensures !Collides(form, sha, r, s)
  {
    if Genuine(sha, r) && Genuine(sha, s) && r.receiptId == s.receiptId {
      SameIdDigest(sha(IdentityText(sha, r)), sha(IdentityText(sha, s)));
      IdentityTextDetermines(sha, r, s);
      assert CanonicalEnvelope(r.envelope) in HashedFor(sha, receipts);
      assert CanonicalEnvelope(s.envelope) in HashedFor(sha, receipts);
      SameText(form, sha, r, s);
    }
  }

  /**
   A hash that keeps the receipts' own texts apart gives them a book of terms; and a book of signed forms, unless a line
   break hides in an actor or a time.
   */
  lemma BookFromHash(form: Form, sha: Hash, receipts: set<Receipt>) returns (book: Book)
    requires HashedApart(sha, HashedFor(sha, receipts))
    requires form.Signed? ==> forall r | r in receipts :: WrittenOnLines(r.envelope)
    ensures book.form == form && WellFiled(book) && forall r | r in receipts :: FiledIfGenuine(sha, book, r)
  {
    forall r, s | r in receipts && s in receipts ensures !Collides(form, sha, r, s) {
      ApartDoNotCollide(form, sha, receipts, r, s);
    }
    book := BookOf(form, sha, receipts);
  }
}
