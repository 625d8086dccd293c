/**
 What the canonical text of a valid envelope shows. It joins the envelope's fields with line breaks, and two of those
 fields, the actor reference and the issue time, may hold line breaks of their own; everything before and behind the
 attribution they stand in can be told from the text all the same.
 */
module CanonicalLines {
  import opened Text
  import opened HashChain
  import opened AuthorityReceipt
  import Ordering

  // ----- lines -----

  predicate AllLineFree(lines: seq<Text>) {
    forall i | 0 <= i < |lines| :: LineFree(lines[i])
  }

  /** Joining more than one line leaves a break in the text. */
  lemma JoinBreaks(lines: seq<Text>)
    requires |lines| > 1
    ensures !LineFree(JoinLines(lines))
  {
    assert JoinLines(lines) == lines[0] + "\n" + JoinLines(lines[1..]);
    assert JoinLines(lines)[|lines[0]|] == '\n';
  }

  lemma SameNumberOfLines(xs: seq<Text>, ys: seq<Text>)
    requires xs != [] && ys != [] && AllLineFree(xs) && AllLineFree(ys) && JoinLines(xs) == JoinLines(ys)
    ensures |xs| == 1 <==> |ys| == 1
  {
    if |xs| > 1 {
      JoinBreaks(xs);
    }
    if |ys| > 1 {
      JoinBreaks(ys);
    }
  }

  /** Joined lines are determined by their text when none holds a line break. */
  lemma {:induction false} JoinedLinesDetermined(xs: seq<Text>, ys: seq<Text>)
    requires xs != [] && ys != [] && AllLineFree(xs) && AllLineFree(ys) && JoinLines(xs) == JoinLines(ys)
    ensures xs == ys
  {
    SameNumberOfLines(xs, ys);
    if |xs| > 1 {
      FirstLine(xs[0], JoinLines(xs[1..]), ys[0], JoinLines(ys[1..]));
      JoinedLinesDetermined(xs[1..], ys[1..]);
      assert xs == [xs[0]] + xs[1..] && ys == [ys[0]] + ys[1..];
    } else {
      assert xs == [xs[0]] && ys == [ys[0]];
    }
  }

  /** The lines of a text. */
  function LinesOf(t: Text): (lines: seq<Text>)
    ensures lines != []
  {
    if t == [] then [[]]
    else
      var rest := LinesOf(t[1..]);
      if t[0] == '\n' then [[]] + rest else [[t[0]] + rest[0]] + rest[1..]
  }

  lemma {:induction false} LinesJoin(t: Text)
    ensures AllLineFree(LinesOf(t)) && JoinLines(LinesOf(t)) == t
  {
    if t != [] {
      var rest := LinesOf(t[1..]);
      LinesJoin(t[1..]);
      assert t == [t[0]] + t[1..];
      if t[0] == '\n' {
        assert ([[]] + rest)[1..] == rest;
      } else {
        LongerFirstLine(t[0], rest);
      }
    }
  }

  lemma LongerFirstLine(c: Byte, lines: seq<Text>)
    requires lines != []
    ensures JoinLines([[c] + lines[0]] + lines[1..]) == [c] + JoinLines(lines)
  {
    var longer := [[c] + lines[0]] + lines[1..];
    assert longer[1..] == lines[1..];
    if |lines| > 1 {
      assert ([c] + lines[0]) + "\n" + JoinLines(lines[1..]) == [c] + (lines[0] + "\n" + JoinLines(lines[1..]));
    }
  }

  lemma {:induction false} JoinConcat(xs: seq<Text>, ys: seq<Text>)
    requires xs != [] && ys != []
    ensures JoinLines(xs + ys) == JoinLines(xs) + "\n" + JoinLines(ys)
  {
    assert (xs + ys)[1..] == xs[1..] + ys;
    if |xs| > 1 {
      JoinConcat(xs[1..], ys);
      assert xs[0] + "\n" + (JoinLines(xs[1..]) + "\n" + JoinLines(ys)) == (xs[0] + "\n" + JoinLines(xs[1..])) + "\n" + JoinLines(ys);
    } else {
      assert xs[1..] + ys == ys;
    }
  }

  lemma JoinThree(xs: seq<Text>, ys: seq<Text>, zs: seq<Text>)
    requires xs != [] && ys != [] && zs != []
    ensures JoinLines(xs + ys + zs) == JoinLines(xs) + "\n" + JoinLines(ys) + "\n" + JoinLines(zs)
  {
    JoinConcat(xs + ys, zs);
    JoinConcat(xs, ys);
  }

  lemma TokenIsLineFree(t: Text, max: nat)
    requires ValidToken(t, max)
    ensures LineFree(t)
  {
  }

  lemma DecIsLineFree(n: nat)
    ensures LineFree(Dec(n))
  {
  }

  lemma Sha256IsLineFree(t: Text)
    requires IsSha256(t)
    ensures LineFree(t)
  {
  }

  lemma ReceiptIdIsLineFree(t: Text)
    requires ValidReceiptId(t)
    ensures LineFree(t)
  {
    Sha256IsLineFree(t[|RECEIPT_PREFIX|..]);
    assert t == RECEIPT_PREFIX + t[|RECEIPT_PREFIX|..];
  }

  lemma JoinedFree(xs: seq<Text>, ys: seq<Text>)
    requires AllLineFree(xs) && AllLineFree(ys)
    ensures AllLineFree(xs + ys)
  {
  }

  lemma LimitsAreLineFree(sha: Hash, e: Envelope)
    requires ValidEnvelope(sha, e)
    ensures AllLineFree(LimitLines(e))
  {
    DecIsLineFree(e.issuedAt); DecIsLineFree(e.expiresAt); DecIsLineFree(e.maxUses);
    TokenIsLineFree(e.nonce, 128); Sha256IsLineFree(e.scopeSha256);
  }

  lemma SortedAreTokens(caps: seq<Text>)
    requires forall i | 0 <= i < |caps| :: ValidToken(caps[i], 128)
    ensures forall i | 0 <= i < |Ordering.Sort(caps)| :: ValidToken(Ordering.Sort(caps)[i], 128)
    ensures AllLineFree(Ordering.Sort(caps))
  {
    Ordering.SortContents(caps);
    var sorted := Ordering.Sort(caps);
    forall i | 0 <= i < |sorted| ensures ValidToken(sorted[i], 128) && LineFree(sorted[i]) {
      assert sorted[i] in multiset(sorted);
      assert sorted[i] in caps;
      TokenIsLineFree(sorted[i], 128);
    }
  }

  lemma DelegationIsLineFree(sha: Hash, e: Envelope)
    requires ValidEnvelope(sha, e)
    ensures AllLineFree(DelegationLines(e))
  {
    if e.schemaVersion == 3 {
      var caps := Ordering.Sort(e.capabilities);
      SortedAreTokens(e.capabilities);
      DecIsLineFree(e.delegationDepth); DecIsLineFree(e.maxDelegationDepth); DecIsLineFree(|caps|);
      TokenIsLineFree(e.scopePath, 512);
      if e.delegationDepth != 0 {
        ReceiptIdIsLineFree(e.parentReceiptId);
      }
      JoinedFree([e.parentReceiptId, Dec(e.delegationDepth), Dec(e.maxDelegationDepth), e.scopePath, Dec(|caps|)], caps);
    }
  }

  // ----- the sections of the text -----

  function HeadLines(e: Envelope): seq<Text> {
    [Dec(e.schemaVersion), Dec(e.purpose.Code()), e.subjectId]
  }

  /** Who acts, who signs with which key, and when in words. */
  function AttributionLines(e: Envelope): (lines: seq<Text>)
    ensures lines != []
  {
    [e.actorReference, e.signerId] + (if e.schemaVersion >= 2 then [e.signerKeyId] else []) + [e.issuedAtUtc]
  }

  function BackLines(e: Envelope): (lines: seq<Text>)
    ensures lines != []
  {
    LimitLines(e) + DelegationLines(e)
  }

  function Attribution(e: Envelope): Text {
    JoinLines(AttributionLines(e))
  }

  lemma CanonicalInSections(e: Envelope)
    ensures CanonicalEnvelope(e) == JoinLines(HeadLines(e)) + "\n" + Attribution(e) + "\n" + JoinLines(BackLines(e))
  {
    assert EnvelopeLines(e) == HeadLines(e) + AttributionLines(e) + BackLines(e);
    JoinThree(HeadLines(e), AttributionLines(e), BackLines(e));
  }

  /** The lines of the whole text. */
  function SplitLines(e: Envelope): (lines: seq<Text>)
    ensures lines != []
  {
    HeadLines(e) + LinesOf(Attribution(e)) + BackLines(e)
  }

  lemma SplitIsCanonical(sha: Hash, e: Envelope)
    requires ValidEnvelope(sha, e)
    ensures JoinLines(SplitLines(e)) == CanonicalEnvelope(e) && AllLineFree(SplitLines(e))
  {
    CanonicalInSections(e);
    LinesJoin(Attribution(e));
    JoinThree(HeadLines(e), LinesOf(Attribution(e)), BackLines(e));
    HeadIsLineFree(e);
    LimitsAreLineFree(sha, e);
    DelegationIsLineFree(sha, e);
    JoinedFree(LimitLines(e), DelegationLines(e));
    JoinedFree(HeadLines(e), LinesOf(Attribution(e)));
    JoinedFree(HeadLines(e) + LinesOf(Attribution(e)), BackLines(e));
  }

  lemma HeadIsLineFree(e: Envelope)
    requires ValidToken(e.subjectId, 256)
    ensures AllLineFree(HeadLines(e))
  {
    DecIsLineFree(e.schemaVersion);
    DecIsLineFree(e.purpose.Code());
    TokenIsLineFree(e.subjectId, 256);
  }

  lemma DecDetermined(m: nat, n: nat)
    requires Dec(m) == Dec(n)
    ensures m == n
  {
    DecRoundTrip(m);
    DecRoundTrip(n);
  }

  lemma SameHead(e: Envelope, f: Envelope)
    requires HeadLines(e) == HeadLines(f)
    ensures e.schemaVersion == f.schemaVersion && e.purpose == f.purpose && e.subjectId == f.subjectId
  {
    assert HeadLines(e)[0] == HeadLines(f)[0] && HeadLines(e)[1] == HeadLines(f)[1] && HeadLines(e)[2] == HeadLines(f)[2];
    DecDetermined(e.schemaVersion, f.schemaVersion);
    DecDetermined(e.purpose.Code(), f.purpose.Code());
  }

  lemma SameLimits(e: Envelope, f: Envelope)
    requires LimitLines(e) == LimitLines(f) && e.schemaVersion == f.schemaVersion
    ensures e.nonce == f.nonce && e.scopeSha256 == f.scopeSha256
    ensures e.schemaVersion >= 2 ==> e.issuedAt == f.issuedAt && e.expiresAt == f.expiresAt && e.maxUses == f.maxUses
  {
    var x, y := LimitLines(e), LimitLines(f);
    assert x[|x| - 2] == e.nonce && x[|x| - 1] == e.scopeSha256 && y[|y| - 2] == f.nonce && y[|y| - 1] == f.scopeSha256;
    if e.schemaVersion >= 2 {
      assert x[0] == Dec(e.issuedAt) && x[1] == Dec(e.expiresAt) && x[2] == Dec(e.maxUses);
      assert y[0] == Dec(f.issuedAt) && y[1] == Dec(f.expiresAt) && y[2] == Dec(f.maxUses);
      DecDetermined(e.issuedAt, f.issuedAt);
      DecDetermined(e.expiresAt, f.expiresAt);
      DecDetermined(e.maxUses, f.maxUses);
    }
  }

  lemma SameDelegation(e: Envelope, f: Envelope)
    requires DelegationLines(e) == DelegationLines(f) && e.schemaVersion == 3 == f.schemaVersion
    ensures e.parentReceiptId == f.parentReceiptId && e.delegationDepth == f.delegationDepth
    ensures e.maxDelegationDepth == f.maxDelegationDepth && e.scopePath == f.scopePath
    ensures Ordering.Sort(e.capabilities) == Ordering.Sort(f.capabilities)
  {
    var x, y := DelegationLines(e), DelegationLines(f);
    assert x[0] == e.parentReceiptId && x[1] == Dec(e.delegationDepth) && x[2] == Dec(e.maxDelegationDepth) && x[3] == e.scopePath;
    assert y[0] == f.parentReceiptId && y[1] == Dec(f.delegationDepth) && y[2] == Dec(f.maxDelegationDepth) && y[3] == f.scopePath;
    assert x[5..] == Ordering.Sort(e.capabilities) && y[5..] == Ordering.Sort(f.capabilities);
    DecDetermined(e.delegationDepth, f.delegationDepth);
    DecDetermined(e.maxDelegationDepth, f.maxDelegationDepth);
  }

  // ----- the back of the text cannot be shifted -----

  lemma DelegableBack(e: Envelope)
    requires e.schemaVersion == 3
    ensures var b, caps := BackLines(e), Ordering.Sort(e.capabilities);
            && |b| == 10 + |e.capabilities| && |caps| == |e.capabilities|
            && b[4] == e.scopeSha256 && b[5] == e.parentReceiptId && b[6] == Dec(e.delegationDepth)
            && b[7] == Dec(e.maxDelegationDepth) && b[9] == Dec(|e.capabilities|)
            && forall i | 0 <= i < |caps| :: b[10 + i] == caps[i]
  {
    Ordering.SortContents(e.capabilities);
    assert |multiset(Ordering.Sort(e.capabilities))| == |multiset(e.capabilities)|;
  }

  lemma SmallNumberIsShort(n: nat)
    requires n < 100
    ensures |Dec(n)| <= 2 && !IsSha256(Dec(n)) && !ValidReceiptId(Dec(n))
  {
    assert n < 10 ==> |Dec(n)| == 1;
    assert n >= 10 ==> Dec(n / 10) == Dec(n)[..|Dec(n)| - 1] && |Dec(n / 10)| == 1;
  }

  lemma ReceiptIdIsNoSha256(id: Text)
    requires id == [] || ValidReceiptId(id)
    ensures !IsSha256(id)
  {
  }

  /** In sorted capabilities no number stands right behind a receipt identity. */
  lemma NoNumberBehindReceiptId(caps: seq<Text>, i: nat, n: nat)
    requires i + 1 < |Ordering.Sort(caps)| && Ordering.Sort(caps)[i + 1] == Dec(n)
    ensures !ValidReceiptId(Ordering.Sort(caps)[i])
  {
    var sorted := Ordering.Sort(caps);
    Ordering.SortIsSorted(caps);
    if ValidReceiptId(sorted[i]) {
      assert sorted[i][0] == RECEIPT_PREFIX[0] == 'g';
      assert IsDecimal(Dec(n)[0]);
      assert Ordering.Less(sorted[i + 1], sorted[i]);
    }
  }

  /** Two delegable envelopes' back lines end alike only if they have as many capabilities. */
  lemma BackIsNotShifted(sha: Hash, e: Envelope, f: Envelope)
    requires ValidEnvelope(sha, e) && ValidEnvelope(sha, f) && e.schemaVersion == 3 == f.schemaVersion
    requires |f.capabilities| < |e.capabilities|
    ensures |BackLines(f)| < |BackLines(e)| && BackLines(e)[|BackLines(e)| - |BackLines(f)|..] != BackLines(f)
  {
    var b, c, d := BackLines(e), BackLines(f), |e.capabilities| - |f.capabilities|;
    DelegableBack(e);
    DelegableBack(f);
    if b[d..] == c {
      assert c[4] == b[4 + d] && c[5] == b[5 + d] && c[6] == b[6 + d];
      ReceiptIdIsNoSha256(e.parentReceiptId);
      SmallNumberIsShort(e.delegationDepth);
      SmallNumberIsShort(e.maxDelegationDepth);
      SmallNumberIsShort(|e.capabilities|);
      FarShiftFails(sha, e, f, d);
    }
  }

  lemma FarShiftFails(sha: Hash, e: Envelope, f: Envelope, d: nat)
    requires ValidEnvelope(sha, e) && ValidEnvelope(sha, f) && e.schemaVersion == 3 == f.schemaVersion
    requires 6 <= d < |e.capabilities| == |Ordering.Sort(e.capabilities)|
    ensures Ordering.Sort(e.capabilities)[d - 5] == f.parentReceiptId ==> Ordering.Sort(e.capabilities)[d - 4] != Dec(f.delegationDepth)
  {
    var caps := Ordering.Sort(e.capabilities);
    if caps[d - 5] == f.parentReceiptId && caps[d - 4] == Dec(f.delegationDepth) {
      SortedAreTokens(e.capabilities);
      assert caps[d - 5] != [];
      NoNumberBehindReceiptId(e.capabilities, d - 5, f.delegationDepth);
    }
  }

  // ----- what the text shows -----

  /** Of two lists that end one text, the shorter ends the longer. */
  lemma SameEnd(xs: seq<Text>, back: seq<Text>, ys: seq<Text>, shorter: seq<Text>)
    requires xs + back == ys + shorter && |shorter| <= |back|
    ensures back[|back| - |shorter|..] == shorter
  {
    var lines := xs + back;
    assert lines[|lines| - |shorter|..] == shorter;
    assert lines[|xs|..] == back;
    assert lines[|xs|..][|back| - |shorter|..] == lines[|lines| - |shorter|..];
  }

  lemma SameBackLength(sha: Hash, e: Envelope, f: Envelope)
    requires ValidEnvelope(sha, e) && ValidEnvelope(sha, f) && e.schemaVersion == f.schemaVersion && SplitLines(e) == SplitLines(f)
    ensures |BackLines(e)| == |BackLines(f)|
  {
    if e.schemaVersion == 3 {
      var x, y := HeadLines(e) + LinesOf(Attribution(e)), HeadLines(f) + LinesOf(Attribution(f));
      DelegableBack(e);
      DelegableBack(f);
      if |f.capabilities| < |e.capabilities| {
        SameEnd(x, BackLines(e), y, BackLines(f));
        BackIsNotShifted(sha, e, f);
      } else if |e.capabilities| < |f.capabilities| {
        SameEnd(y, BackLines(f), x, BackLines(e));
        BackIsNotShifted(sha, f, e);
      }
    }
  }

  lemma SplitSections(e: Envelope)
    ensures var s := SplitLines(e);
            && s[..3] == HeadLines(e) && s[3..|s| - |BackLines(e)|] == LinesOf(Attribution(e)) && s[|s| - |BackLines(e)|..] == BackLines(e)
  {
  }

  lemma SameSplitSections(sha: Hash, e: Envelope, f: Envelope)
    requires ValidEnvelope(sha, e) && ValidEnvelope(sha, f) && SplitLines(e) == SplitLines(f)
    ensures HeadLines(e) == HeadLines(f) && LinesOf(Attribution(e)) == LinesOf(Attribution(f)) && BackLines(e) == BackLines(f)
  {
    SplitSections(e);
    SplitSections(f);
    SameHead(e, f);
    SameBackLength(sha, e, f);
  }

  /**
   The canonical texts of two valid envelopes are the same exactly when their heads, their limits and delegation, and
   the joined text of their attribution are; where the attribution's fields begin and end in it does not show.
   */
  lemma CanonicalShows(sha: Hash, e: Envelope, f: Envelope)
    requires ValidEnvelope(sha, e) && ValidEnvelope(sha, f)
    ensures CanonicalEnvelope(e) == CanonicalEnvelope(f) <==>
              HeadLines(e) == HeadLines(f) && Attribution(e) == Attribution(f) && BackLines(e) == BackLines(f)
  {
    CanonicalInSections(e);
    CanonicalInSections(f);
    if CanonicalEnvelope(e) == CanonicalEnvelope(f) {
      SplitIsCanonical(sha, e);
      SplitIsCanonical(sha, f);
      JoinedLinesDetermined(SplitLines(e), SplitLines(f));
      SameSplitSections(sha, e, f);
      LinesJoin(Attribution(e));
      LinesJoin(Attribution(f));
    }
  }
}
