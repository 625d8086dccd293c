/**
 The benchmark store: appending without duplicate run identities, and bounded hydration, which keeps
 the best N matching records while scanning the store once.
 */
module Scorecard {
  import opened Text
  import Ordering

  datatype Benchmark = Benchmark(runId: Text, hardwareId: Text, task: nat, profileName: Text, speed: real, body: Text)

  /** What a line of the store holds after the header. */
  datatype Line = Blank | Unreadable | Entry(record: Benchmark)

  /** The evaluator's total score of a record. */
  type Score = Benchmark -> real

  datatype Query = Query(hardwareId: Text, task: nat, profileName: Text, maxRecords: nat)

  // ----- ranking -----

  /** What the comparison looks at. */
  datatype Rank = Rank(score: real, speed: real, runId: Text)

  function RankOf(score: Score, r: Benchmark): Rank {
    Rank(score(r), r.speed, r.runId)
  }

  function Ranks(score: Score, rs: seq<Benchmark>): seq<Rank> {
    seq(|rs|, i requires 0 <= i < |rs| => RankOf(score, rs[i]))
  }

  predicate Above(a: Rank, b: Rank) {
    if a.score != b.score then a.score > b.score
    else if a.speed != b.speed then a.speed > b.speed
    else Ordering.Less(a.runId, b.runId)
  }

  /** Higher score, then faster, then the smaller run identity. */
  predicate Better(score: Score, a: Benchmark, b: Benchmark) {
    Above(RankOf(score, a), RankOf(score, b))
  }

  lemma AboveIsTotal(a: Rank, b: Rank)
    ensures !(Above(a, b) && Above(b, a))
    ensures a == b || Above(a, b) || Above(b, a)
  {
    Ordering.LessTrichotomy(a.runId, b.runId);
  }

  lemma AboveTransitive(a: Rank, b: Rank, c: Rank)
    requires Above(a, b) && Above(b, c)
    ensures Above(a, c)
  {
    if a.score == b.score == c.score && a.speed == b.speed == c.speed {
      Ordering.LessTransitive(a.runId, b.runId, c.runId);
    }
  }

  /** Whatever does not beat a record beaten by another does not beat that other either. */
  lemma AboveThrough(a: Rank, b: Rank, c: Rank)
    ensures !Above(a, b) && !Above(b, c) ==> !Above(a, c)
  {
    AboveIsTotal(a, b);
    AboveIsTotal(b, c);
    if Above(b, a) && Above(c, b) {
      AboveTransitive(c, b, a);
    }
    AboveIsTotal(a, c);
  }

  predicate DistinctRuns(rs: seq<Benchmark>) {
    forall i, j | 0 <= i < j < |rs| :: rs[i].runId != rs[j].runId
  }

  /** No record is listed after one it beats. */
  predicate Ranked(score: Score, rs: seq<Benchmark>) {
    forall i, j | 0 <= i < j < |rs| :: !Better(score, rs[j], rs[i])
  }

  predicate RanksDescend(ks: seq<Rank>) {
    forall i, j | 0 <= i < j < |ks| :: !Above(ks[j], ks[i])
  }

  // ----- sorting -----

  function Insert(score: Score, x: Benchmark, rs: seq<Benchmark>): seq<Benchmark> {
    if rs == [] then [x]
    else if Better(score, x, rs[0]) then [x] + rs
    else [rs[0]] + Insert(score, x, rs[1..])
  }

  lemma {:induction false} InsertContents(score: Score, x: Benchmark, rs: seq<Benchmark>)
    ensures multiset(Insert(score, x, rs)) == multiset(rs) + multiset{x}
  {
    if rs != [] && !Better(score, x, rs[0]) {
      InsertContents(score, x, rs[1..]);
      assert rs == [rs[0]] + rs[1..];
    }
  }

  lemma InsertMembers(score: Score, x: Benchmark, rs: seq<Benchmark>)
    ensures |Insert(score, x, rs)| == |rs| + 1
    ensures forall j | 0 <= j < |rs| + 1 :: Insert(score, x, rs)[j] == x || Insert(score, x, rs)[j] in rs
  {
    InsertContents(score, x, rs);
    assert |Insert(score, x, rs)| == |multiset(Insert(score, x, rs))|;
    forall j | 0 <= j < |rs| + 1 ensures Insert(score, x, rs)[j] == x || Insert(score, x, rs)[j] in rs {
      assert Insert(score, x, rs)[j] in multiset(Insert(score, x, rs));
    }
  }

  lemma {:induction false} InsertRanks(score: Score, x: Benchmark, rs: seq<Benchmark>)
    requires Ranked(score, rs)
    ensures Ranked(score, Insert(score, x, rs))
  {
    if rs != [] {
      if Better(score, x, rs[0]) {
        AboveIsTotal(RankOf(score, x), RankOf(score, rs[0]));
        forall j | 0 < j < |rs| ensures !Better(score, rs[j], x) {
          AboveThrough(RankOf(score, rs[j]), RankOf(score, rs[0]), RankOf(score, x));
        }
      } else {
        InsertRanks(score, x, rs[1..]);
        InsertMembers(score, x, rs[1..]);
      }
    }
  }

  /** A sorting routine: the caller may rely on no more than a ranked list of the same records. */
  method SortRecords(score: Score, rs: seq<Benchmark>) returns (sorted: seq<Benchmark>)
    ensures Ranked(score, sorted) && multiset(sorted) == multiset(rs)
  {
    sorted := [];
    for i := 0 to |rs|
      invariant Ranked(score, sorted) && multiset(sorted) == multiset(rs[..i])
    {
      InsertRanks(score, rs[i], sorted);
      InsertContents(score, rs[i], sorted);
      sorted := Insert(score, rs[i], sorted);
      assert rs[..i + 1] == rs[..i] + [rs[i]];
    }
    assert rs[..|rs|] == rs;
  }

  // ----- two ranked lists of the same records -----

  lemma FirstsAgree(ks: seq<Rank>, ms: seq<Rank>)
    requires RanksDescend(ks) && RanksDescend(ms) && multiset(ks) == multiset(ms) && ks != []
    ensures ms != [] && ks[0] == ms[0]
  {
    assert ks[0] in multiset(ms);
    var k :| 0 <= k < |ms| && ms[k] == ks[0];
    assert ms[0] in multiset(ks);
    var m :| 0 <= m < |ks| && ks[m] == ms[0];
    AboveIsTotal(ks[0], ms[0]);
  }

  lemma {:induction false} DescentIsUnique(ks: seq<Rank>, ms: seq<Rank>)
    requires RanksDescend(ks) && RanksDescend(ms) && multiset(ks) == multiset(ms)
    ensures ks == ms
    decreases |ks|
  {
    if ks == [] {
      assert |ms| == |multiset(ms)| == 0;
    } else {
      FirstsAgree(ks, ms);
      TailContents(ks, ms);
      DescentIsUnique(ks[1..], ms[1..]);
      SameParts(ks, ms);
    }
  }

  lemma TailContents(ks: seq<Rank>, ms: seq<Rank>)
    requires ks != [] && ms != [] && ks[0] == ms[0] && multiset(ks) == multiset(ms)
    ensures multiset(ks[1..]) == multiset(ms[1..])
  {
    Ordering.WithoutFirst(ks, ms, 0);
    assert ms[..0] + ms[1..] == ms[1..];
  }

  lemma SameParts(ks: seq<Rank>, ms: seq<Rank>)
    requires ks != [] && ms != [] && ks[0] == ms[0] && ks[1..] == ms[1..]
    ensures ks == ms
  {
    assert ks == [ks[0]] + ks[1..] && ms == [ms[0]] + ms[1..];
  }

  lemma {:induction false} SameRecordsSameRanks(score: Score, xs: seq<Benchmark>, ys: seq<Benchmark>)
    requires multiset(xs) == multiset(ys)
    ensures multiset(Ranks(score, xs)) == multiset(Ranks(score, ys))
    decreases |xs|
  {
    if xs == [] {
      assert |ys| == |multiset(ys)| == 0;
    } else {
      assert xs[0] in multiset(ys);
      var k :| 0 <= k < |ys| && ys[k] == xs[0];
      var rest := ys[..k] + ys[k + 1..];
      Ordering.WithoutFirst(xs, ys, k);
      SameRecordsSameRanks(score, xs[1..], rest);
      assert Ranks(score, xs) == [RankOf(score, xs[0])] + Ranks(score, xs[1..]);
      assert Ranks(score, ys) == Ranks(score, ys[..k]) + [RankOf(score, ys[k])] + Ranks(score, ys[k + 1..]);
      assert Ranks(score, rest) == Ranks(score, ys[..k]) + Ranks(score, ys[k + 1..]);
    }
  }

  /**
   Two ranked lists of the same records agree in rank at every place, so they differ at most among records of one
   score, one speed and one run identity; with distinct run identities they are the same list.
   */
  lemma RankedIsUnique(score: Score, xs: seq<Benchmark>, ys: seq<Benchmark>)
    requires Ranked(score, xs) && Ranked(score, ys) && multiset(xs) == multiset(ys)
    ensures Ranks(score, xs) == Ranks(score, ys)
    ensures DistinctRuns(xs) ==> xs == ys
  {
    SameRecordsSameRanks(score, xs, ys);
    DescentIsUnique(Ranks(score, xs), Ranks(score, ys));
    assert |xs| == |Ranks(score, xs)| == |ys|;
    forall i | 0 <= i < |xs| ensures DistinctRuns(xs) ==> xs[i] == ys[i] {
      assert Ranks(score, xs)[i] == Ranks(score, ys)[i];
      assert ys[i] in multiset(xs);
    }
  }

  // ----- keeping the best N -----

  function FirstN(rs: seq<Benchmark>, n: nat): seq<Benchmark> {
    if |rs| <= n then rs else rs[..n]
  }

  /** The kept list opens some ranked list of everything seen. */
  ghost predicate Opens(score: Score, all: seq<Benchmark>, seen: seq<Benchmark>, kept: seq<Benchmark>, n: nat) {
    Ranked(score, all) && multiset(all) == multiset(seen) && kept == FirstN(all, n)
  }

  ghost predicate BestOf(score: Score, seen: seq<Benchmark>, kept: seq<Benchmark>, n: nat) {
    exists all :: Opens(score, all, seen, kept, n)
  }

  /** Two ranked lists follow one another when nothing in the second beats anything in the first. */
  lemma RankedConcat(score: Score, xs: seq<Benchmark>, ys: seq<Benchmark>)
    requires Ranked(score, xs) && Ranked(score, ys)
    requires forall x, y | x in xs && y in ys :: !Better(score, y, x)
    ensures Ranked(score, xs + ys)
  {
  }

  lemma RankedParts(score: Score, all: seq<Benchmark>, n: nat)
    requires Ranked(score, all) && n <= |all|
    ensures Ranked(score, all[..n]) && Ranked(score, all[n..])
    ensures forall x, y | x in all[..n] && y in all[n..] :: !Better(score, y, x)
    ensures multiset(all) == multiset(all[..n]) + multiset(all[n..])
  {
    assert all == all[..n] + all[n..];
    forall x, y | x in all[..n] && y in all[n..] ensures !Better(score, y, x) {
      var i :| 0 <= i < n && all[i] == x;
      var j :| n <= j < |all| && all[j] == y;
    }
  }

  lemma Members(xs: seq<Benchmark>, ys: seq<Benchmark>, r: Benchmark)
    requires multiset(xs) == multiset(ys) + multiset{r}
    ensures |xs| == |ys| + 1 && forall x | x in xs :: x in ys || x == r
  {
    assert |xs| == |multiset(xs)|;
    forall x | x in xs ensures x in ys || x == r {
      assert x in multiset(xs);
    }
  }

  // ----- hydration -----

  predicate MatchesQuery(q: Query, r: Benchmark) {
    && r.hardwareId == q.hardwareId && r.task == q.task && (q.profileName == [] || r.profileName == q.profileName)
  }

  function Entries(lines: seq<Line>): seq<Benchmark> {
    if lines == [] then []
    else
      var last := lines[|lines| - 1];
      Entries(lines[..|lines| - 1]) + (if last.Entry? then [last.record] else [])
  }

  function Matching(q: Query, lines: seq<Line>): seq<Benchmark> {
    if lines == [] then []
    else
      var last := lines[|lines| - 1];
      Matching(q, lines[..|lines| - 1]) + (if last.Entry? && MatchesQuery(q, last.record) then [last.record] else [])
  }

  function Limit(q: Query): nat {
    if q.maxRecords == 0 then 1 else q.maxRecords
  }

  /** A record that beats the last kept one takes its place. */
  lemma Replaces(score: Score, all: seq<Benchmark>, r: Benchmark, kept: seq<Benchmark>, n: nat)
    requires 0 < n <= |all| && Ranked(score, all) && Better(score, r, all[n - 1])
    requires Ranked(score, kept) && multiset(kept) == multiset(all[..n - 1]) + multiset{r}
    ensures |kept| == n && Ranked(score, kept + all[n - 1..])
    ensures multiset(kept + all[n - 1..]) == multiset(all) + multiset{r}
  {
    RankedParts(score, all, n - 1);
    Members(kept, all[..n - 1], r);
    BelowReplacement(score, all, r, n);
    RankedConcat(score, kept, all[n - 1..]);
  }

  lemma BelowReplacement(score: Score, all: seq<Benchmark>, r: Benchmark, n: nat)
    requires 0 < n <= |all| && Ranked(score, all) && Better(score, r, all[n - 1])
    ensures forall y | y in all[n - 1..] :: !Better(score, y, r)
  {
    AboveIsTotal(RankOf(score, r), RankOf(score, all[n - 1]));
    forall y | y in all[n - 1..] ensures !Better(score, y, r) {
      var j :| n - 1 <= j < |all| && all[j] == y;
      AboveThrough(RankOf(score, y), RankOf(score, all[n - 1]), RankOf(score, r));
    }
  }

  /** A record that does not beat the last kept one is dropped behind it. */
  lemma Drops(score: Score, all: seq<Benchmark>, r: Benchmark, n: nat)
    requires 0 < n <= |all| && Ranked(score, all) && !Better(score, r, all[n - 1])
    ensures Ranked(score, all[..n] + Insert(score, r, all[n..]))
    ensures multiset(all[..n] + Insert(score, r, all[n..])) == multiset(all) + multiset{r}
  {
    RankedParts(score, all, n);
    InsertRanks(score, r, all[n..]);
    InsertContents(score, r, all[n..]);
    Members(Insert(score, r, all[n..]), all[n..], r);
    forall x | x in all[..n] ensures !Better(score, r, x) {
      var i :| 0 <= i < n && all[i] == x;
      AboveThrough(RankOf(score, r), RankOf(score, all[n - 1]), RankOf(score, x));
    }
    RankedConcat(score, all[..n], Insert(score, r, all[n..]));
  }

  /** The ranked list that a longer one opens with. */
  lemma OpensWith(score: Score, kept: seq<Benchmark>, rest: seq<Benchmark>, seen: seq<Benchmark>, n: nat)
    requires |kept| == n && Ranked(score, kept + rest) && multiset(kept + rest) == multiset(seen)
    ensures BestOf(score, seen, kept, n)
  {
    assert (kept + rest)[..n] == kept;
    assert Opens(score, kept + rest, seen, kept, n);
  }

  /** The retained list after one more matching record. */
  method Retain(score: Score, limit: nat, ghost seen: seq<Benchmark>, retained: seq<Benchmark>, r: Benchmark) returns (kept: seq<Benchmark>)
    requires limit > 0 && BestOf(score, seen, retained, limit)
    ensures BestOf(score, seen + [r], kept, limit)
  {
    ghost var all :| Opens(score, all, seen, retained, limit);
    if |retained| < limit {
      kept := SortRecords(score, retained + [r]);
      assert |kept| == |multiset(kept)| == |retained| + 1;
      assert Opens(score, kept, seen + [r], kept, limit);
      return;
    }
    if Better(score, r, retained[|retained| - 1]) {
      assert retained[..limit - 1] == all[..limit - 1];
      kept := SortRecords(score, retained[..|retained| - 1] + [r]);
      Replaces(score, all, r, kept, limit);
      OpensWith(score, kept, all[limit - 1..], seen + [r], limit);
      return;
    }
    assert all[..limit] == retained;
    Drops(score, all, r, limit);
    OpensWith(score, retained, Insert(score, r, all[limit..]), seen + [r], limit);
    return retained;
  }

  /**
   The retained list after the scan opens a ranked list of all matching records of the store, cut at the limit, and
   truncation is reported exactly when some match was dropped.
   */
  method Hydrate(score: Score, q: Query, lines: seq<Line>) returns (retained: seq<Benchmark>, matched: nat, truncated: bool)
    ensures BestOf(score, Matching(q, lines), retained, Limit(q))
    ensures matched == |Matching(q, lines)|
    ensures truncated <==> |Matching(q, lines)| > Limit(q)
  {
    retained, matched := [], 0;
    assert Opens(score, [], Matching(q, lines[..0]), retained, Limit(q));
    for i := 0 to |lines|
      invariant BestOf(score, Matching(q, lines[..i]), retained, Limit(q))
      invariant matched == |Matching(q, lines[..i])|
    {
      assert lines[..i + 1][..i] == lines[..i];
      if lines[i].Entry? && MatchesQuery(q, lines[i].record) {
        retained := Retain(score, Limit(q), Matching(q, lines[..i]), retained, lines[i].record);
        matched := matched + 1;
      } else {
        assert Matching(q, lines[..i]) + [] == Matching(q, lines[..i]);
      }
    }
    assert lines[..|lines|] == lines;
    BestLength(score, Matching(q, lines), retained, Limit(q));
    truncated := matched > |retained|;
  }

  lemma BestLength(score: Score, seen: seq<Benchmark>, kept: seq<Benchmark>, n: nat)
    requires BestOf(score, seen, kept, n)
    ensures |kept| == if |seen| <= n then |seen| else n
  {
    var all :| Opens(score, all, seen, kept, n);
    assert |all| == |multiset(all)| == |multiset(seen)| == |seen|;
  }

  /**
   The best N really are the best: nothing that was dropped beats anything that was kept. The outcome does not depend
   on the order of the records, nor on the sorting routine, beyond records of one score, speed and run identity.
   */
  lemma RetainedAreBest(score: Score, seen: seq<Benchmark>, kept: seq<Benchmark>, seen': seq<Benchmark>, kept': seq<Benchmark>, n: nat)
    requires BestOf(score, seen, kept, n) && BestOf(score, seen', kept', n) && multiset(seen) == multiset(seen')
    ensures multiset(kept) <= multiset(seen)
    ensures forall x, y | x in multiset(seen) - multiset(kept) && y in kept :: !Better(score, x, y)
    ensures Ranks(score, kept) == Ranks(score, kept')
    ensures DistinctRuns(seen) ==> kept == kept'
  {
    var all :| Opens(score, all, seen, kept, n);
    var all' :| Opens(score, all', seen', kept', n);
    KeptParts(score, all, kept, n);
    RankedIsUnique(score, all, all');
    RanksOfFirst(score, all, n);
    RanksOfFirst(score, all', n);
    if DistinctRuns(seen) {
      DistinctArrangement(seen, all);
    }
  }

  lemma KeptParts(score: Score, all: seq<Benchmark>, kept: seq<Benchmark>, n: nat)
    requires Ranked(score, all) && kept == FirstN(all, n)
    ensures multiset(kept) <= multiset(all)
    ensures forall x, y | x in multiset(all) - multiset(kept) && y in kept :: !Better(score, x, y)
  {
    if |all| > n {
      RankedParts(score, all, n);
      forall x | x in multiset(all) - multiset(kept) ensures x in all[n..] {
        assert x in multiset(all[n..]);
      }
    }
  }

  lemma RanksOfFirst(score: Score, all: seq<Benchmark>, n: nat)
    ensures |Ranks(score, all)| == |all|
    ensures Ranks(score, FirstN(all, n)) == if |all| <= n then Ranks(score, all) else Ranks(score, all)[..n]
  {
  }

  /** Distinct run identities do not depend on the order of the records. */
  lemma DistinctArrangement(xs: seq<Benchmark>, ys: seq<Benchmark>)
    requires DistinctRuns(xs) && multiset(xs) == multiset(ys)
    ensures DistinctRuns(ys)
  {
    forall i, j | 0 <= i < j < |ys| ensures ys[i].runId != ys[j].runId {
      assert ys[i] in multiset(xs) && ys[j] in multiset(xs);
      if ys[i] == ys[j] {
        TwiceListed(ys, i, j);
        OnceListed(xs, ys[i]);
      }
    }
  }

  lemma TwiceListed(ys: seq<Benchmark>, i: nat, j: nat)
    requires i < j < |ys| && ys[i] == ys[j]
    ensures multiset(ys)[ys[i]] >= 2
  {
    assert ys == ys[..j] + [ys[j]] + ys[j + 1..];
    assert ys[..j][i] in multiset(ys[..j]);
  }

  lemma OnceListed(xs: seq<Benchmark>, x: Benchmark)
    requires DistinctRuns(xs)
    ensures multiset(xs)[x] <= 1
  {
    if x in xs {
      var i :| 0 <= i < |xs| && xs[i] == x;
      assert xs == xs[..i] + [xs[i]] + xs[i + 1..];
      assert x !in xs[..i] && x !in xs[i + 1..];
    }
  }

  // ----- appending -----

  datatype AppendStatus = Appended | Duplicate | InvalidRecord | IoError

  /** What the duplicate scan finds first: an unreadable line, the same run identity, or neither. */
  function DuplicateScan(lines: seq<Line>, id: Text): AppendStatus {
    if lines == [] then Appended
    else if lines[0].Unreadable? then IoError
    else if lines[0].Entry? && lines[0].record.runId == id then Duplicate
    else DuplicateScan(lines[1..], id)
  }

  method Append(lines: seq<Line>, r: Benchmark, valid: bool, writes: bool) returns (after: seq<Line>, status: AppendStatus)
    ensures status == if !valid then InvalidRecord
                      else if DuplicateScan(lines, r.runId) != Appended then DuplicateScan(lines, r.runId)
                      else if writes then Appended else IoError
    ensures after == if status == Appended then lines + [Entry(r)] else lines
    ensures DistinctRuns(Entries(lines)) ==> DistinctRuns(Entries(after))
    ensures status == Duplicate ==> exists k | 0 <= k < |Entries(lines)| :: Entries(lines)[k].runId == r.runId
  {
    if !valid {
      return lines, InvalidRecord;
    }
    var found := Appended;
    assert lines[0..] == lines;
    for i := 0 to |lines|
      invariant found == Appended && DuplicateScan(lines, r.runId) == DuplicateScan(lines[i..], r.runId)
      invariant forall k | 0 <= k < i :: !(lines[k].Entry? && lines[k].record.runId == r.runId)
    {
      assert lines[i..][1..] == lines[i + 1..];
      if lines[i].Unreadable? {
        return lines, IoError;
      }
      if lines[i].Entry? && lines[i].record.runId == r.runId {
        EntryIsListed(lines, i);
        return lines, Duplicate;
      }
    }
    if !writes {
      return lines, IoError;
    }
    if DistinctRuns(Entries(lines)) {
      NewEntry(lines, r);
    }
    return lines + [Entry(r)], Appended;
  }

  lemma {:induction false} EntryIsListed(lines: seq<Line>, i: nat)
    requires i < |lines| && lines[i].Entry?
    ensures exists k | 0 <= k < |Entries(lines)| :: Entries(lines)[k] == lines[i].record
    decreases |lines|
  {
    var front := lines[..|lines| - 1];
    if i < |front| {
      EntryIsListed(front, i);
      var k :| 0 <= k < |Entries(front)| && Entries(front)[k] == front[i].record;
      assert Entries(lines)[k] == lines[i].record;
    } else {
      assert Entries(lines)[|Entries(front)|] == lines[i].record;
    }
  }

  lemma {:induction false} ListedIsEntry(lines: seq<Line>, k: nat)
    requires k < |Entries(lines)|
    ensures exists i | 0 <= i < |lines| :: lines[i].Entry? && lines[i].record == Entries(lines)[k]
  {
    var front := lines[..|lines| - 1];
    if k < |Entries(front)| {
      ListedIsEntry(front, k);
      var i :| 0 <= i < |front| && front[i].Entry? && front[i].record == Entries(front)[k];
      assert lines[i] == front[i];
    } else {
      assert lines[|lines| - 1].Entry?;
    }
  }

  lemma DistinctAppend(rs: seq<Benchmark>, r: Benchmark)
    requires DistinctRuns(rs) && forall k | 0 <= k < |rs| :: rs[k].runId != r.runId
    ensures DistinctRuns(rs + [r])
  {
  }

  lemma NewEntry(lines: seq<Line>, r: Benchmark)
    requires DistinctRuns(Entries(lines))
    requires forall k | 0 <= k < |lines| :: !(lines[k].Entry? && lines[k].record.runId == r.runId)
    ensures DistinctRuns(Entries(lines + [Entry(r)]))
  {
    var before := Entries(lines);
    forall k | 0 <= k < |before| ensures before[k].runId != r.runId {
      ListedIsEntry(lines, k);
    }
    DistinctAppend(before, r);
    EntriesAppend(lines, r);
  }

  lemma EntriesAppend(lines: seq<Line>, r: Benchmark)
    ensures Entries(lines + [Entry(r)]) == Entries(lines) + [r]
  {
    assert (lines + [Entry(r)])[..|lines|] == lines;
  }
}
