/** Byte-wise lexicographic order on text, and sorting by it. */
module Ordering {
  import opened Text

  /** std::string's operator<: the first differing byte decides, a proper prefix comes first. */
  predicate Less(a: Text, b: Text) {
    if b == [] then false
    else if a == [] then true
    else if a[0] != b[0] then a[0] < b[0]
    else Less(a[1..], b[1..])
  }

  lemma {:induction false} LessTrichotomy(a: Text, b: Text)
    ensures !(Less(a, b) && Less(b, a))
    ensures Less(a, b) || Less(b, a) || a == b
    ensures Less(a, b) ==> a != b
  {
    if a != [] && b != [] && a[0] == b[0] {
      LessTrichotomy(a[1..], b[1..]);
      assert a == [a[0]] + a[1..] && b == [b[0]] + b[1..];
    }
  }

  lemma {:induction false} LessTransitive(a: Text, b: Text, c: Text)
    requires Less(a, b) && Less(b, c)
    ensures Less(a, c)
  {
    if a != [] && a[0] == b[0] == c[0] {
      LessTransitive(a[1..], b[1..], c[1..]);
    }
  }

  function Insert(x: Text, xs: seq<Text>): seq<Text> {
    if xs == [] || !Less(xs[0], x) then [x] + xs else [xs[0]] + Insert(x, xs[1..])
  }

  function Sort(xs: seq<Text>): seq<Text> {
    if xs == [] then [] else Insert(xs[0], Sort(xs[1..]))
  }

  /** Neighbouring duplicates removed. */
  function Distinct(sorted: seq<Text>): seq<Text> {
    if |sorted| < 2 then sorted
    else if sorted[0] == sorted[1] then Distinct(sorted[1..])
    else [sorted[0]] + Distinct(sorted[1..])
  }

  lemma {:induction false} InsertContents(x: Text, xs: seq<Text>)
    ensures multiset(Insert(x, xs)) == multiset(xs) + multiset{x}
  {
    if xs != [] && Less(xs[0], x) {
      InsertContents(x, xs[1..]);
      assert xs == [xs[0]] + xs[1..];
    }
  }

  lemma {:induction false} SortContents(xs: seq<Text>)
    ensures multiset(Sort(xs)) == multiset(xs)
  {
    if xs != [] {
      SortContents(xs[1..]);
      InsertContents(xs[0], Sort(xs[1..]));
      assert xs == [xs[0]] + xs[1..];
    }
  }

  /** Nothing is followed by anything smaller. */
  predicate Sorted(xs: seq<Text>) {
    forall i | 0 <= i < |xs| - 1 :: !Less(xs[i + 1], xs[i])
  }

  lemma {:induction false} InsertSorted(x: Text, xs: seq<Text>)
    requires Sorted(xs)
    ensures Sorted(Insert(x, xs)) && Insert(x, xs)[0] in [x] + xs[..if xs == [] then 0 else 1]
  {
    if xs == [] || !Less(xs[0], x) {
      assert forall i | 0 < i < |xs| :: ([x] + xs)[i] == xs[i - 1];
    } else {
      var rest := Insert(x, xs[1..]);
      forall i | 0 <= i < |xs[1..]| - 1 ensures !Less(xs[1..][i + 1], xs[1..][i]) {
        assert xs[1..][i + 1] == xs[i + 2] && xs[1..][i] == xs[i + 1];
      }
      InsertSorted(x, xs[1..]);
      LessTrichotomy(xs[0], x);
      assert !Less(rest[0], xs[0]);
    }
  }

  lemma {:induction false} SortIsSorted(xs: seq<Text>)
    ensures Sorted(Sort(xs))
  {
    if xs != [] {
      SortIsSorted(xs[1..]);
      InsertSorted(xs[0], Sort(xs[1..]));
    }
  }

  /** Inserting two values in either order gives the same list. */
  lemma {:induction false} InsertCommutes(x: Text, y: Text, xs: seq<Text>)
    ensures Insert(x, Insert(y, xs)) == Insert(y, Insert(x, xs))
  {
    LessTrichotomy(x, y);
    if xs != [] {
      LessTrichotomy(xs[0], x);
      LessTrichotomy(xs[0], y);
      if Less(xs[0], x) && Less(y, xs[0]) {
        LessTransitive(y, xs[0], x);
      }
      if Less(xs[0], y) && Less(x, xs[0]) {
        LessTransitive(x, xs[0], y);
      }
      InsertCommutes(x, y, xs[1..]);
    }
  }

  lemma {:induction false} SortInsertAt(xs: seq<Text>, k: nat)
    requires k < |xs|
    ensures Sort(xs) == Insert(xs[k], Sort(xs[..k] + xs[k + 1..]))
  {
    var rest := xs[..k] + xs[k + 1..];
    if k > 0 {
      SortInsertAt(xs[1..], k - 1);
      assert xs[1..][..k - 1] + xs[1..][k..] == rest[1..];
      InsertCommutes(xs[0], xs[k], Sort(rest[1..]));
    } else {
      assert rest == xs[1..];
    }
  }

  /** Equal multisets stay equal when the same element leaves both. */
  lemma WithoutFirst<T>(xs: seq<T>, ys: seq<T>, k: nat)
    requires xs != [] && k < |ys| && ys[k] == xs[0] && multiset(xs) == multiset(ys)
    ensures multiset(xs[1..]) == multiset(ys[..k] + ys[k + 1..])
  {
    assert xs == [xs[0]] + xs[1..];
    assert ys == ys[..k] + ([ys[k]] + ys[k + 1..]);
    assert multiset(ys) == multiset(ys[..k]) + multiset([ys[k]] + ys[k + 1..]);
    assert multiset(xs) - multiset{xs[0]} == multiset(xs[1..]);
    assert multiset(ys) - multiset{ys[k]} == multiset(ys[..k]) + multiset(ys[k + 1..]);
  }

  /** Sorting forgets the order it was given. */
  lemma {:induction false} SortIsOrderFree(xs: seq<Text>, ys: seq<Text>)
    requires multiset(xs) == multiset(ys)
    ensures Sort(xs) == Sort(ys)
    decreases |xs|
  {
    if xs == [] {
      assert |ys| == |multiset(ys)| == 0;
    } else {
      assert xs[0] in multiset(ys);
      var k :| 0 <= k < |ys| && ys[k] == xs[0];
      var rest := ys[..k] + ys[k + 1..];
      WithoutFirst(xs, ys, k);
      SortIsOrderFree(xs[1..], rest);
      SortInsertAt(ys, k);
    }
  }
}
