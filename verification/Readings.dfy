/** The records a text's lines read as. */
module Readings {
  import opened Wrappers

  predicate AllRead<R>(lines: seq<Option<R>>) {
    forall i | 0 <= i < |lines| :: lines[i].Some?
  }

  function Values<R>(lines: seq<Option<R>>): (h: seq<R>)
    requires AllRead(lines)
    ensures |h| == |lines| && forall i | 0 <= i < |h| :: lines[i] == Some(h[i])
  {
    if lines == [] then [] else Values(lines[..|lines| - 1]) + [lines[|lines| - 1].value]
  }

  lemma ValuesExtend<R>(lines: seq<Option<R>>)
    requires lines != [] && AllRead(lines)
    ensures AllRead(lines[..|lines| - 1])
    ensures Values(lines) == Values(lines[..|lines| - 1]) + [lines[|lines| - 1].value]
  {
  }

  lemma AllReadExtends<R>(lines: seq<Option<R>>)
    requires lines != []
    ensures AllRead(lines) <==> AllRead(lines[..|lines| - 1]) && lines[|lines| - 1].Some?
  {
    var front := lines[..|lines| - 1];
    if AllRead(front) && lines[|lines| - 1].Some? {
      forall i | 0 <= i < |lines| ensures lines[i].Some? {
        if i < |front| {
          assert front[i].Some?;
        }
      }
    }
  }

  lemma ValuesAppend<R>(lines: seq<Option<R>>, r: R)
    requires AllRead(lines)
    ensures AllRead(lines + [Some(r)]) && Values(lines + [Some(r)]) == Values(lines) + [r]
  {
    assert (lines + [Some(r)])[..|lines|] == lines;
  }
}
