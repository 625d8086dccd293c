/**
 The journal line shared by the authority, session-key, lease and identity stores:
 sequence, previous hash, event fields, and the hash of everything before it, joined by tabs.
 */
module HashChain {
  import opened Wrappers
  import opened Text

  type Hash = Text -> Digest

  /** The hash maps no two of these texts to one digest. */
  ghost predicate HashedApart(sha: Hash, texts: set<Text>) {
    forall a, b | a in texts && b in texts && sha(a) == sha(b) :: a == b
  }

  /** What a checked line yields: the event fields and the new head hash. */
  datatype Checked = Checked(body: seq<Text>, hash: Text)

  function Previous(head: Text): Text {
    if head == [] then GENESIS else head
  }

  function Canonical(sequence: nat, head: Text, body: seq<Text>): Text {
    JoinTabs([Dec(sequence + 1), Previous(head)] + body)
  }

  /** The line appended after `sequence` records whose last hash is `head`. */
  function Line(sha: Hash, sequence: nat, head: Text, body: seq<Text>): Text {
    Canonical(sequence, head, body) + "\t" + sha(Canonical(sequence, head, body))
  }

  /** The checks replay makes before it looks at the event itself. */
  function ReadLine(sha: Hash, sequence: nat, head: Text, minFields: nat, line: Text): Option<Checked> {
    var fields := SplitTabs(line);
    if |fields| < minFields || |fields| < 3 then None
    else if ParseUnsigned(fields[0], MAX_U64) != Some(sequence + 1) then None
    else if fields[1] != Previous(head) then None
    else
      var tab := LastTab(line);
      var last := fields[|fields| - 1];
      if tab.None? || !IsSha256(last) || sha(line[..tab.value]) != last then None
      else Some(Checked(fields[2..|fields| - 1], last))
  }

  lemma Sha256IsClean(t: Text)
    requires IsSha256(t)
    ensures Clean(t)
  {
  }

  lemma TabFreeRecord(sha: Hash, sequence: nat, head: Text, body: seq<Text>)
    requires (head == [] || IsSha256(head)) && TabFree(body)
    ensures TabFree([Dec(sequence + 1), Previous(head)] + body + [sha(Canonical(sequence, head, body))])
  {
    ParseDec(sequence + 1, MAX_U64);
    Sha256IsClean(sha(Canonical(sequence, head, body)));
    Sha256IsClean(Previous(head));
    CleanIsTabFree([Dec(sequence + 1), Previous(head), sha(Canonical(sequence, head, body))]);
  }

  /** A line written after a record is accepted as that record's successor, with its body intact. */
  lemma ReadWritten(sha: Hash, sequence: nat, head: Text, body: seq<Text>, minFields: nat)
    requires sequence < MAX_U64 && (head == [] || IsSha256(head))
    requires body != [] && TabFree(body) && minFields <= |body| + 3
    ensures ReadLine(sha, sequence, head, minFields, Line(sha, sequence, head, body))
         == Some(Checked(body, sha(Canonical(sequence, head, body))))
  {
    var front := [Dec(sequence + 1), Previous(head)] + body;
    ParseDec(sequence + 1, MAX_U64);
    LineSplits(sha, sequence, head, body);
    LineEndsInItsHash(sha, sequence, head, body);
    assert (front + [sha(Canonical(sequence, head, body))])[2..|front|] == body;
  }

  lemma LineSplits(sha: Hash, sequence: nat, head: Text, body: seq<Text>)
    requires (head == [] || IsSha256(head)) && TabFree(body)
    ensures SplitTabs(Line(sha, sequence, head, body))
         == [Dec(sequence + 1), Previous(head)] + body + [sha(Canonical(sequence, head, body))]
  {
    var front := [Dec(sequence + 1), Previous(head)] + body;
    JoinSnoc(front, sha(Canonical(sequence, head, body)));
    TabFreeRecord(sha, sequence, head, body);
    SplitJoin(front + [sha(Canonical(sequence, head, body))]);
  }

  lemma LineEndsInItsHash(sha: Hash, sequence: nat, head: Text, body: seq<Text>)
    ensures var canonical, line := Canonical(sequence, head, body), Line(sha, sequence, head, body);
            LastTab(line) == Some(|canonical|) && line[..|canonical|] == canonical
  {
    var canonical := Canonical(sequence, head, body);
    Sha256IsClean(sha(canonical));
    LastTabAt(canonical, sha(canonical));
  }

  /** With clean fields the line has no line break, so the file splits back into its lines. */
  lemma WrittenIsOneLine(sha: Hash, sequence: nat, head: Text, body: seq<Text>)
    requires (head == [] || IsSha256(head)) && AllClean(body)
    ensures OneLine(Line(sha, sequence, head, body))
  {
    var front := [Dec(sequence + 1), Previous(head)] + body;
    var hash := sha(Canonical(sequence, head, body));
    ParseDec(sequence + 1, MAX_U64);
    Sha256IsClean(hash);
    Sha256IsClean(Previous(head));
    assert AllClean(front + [hash]);
    JoinSnoc(front, hash);
    JoinIsOneLine(front + [hash]);
  }

  /** A tab inside the body makes the line carry more fields than were written. */
  lemma TabWidensBody(sha: Hash, sequence: nat, head: Text, body: seq<Text>, minFields: nat)
    requires body != [] && !TabFree(body)
    ensures var read := ReadLine(sha, sequence, head, minFields, Line(sha, sequence, head, body));
            read.Some? ==> |read.value.body| > |body|
  {
    var front := [Dec(sequence + 1), Previous(head)] + body;
    var hash := sha(Canonical(sequence, head, body));
    JoinSnoc(front, hash);
    var i :| 0 <= i < |body| && '\t' in body[i];
    assert (front + [hash])[i + 2] == body[i];
    JoinTabCount(front + [hash]);
    SplitCount(Line(sha, sequence, head, body));
  }
}
