/**
 Byte strings and the field encodings shared by every journal: lower-case hex, unsigned
 decimals, tab-separated fields, and the token and digest shapes the validators test.
 */
module Text {
  import opened Wrappers

  type Byte = c: char | c as int < 256 witness 'a'
  type Text = seq<Byte>
  type u32 = n: nat | n < 0x1_0000_0000
  type u64 = n: nat | n < 0x1_0000_0000_0000_0000

  const MAX_U32 := 0xffff_ffff
  const MAX_U64 := 0xffff_ffff_ffff_ffff

  predicate IsHex(c: Byte) {
    '0' <= c <= '9' || 'a' <= c <= 'f' || 'A' <= c <= 'F'
  }

  predicate IsDecimal(c: Byte) {
    '0' <= c <= '9'
  }

  function Repeat(c: Byte, n: nat): (t: Text)
    ensures |t| == n && forall i | 0 <= i < n :: t[i] == c
  {
    if n == 0 then [] else [c] + Repeat(c, n - 1)
  }

  predicate IsSha256(t: Text) {
    |t| == 64 && forall i | 0 <= i < |t| :: IsHex(t[i])
  }

  /** What a hash function returns: 64 hexadecimal characters. */
  type Digest = t: Text | IsSha256(t) witness Repeat('0', 64)

  const GENESIS: Digest := Repeat('0', 64)

  /** A prefix followed by a SHA-256 digest, the shape of every content identity. */
  predicate PrefixedSha256(t: Text, prefix: Text) {
    prefix <= t && IsSha256(t[|prefix|..])
  }

  predicate IsTokenByte(c: Byte) {
    'a' <= c <= 'z' || 'A' <= c <= 'Z' || '0' <= c <= '9' || c in "-_.:/"
  }

  predicate ValidToken(t: Text, maxBytes: nat) {
    0 < |t| <= maxBytes && forall i | 0 <= i < |t| :: IsTokenByte(t[i])
  }

  /** Printable text: no control byte and no DEL. */
  predicate ValidText(t: Text, maxBytes: nat) {
    0 < |t| <= maxBytes && forall i | 0 <= i < |t| :: t[i] as int >= 0x20 && t[i] as int != 0x7f
  }

  /** A field that survives both line splitting and tab splitting. */
  predicate Clean(t: Text) {
    forall i | 0 <= i < |t| :: t[i] !in "\t\n\r"
  }

  predicate AllClean(fields: seq<Text>) {
    forall i | 0 <= i < |fields| :: Clean(fields[i])
  }

  // ----- hexadecimal -----

  function HexDigit(n: nat): (c: Byte)
    requires n < 16
    ensures IsHex(c) && HexValue(c) == n
  {
    if n < 10 then ('0' as int + n) as char else ('a' as int + n - 10) as char
  }

  function HexValue(c: Byte): (v: int)
    ensures -1 <= v < 16 && (v < 0 <==> !IsHex(c))
  {
    if '0' <= c <= '9' then c as int - '0' as int
    else if 'a' <= c <= 'f' then c as int - 'a' as int + 10
    else if 'A' <= c <= 'F' then c as int - 'A' as int + 10
    else -1
  }

  function HexEncode(t: Text): (h: Text)
    ensures |h| == 2 * |t|
    ensures forall i | 0 <= i < |h| :: IsHex(h[i])
  {
    if t == [] then []
    else [HexDigit(t[0] as int / 16), HexDigit(t[0] as int % 16)] + HexEncode(t[1..])
  }

  function ByteOf(high: nat, low: nat): Byte
    requires high < 16 && low < 16
  {
    (high * 16 + low) as char
  }

  /** Decoded bytes put in front of whatever the rest decodes to. */
  function Prepend(front: Text, rest: Option<Text>): Option<Text> {
    if rest.None? then None else Some(front + rest.value)
  }

  function HexDecode(h: Text): Option<Text> {
    if |h| % 2 != 0 then None
    else if h == [] then Some([])
    else if HexValue(h[0]) < 0 || HexValue(h[1]) < 0 then None
    else Prepend([ByteOf(HexValue(h[0]), HexValue(h[1]))], HexDecode(h[2..]))
  }

  /** Decoding what was encoded gives the original bytes. */
  lemma {:induction false} HexRoundTrip(t: Text)
    ensures HexDecode(HexEncode(t)) == Some(t)
  {
    if t != [] {
      var h := HexEncode(t);
      HexRoundTrip(t[1..]);
      assert h[2..] == HexEncode(t[1..]);
      ByteHalves(t[0]);
      assert HexDecode(h) == Prepend([t[0]], Some(t[1..]));
      assert [t[0]] + t[1..] == t;
    }
  }

  lemma ByteHalves(c: Byte)
    ensures ByteOf(c as int / 16, c as int % 16) == c
  {
  }

  lemma HexIsClean(t: Text)
    ensures Clean(HexEncode(t))
  {
  }

  // ----- unsigned decimals -----

  function Dec(n: nat): (t: Text)
    ensures t != [] && forall i | 0 <= i < |t| :: IsDecimal(t[i])
  {
    var last: Byte := ('0' as int + n % 10) as char;
    if n < 10 then [last] else Dec(n / 10) + [last]
  }

  function DecValue(t: Text): nat
    requires forall i | 0 <= i < |t| :: IsDecimal(t[i])
  {
    if t == [] then 0
    else
      assert IsDecimal(t[|t| - 1]);
      DecValue(t[..|t| - 1]) * 10 + (t[|t| - 1] as int - '0' as int)
  }

  /** The whole field must be digits and the value must fit the destination. */
  function ParseUnsigned(t: Text, max: nat): Option<nat> {
    if t == [] || !(forall i | 0 <= i < |t| :: IsDecimal(t[i])) || DecValue(t) > max then None
    else Some(DecValue(t))
  }

  lemma {:induction false} DecRoundTrip(n: nat)
    ensures DecValue(Dec(n)) == n
  {
    if n >= 10 {
      DecRoundTrip(n / 10);
      assert Dec(n)[..|Dec(n)| - 1] == Dec(n / 10);
    }
  }

  /** Printing then parsing a number in range gives it back; out of range is refused. */
  lemma ParseDec(n: nat, max: nat)
    ensures ParseUnsigned(Dec(n), max) == if n <= max then Some(n) else None
    ensures Clean(Dec(n))
  {
    DecRoundTrip(n);
  }

  // ----- tab-separated fields -----

  function JoinTabs(fields: seq<Text>): Text
    requires fields != []
  {
    if |fields| == 1 then fields[0] else fields[0] + "\t" + JoinTabs(fields[1..])
  }

  function SplitTabs(line: Text): (fields: seq<Text>)
    ensures fields != []
  {
    if line == [] then [[]]
    else
      var rest := SplitTabs(line[1..]);
      if line[0] == '\t' then [[]] + rest else [[line[0]] + rest[0]] + rest[1..]
  }

  lemma {:induction false} SplitPrefix(field: Text, rest: Text)
    requires '\t' !in field
    ensures SplitTabs(field) == [field]
    ensures SplitTabs(field + "\t" + rest) == [field] + SplitTabs(rest)
  {
    var line := field + "\t" + rest;
    if field == [] {
      assert line[1..] == rest;
    } else {
      SplitPrefix(field[1..], rest);
      assert line[1..] == field[1..] + "\t" + rest;
      assert [field[0]] + field[1..] == field;
      assert SplitTabs(field) == [[field[0]] + field[1..]] + [];
    }
  }

  predicate TabFree(fields: seq<Text>) {
    forall i | 0 <= i < |fields| :: '\t' !in fields[i]
  }

  lemma CleanIsTabFree(fields: seq<Text>)
    requires AllClean(fields)
    ensures TabFree(fields)
  {
    forall i | 0 <= i < |fields| ensures '\t' !in fields[i] {
      assert Clean(fields[i]);
    }
  }

  function Tabs(t: Text): nat {
    if t == [] then 0 else (if t[0] == '\t' then 1 else 0) + Tabs(t[1..])
  }

  lemma {:induction false} SplitCount(t: Text)
    ensures |SplitTabs(t)| == 1 + Tabs(t)
  {
    if t != [] {
      SplitCount(t[1..]);
    }
  }

  lemma {:induction false} TabsAppend(a: Text, b: Text)
    ensures Tabs(a + b) == Tabs(a) + Tabs(b)
  {
    if a == [] {
      assert a + b == b;
    } else {
      TabsAppend(a[1..], b);
      assert (a + b)[1..] == a[1..] + b;
    }
  }

  lemma {:induction false} TabsPositive(t: Text)
    ensures Tabs(t) > 0 <==> '\t' in t
  {
    if t != [] {
      TabsPositive(t[1..]);
      assert '\t' in t <==> t[0] == '\t' || '\t' in t[1..];
    }
  }

  /** A tab inside any field makes the line split into more fields than were joined. */
  lemma {:induction false} JoinTabCount(fields: seq<Text>)
    requires fields != []
    ensures Tabs(JoinTabs(fields)) >= |fields| - 1
    ensures !TabFree(fields) ==> Tabs(JoinTabs(fields)) >= |fields|
  {
    TabsPositive(fields[0]);
    if |fields| > 1 {
      JoinTabCount(fields[1..]);
      TabsAppend(fields[0], "\t");
      TabsAppend(fields[0] + "\t", JoinTabs(fields[1..]));
      assert Tabs("\t") == 1 + Tabs([]);
      if TabFree(fields[1..]) && '\t' !in fields[0] {
        assert TabFree(fields);
      }
    }
  }

  /** Splitting a joined line gives back the fields, provided no field holds a tab. */
  lemma {:induction false} SplitJoin(fields: seq<Text>)
    requires fields != [] && TabFree(fields)
    ensures SplitTabs(JoinTabs(fields)) == fields
  {
    if |fields| == 1 {
      SplitPrefix(fields[0], []);
    } else {
      assert TabFree(fields[1..]);
      SplitJoin(fields[1..]);
      SplitPrefix(fields[0], JoinTabs(fields[1..]));
    }
  }

  /** A joined line has no line break, so line-oriented reading returns it whole. */
  predicate OneLine(t: Text) {
    t != [] && forall i | 0 <= i < |t| :: t[i] !in "\n\r"
  }

  /** A line read from disk may end in a carriage return. */
  function Trimmed(line: Text): Text {
    if line != [] && line[|line| - 1] == '\r' then line[..|line| - 1] else line
  }

  lemma {:induction false} JoinIsOneLine(fields: seq<Text>)
    requires |fields| > 1 && AllClean(fields)
    ensures OneLine(JoinTabs(fields))
  {
    if |fields| > 2 {
      assert AllClean(fields[1..]);
      JoinIsOneLine(fields[1..]);
    }
  }

  lemma {:induction false} JoinSnoc(fields: seq<Text>, last: Text)
    requires fields != []
    ensures JoinTabs(fields + [last]) == JoinTabs(fields) + "\t" + last
  {
    if |fields| > 1 {
      JoinSnoc(fields[1..], last);
      assert (fields + [last])[1..] == fields[1..] + [last];
    } else {
      assert (fields + [last])[1..] == [last];
    }
  }

  /** Offset of the last tab, or None. */
  function LastTab(line: Text): (r: Option<nat>)
    ensures r.Some? ==> r.value < |line| && line[r.value] == '\t'
  {
    if line == [] then None
    else if line[|line| - 1] == '\t' then Some(|line| - 1)
    else LastTab(line[..|line| - 1])
  }

  lemma {:induction false} LastTabAt(front: Text, last: Text)
    requires '\t' !in last
    ensures LastTab(front + "\t" + last) == Some(|front|)
  {
    var line := front + "\t" + last;
    if last != [] {
      LastTabAt(front, last[..|last| - 1]);
      assert line[..|line| - 1] == front + "\t" + last[..|last| - 1];
      assert line[|line| - 1] == last[|last| - 1];
    }
  }

  // ----- lines -----

  predicate LineFree(t: Text) {
    '\n' !in t
  }

  /** A line break stands where the first line ends, so no other first line can reach past it. */
  lemma FirstLineReaches(a: Text, x: Text, b: Text, y: Text)
    requires LineFree(b) && a + "\n" + x == b + "\n" + y
    ensures |b| <= |a|
  {
    var s := a + "\n" + x;
    assert s[|a|] == '\n';
    assert forall i | 0 <= i < |b| :: s[i] == b[i];
  }

  /** Text up to the first line break determines itself and the rest. */
  lemma FirstLine(a: Text, x: Text, b: Text, y: Text)
    requires LineFree(a) && LineFree(b) && a + "\n" + x == b + "\n" + y
    ensures a == b && x == y
  {
    FirstLineReaches(a, x, b, y);
    FirstLineReaches(b, y, a, x);
    assert a == (a + "\n" + x)[..|a|] && b == (b + "\n" + y)[..|b|];
    assert x == (a + "\n" + x)[|a| + 1..] && y == (b + "\n" + y)[|b| + 1..];
  }

  // ----- the loops of the source, refined to the functions above -----

  method SplitTabsLoop(line: Text) returns (fields: seq<Text>)
    ensures fields == SplitTabs(line)
  {
    fields := [];
    var start := 0;
    assert line[0..] == line;
    while true
      invariant 0 <= start <= |line|
      invariant fields + SplitTabs(line[start..]) == SplitTabs(line)
      decreases |line| - start
    {
      var pos := NextTab(line, start);
      var field := line[start..pos];
      if pos == |line| {
        LastField(line, start);
        return fields + [field];
      }
      NextField(line, start, pos);
      fields := fields + [field];
      start := pos + 1;
    }
  }

  lemma LastField(line: Text, start: nat)
    requires start <= |line| && '\t' !in line[start..|line|]
    ensures SplitTabs(line[start..]) == [line[start..|line|]]
  {
    SplitPrefix(line[start..|line|], []);
    assert line[start..|line|] == line[start..];
  }

  lemma NextField(line: Text, start: nat, pos: nat)
    requires start <= pos < |line| && line[pos] == '\t' && '\t' !in line[start..pos]
    ensures SplitTabs(line[start..]) == [line[start..pos]] + SplitTabs(line[pos + 1..])
  {
    SplitPrefix(line[start..pos], line[pos + 1..]);
    assert line[start..] == line[start..pos] + "\t" + line[pos + 1..];
  }

  method NextTab(line: Text, start: nat) returns (pos: nat)
    requires start <= |line|
    ensures start <= pos <= |line| && '\t' !in line[start..pos]
    ensures pos < |line| ==> line[pos] == '\t'
  {
    pos := start;
    while pos < |line| && line[pos] != '\t'
      invariant start <= pos <= |line| && '\t' !in line[start..pos]
    {
      pos := pos + 1;
    }
  }

  method HexDecodeLoop(h: Text) returns (r: Option<Text>)
    ensures r == HexDecode(h)
  {
    if |h| % 2 != 0 {
      return None;
    }
    var out: Text := [];
    var i := 0;
    assert h[0..] == h && (HexDecode(h).Some? ==> [] + HexDecode(h).value == HexDecode(h).value);
    while i < |h|
      invariant 0 <= i <= |h| && i % 2 == 0
      invariant HexDecode(h) == Prepend(out, HexDecode(h[i..]))
    {
      var high, low := HexValue(h[i]), HexValue(h[i + 1]);
      assert h[i..][2..] == h[i + 2..];
      if high < 0 || low < 0 {
        return None;
      }
      var c := ByteOf(high, low);
      if HexDecode(h[i + 2..]).Some? {
        assert out + ([c] + HexDecode(h[i + 2..]).value) == (out + [c]) + HexDecode(h[i + 2..]).value;
      }
      out := out + [c];
      i := i + 2;
    }
    assert h[i..] == [];
    assert out + [] == out;
    return Some(out);
  }
}
