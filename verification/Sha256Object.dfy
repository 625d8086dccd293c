/** The streaming hash as the source computes it, in place over a 64-byte block, and that it is SHA-256. */
module Sha256Object {
  import opened Text
  import opened Wrappers
  import opened Sha256
  import HashChain

  function StateOf(ws: seq<Word>): State
    requires |ws| == 8
  {
    State(ws[0], ws[1], ws[2], ws[3], ws[4], ws[5], ws[6], ws[7])
  }

  /** A 64-bit counter: what is left of a number modulo 2^64. */
  function Wrap(n: nat): u64 {
    if n <= MAX_U64 then n else Wrap(n - MAX_U64 - 1)
  }

  class Sha256State {
    const alu: Alu
    /** What `Transform` does to the state with a block. */
    ghost const compress: Compression
    const state: array<Word>
    const block: array<u8>
    var blockSize: nat
    var totalBytes: u64
    /** Everything absorbed so far. */
    ghost var message: seq<u8>
    /** How many blocks of it have been transformed. */
    ghost var blocks: nat

    ghost predicate ComputesOn(s: State, b: Block) {
      compress(s, b) == Compress(alu, s, b)
    }

    ghost predicate Computes() {
      AddsBothWays(alu) && forall s: State, b: Block :: ComputesOn(s, b)
    }

    /** The blocks transformed are in the state, the bytes behind them in the block. */
    ghost predicate Holding()
      reads this, state, block
    {
      && state.Length == 8 && block.Length == 64 && state as object != block as object
      && blockSize <= 64 && |message| == 64 * blocks + blockSize
      && block[..blockSize] == message[64 * blocks..]
      && StateOf(state[..]) == Process(compress, message, blocks)
    }

    /** Whole blocks have all been transformed. */
    ghost predicate Flushed()
      reads this, state, block
    {
      Holding() && blockSize < 64
    }

    ghost predicate Valid()
      reads this, state, block
    {
      Flushed() && totalBytes == Wrap(|message|)
    }

    constructor (alu: Alu)
      ensures this.alu == alu && compress == Compressor(alu) && Valid() && message == [] && fresh(state) && fresh(block)
    {
      var words := new Word[8];
      words[0], words[1], words[2], words[3] := 0x6a09e667, 0xbb67ae85, 0x3c6ef372, 0xa54ff53a;
      words[4], words[5], words[6], words[7] := 0x510e527f, 0x9b05688c, 0x1f83d9ab, 0x5be0cd19;
      this.alu := alu;
      compress := Compressor(alu);
      state := words;
      block := new u8[64];
      blockSize, totalBytes, message, blocks := 0, 0, [], 0;
    }

    /** The first sixteen words of the schedule, read from the block. */
    method LoadSchedule(schedule: array<Word>)
      requires block.Length == 64 && schedule.Length == 64 && schedule as object != block as object
      modifies schedule
      ensures forall t | 0 <= t < 16 :: schedule[t] == Schedule(alu, block[..], t)
    {
      for i := 0 to 16
        invariant forall t | 0 <= t < i :: schedule[t] == Schedule(alu, block[..], t)
      {
        var offset := i * 4;
        schedule[i] := alu.join(block[offset], block[offset + 1], block[offset + 2], block[offset + 3]);
      }
    }

    /** The message schedule of the block held. */
    method ExpandSchedule() returns (schedule: array<Word>)
      requires AddsBothWays(alu) && block.Length == 64
      ensures fresh(schedule) && schedule.Length == 64
      ensures forall t | 0 <= t < 64 :: schedule[t] == Schedule(alu, block[..], t)
    {
      schedule := new Word[64];
      LoadSchedule(schedule);
      FillSchedule(block[..], schedule);
    }

    /** The first `n` words are the schedule's. */
    ghost predicate Scheduled(b: Block, words: seq<Word>, n: nat)
      requires n <= |words| == 64
    {
      forall t | 0 <= t < n :: words[t] == Schedule(alu, b, t)
    }

    /** The other words, each from four before it. */
    method FillSchedule(ghost b: Block, schedule: array<Word>)
      requires AddsBothWays(alu) && schedule.Length == 64 && forall t | 0 <= t < 16 :: schedule[t] == Schedule(alu, b, t)
      modifies schedule
      ensures forall t | 0 <= t < 64 :: schedule[t] == Schedule(alu, b, t)
    {
      assert Scheduled(b, schedule[..], 16);
      for i := 16 to 64
        invariant Scheduled(b, schedule[..], i)
      {
        var w := NextWord(b, schedule[..], i);
        ghost var before := schedule[..];
        schedule[i] := w;
        assert schedule[..] == before[i := w];
      }
      assert forall t | 0 <= t < 64 :: schedule[..][t] == Schedule(alu, b, t);
    }

    method NextWord(ghost b: Block, schedule: seq<Word>, i: nat) returns (w: Word)
      requires AddsBothWays(alu) && 16 <= i < 64 && |schedule| == 64
      requires Scheduled(b, schedule, i)
      ensures w == Schedule(alu, b, i)
    {
      var s0 := alu.small0(schedule[i - 15]);
      var s1 := alu.small1(schedule[i - 2]);
      Recurrence(alu, b, i, s0, s1);
      return alu.add(alu.add(alu.add(schedule[i - 16], s0), schedule[i - 7]), s1);
    }

    /** One round over the eight working variables. */
    method RoundInPlace(s: State, i: nat, w: Word) returns (s': State)
      ensures s' == Round(alu, s, alu.constant(i), w)
    {
      var a, b, c, d, e, f, g, h := s.a, s.b, s.c, s.d, s.e, s.f, s.g, s.h;
      var temp1 := alu.add(alu.add(alu.add(alu.add(h, alu.big1(e)), alu.ch(e, f, g)), alu.constant(i)), w);
      var temp2 := alu.add(alu.big0(a), alu.maj(a, b, c));
      h := g;
      g := f;
      f := e;
      e := alu.add(d, temp1);
      d := c;
      c := b;
      b := a;
      a := alu.add(temp1, temp2);
      return State(a, b, c, d, e, f, g, h);
    }

    method RunRounds(start: State, schedule: seq<Word>) returns (v: State)
      ensures v == Rounds(alu, start, schedule)
    {
      v := start;
      for i := 0 to |schedule|
        invariant v == Rounds(alu, start, schedule[..i])
      {
        assert schedule[..i + 1][..i] == schedule[..i];
        v := RoundInPlace(v, i, schedule[i]);
      }
      assert schedule[..|schedule|] == schedule;
    }

    method Transform()
      requires Computes() && state.Length == 8 && block.Length == 64
      modifies state
      ensures StateOf(state[..]) == compress(old(StateOf(state[..])), block[..])
    {
      assert ComputesOn(StateOf(state[..]), block[..]);
      var schedule := ExpandSchedule();
      assert schedule[..] == ScheduleOf(alu, block[..]);
      var v := RunRounds(StateOf(state[..]), schedule[..]);
      AddInPlace(v);
    }

    method AddInPlace(v: State)
      requires state.Length == 8
      modifies state
      ensures StateOf(state[..]) == Plus(alu, old(StateOf(state[..])), v)
    {
      state[0] := alu.add(state[0], v.a);
      state[1] := alu.add(state[1], v.b);
      state[2] := alu.add(state[2], v.c);
      state[3] := alu.add(state[3], v.d);
      state[4] := alu.add(state[4], v.e);
      state[5] := alu.add(state[5], v.f);
      state[6] := alu.add(state[6], v.g);
      state[7] := alu.add(state[7], v.h);
    }

    /** Copies bytes behind those already held. */
    method Fill(chunk: seq<u8>)
      requires block.Length == 64 && blockSize + |chunk| <= 64
      modifies block
      ensures block[..blockSize + |chunk|] == old(block[..blockSize]) + chunk
    {
      for i := 0 to |chunk|
        invariant block[..blockSize + i] == old(block[..blockSize]) + chunk[..i]
      {
        block[blockSize + i] := chunk[i];
        assert chunk[..i + 1] == chunk[..i] + [chunk[i]];
      }
      assert chunk[..|chunk|] == chunk;
    }

    /** Transforms the full block held and empties it. */
    method FlushBlock()
      requires Computes() && Holding() && blockSize == 64
      modifies this`blockSize, this`blocks, state
      ensures Flushed() && blockSize == 0
    {
      ghost var n := blocks + 1;
      assert block[..64] == block[..];
      HeldBlock(compress, message, blocks, block[..]);
      Transform();
      blockSize, blocks := 0, n;
      assert block[..0] == message[64 * n..];
    }

    /** Copies bytes that fit the block. */
    method Take(chunk: seq<u8>)
      requires Flushed() && |chunk| <= 64 - blockSize
      modifies this`blockSize, this`message, block
      ensures Holding() && message == old(message) + chunk && blockSize == old(blockSize) + |chunk|
    {
      ProcessPrefix(compress, message, chunk, blocks);
      Fill(chunk);
      message := message + chunk;
      blockSize := blockSize + |chunk|;
    }

    /** Takes as many bytes as fit the block, and transforms a full block. */
    method Absorb(chunk: seq<u8>)
      requires Computes() && Flushed() && |chunk| <= 64 - blockSize
      modifies this`blockSize, this`message, this`blocks, state, block
      ensures Flushed() && message == old(message) + chunk
    {
      Take(chunk);
      if blockSize == 64 {
        FlushBlock();
      }
    }

    /** Absorbs the data, a block at a time. */
    method AbsorbAll(data: seq<u8>)
      requires Computes() && Flushed()
      modifies this`blockSize, this`message, this`blocks, state, block
      ensures Flushed() && message == old(message) + data
    {
      var rest := data;
      while rest != []
        invariant Flushed() && message + rest == old(message) + data
        decreases |rest|
      {
        var room := 64 - blockSize;
        var take := if |rest| < room then |rest| else room;
        Regroup(message, rest, take);
        Absorb(rest[..take]);
        rest := rest[take..];
      }
    }

    method Update(data: seq<u8>)
      requires Computes() && Valid()
      modifies this`blockSize, this`totalBytes, this`message, this`blocks, state, block
      ensures Valid() && message == old(message) + data
    {
      ghost var whole := message + data;
      Counted(totalBytes, message, data);
      var total := Wrap(totalBytes + |data|);
      assert total == Wrap(|whole|);
      totalBytes := total;
      AbsorbAll(data);
      assert message == whole;
      assert totalBytes == total;
    }

    /** Absorbs the 1 bit and the zeros; the length then completes a block. */
    method Pad()
      requires Computes() && Valid()
      modifies this`blockSize, this`totalBytes, this`message, this`blocks, state, block
      ensures Valid() && message == old(message) + [0x80] + Zeros(PadZeros(|old(message)|))
    {
      HeldModulo(|message|, blocks, blockSize);
      var padSize := if blockSize < 56 then 56 - blockSize else 120 - blockSize;
      assert padSize - 1 == PadZeros(|message|);
      Grouped(message, padSize - 1);
      Update([0x80] + Zeros(padSize - 1));
    }

    /** Pads, appends the length, and prints the state. The last block is always complete. */
    method Finish() returns (digest: Text)
      requires Computes() && Valid() && |message| < 0x2000_0000_0000_0000
      modifies this`blockSize, this`totalBytes, this`message, this`blocks, state, block
      ensures digest == HexWords(alu, Words(Process(compress, Padded(old(message)), |Padded(old(message))| / 64)))
      ensures blockSize == 0 && message == Padded(old(message))
    {
      ghost var original := message;
      var bitLength := Wrap(totalBytes * 8);
      BitLength(|message|, totalBytes);
      Pad();
      var lengthBytes := LengthInPlace(bitLength);
      Update(lengthBytes);
      assert message == Padded(original);
      digest := PrintFinal();
    }

    /** A message of whole blocks leaves nothing in the block, and the state is its hash. */
    method PrintFinal() returns (digest: Text)
      requires Valid() && |message| % 64 == 0
      ensures blockSize == 0 && digest == HexWords(alu, Words(Process(compress, message, |message| / 64)))
    {
      HeldModulo(|message|, blocks, blockSize);
      WordsOfState(state[..]);
      digest := Print(state[..]);
    }

    /** The length bytes, filled from the last to the first. */
    method LengthInPlace(bits: nat) returns (bytes: seq<u8>)
      ensures bytes == BytesOf(bits, 8)
    {
      bytes := [];
      for i := 0 to 8
        invariant bytes == BytesOf(bits, i)
      {
        bytes := [NumberByte(bits, i)] + bytes;
      }
    }

    method Print(words: seq<Word>) returns (text: Text)
      ensures text == HexWords(alu, words)
    {
      text := [];
      for i := 0 to |words|
        invariant text == HexWords(alu, words[..i])
      {
        assert words[..i + 1][..i] == words[..i];
        text := text + alu.hex(words[i]);
      }
      assert words[..|words|] == words;
    }
  }

  lemma Recurrence(m: Alu, b: Block, t: nat, s0: Word, s1: Word)
    requires 16 <= t < 64 && AddsBothWays(m)
    requires s0 == m.small0(Schedule(m, b, t - 15)) && s1 == m.small1(Schedule(m, b, t - 2))
    ensures Schedule(m, b, t) == m.add(m.add(m.add(Schedule(m, b, t - 16), s0), Schedule(m, b, t - 7)), s1)
  {
    assert Sum(m, s1, Schedule(m, b, t - 7), s0, Schedule(m, b, t - 16)) == Sum(m, Schedule(m, b, t - 16), s0, Schedule(m, b, t - 7), s1);
  }

  lemma Regroup(message: seq<u8>, rest: seq<u8>, take: nat)
    requires take <= |rest|
    ensures (message + rest[..take]) + rest[take..] == message + rest
  {
  }

  lemma WordsOfState(ws: seq<Word>)
    requires |ws| == 8
    ensures Words(StateOf(ws)) == ws
  {
  }

  lemma Grouped(message: seq<u8>, k: nat)
    ensures message + ([0x80] + Zeros(k)) == message + [0x80] + Zeros(k)
  {
  }

  lemma HeldModulo(n: nat, blocks: nat, held: nat)
    requires held < 64 && n == 64 * blocks + held
    ensures n % 64 == held && n / 64 == blocks
  {
  }

  lemma {:induction false} TotalWraps(n: nat, k: nat)
    ensures Wrap(Wrap(n) + k) == Wrap(n + k)
  {
    if n > MAX_U64 {
      TotalWraps(n - MAX_U64 - 1, k);
    }
  }

  lemma Counted(total: u64, message: seq<u8>, data: seq<u8>)
    requires total == Wrap(|message|)
    ensures Wrap(total + |data|) == Wrap(|message + data|)
  {
    TotalWraps(|message|, |data|);
  }

  lemma HeldBlock(compress: Compression, message: seq<u8>, blocks: nat, held: seq<u8>)
    requires |message| == 64 * blocks + 64 && held == message[64 * blocks..]
    ensures |held| == 64 && message[64 * (blocks + 1)..] == []
    ensures Process(compress, message, blocks + 1) == compress(Process(compress, message, blocks), held)
  {
    assert BlockAt(message, blocks) == held;
  }

  lemma BitLength(n: nat, total: nat)
    requires n < 0x2000_0000_0000_0000 && total == Wrap(n)
    ensures Wrap(total * 8) == 8 * n
  {
  }

  function Concat(chunks: seq<seq<u8>>): seq<u8> {
    if chunks == [] then [] else Concat(chunks[..|chunks| - 1]) + chunks[|chunks| - 1]
  }

  lemma ConcatStep(chunks: seq<seq<u8>>, i: nat)
    requires i < |chunks|
    ensures Concat(chunks[..i + 1]) == Concat(chunks[..i]) + chunks[i]
  {
    assert chunks[..i + 1][..i] == chunks[..i];
  }

  lemma WholeConcat(chunks: seq<seq<u8>>)
    ensures Concat(chunks[..|chunks|]) == Concat(chunks)
  {
    assert chunks[..|chunks|] == chunks;
  }

  /** Hashing piece by piece, however the message is cut, gives the digest of the whole. */
  method HashPieces(m: Alu, chunks: seq<seq<u8>>) returns (digest: Text)
    requires AddsBothWays(m) && |Concat(chunks)| < 0x2000_0000_0000_0000
    ensures digest == Digest256(m, Concat(chunks))
  {
    var state := new Sha256State(m);
    for i := 0 to |chunks|
      invariant fresh(state) && fresh(state.state) && fresh(state.block) && state.alu == m && state.Valid()
      invariant state.message == Concat(chunks[..i])
    {
      ConcatStep(chunks, i);
      state.Update(chunks[i]);
    }
    WholeConcat(chunks);
    assert state.compress == Compressor(m);
    digest := state.Finish();
  }

  /** Hashing in one call. */
  method HashWhole(m: Alu, data: seq<u8>) returns (digest: Text)
    requires AddsBothWays(m) && |data| < 0x2000_0000_0000_0000
    ensures digest == Digest256(m, data)
  {
    assert Concat([data]) == data;
    digest := HashPieces(m, [data]);
  }

  /** The file loop: the chunks the reads returned, empty ones skipped; a failed open or read gives no digest. */
  method HashFile(m: Alu, opens: bool, chunks: seq<seq<u8>>, readsToEnd: bool) returns (digest: Option<Text>)
    requires AddsBothWays(m) && |Concat(chunks)| < 0x2000_0000_0000_0000
    ensures digest == if opens && readsToEnd then Some(Digest256(m, Concat(chunks))) else None
  {
    if !opens || !readsToEnd {
      return None;
    }
    var whole := HashPieces(m, chunks);
    return Some(whole);
  }

  /** The bytes of a text. */
  function Bytes(t: Text): seq<u8> {
    seq(|t|, i requires 0 <= i < |t| => t[i] as int)
  }

  /** The hash every journal and content identity uses. */
  const SHA_256: HashChain.Hash := (t: Text) => Digest256(FIPS, Bytes(t))

  /** Hashing a text in place computes that very function, so what is proved of any hash holds of this one. */
  method HashText(t: Text) returns (digest: Text)
    requires |t| < 0x2000_0000_0000_0000
    ensures digest == SHA_256(t)
  {
    FipsAddsBothWays();
    digest := HashWhole(FIPS, Bytes(t));
  }
}
