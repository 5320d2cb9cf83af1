/**
 * Repeated calls of creadline_r over a whole stream: chunking independence, exactly when the 64 MiB
 * limit bites, and how much work one call does.
 */
module Chunking {
  import opened Bytes
  import opened System
  import opened CReadLine
  import Lines

  /** Every line creadline_r returns until it first returns none, and why it stopped. */
  function ReadAll(carry: seq<byte>, c: Conn): (r: (seq<seq<byte>>, Outcome))
    requires |carry| < BLOCK
    ensures !r.1.Line?
    decreases |carry| + |Arriving(c.input)|
  {
    ReadLineConserves(carry, c);
    var r := ReadLine(carry, c);
    if r.out.Line? then
      var rest := ReadAll(r.carry, r.conn);
      ([r.out.text] + rest.0, rest.1)
    else
      ([], r.out)
  }

  /** No line is so long that the buffer could fill up before its newline is seen. */
  ghost predicate LinesFit(s: seq<byte>) {
    forall l :: l in Lines.Split(s) ==> |l| <= MAX_LINE - BLOCK
  }

  /** Reading a line does not change how the stream will end. */
  lemma {:induction false} ScanKeepsEnding(buf: seq<byte>, size: nat, c: Conn)
    ensures Breaks(Scan(buf, size, c).conn.input) == Breaks(c.input)
    decreases |c.input|
  {
    var size' := Grown(size, |buf|);
    if size' <= MAX_LINE && c.input != [] {
      match c.input[0]
      case ReadFailure =>
      case Interrupted => ScanKeepsEnding(buf, size', AfterRead(c));
      case Chunk(d) => ScanKeepsEnding(buf + d, size', AfterRead(c));
    }
  }

  lemma ReadLineKeepsEnding(carry: seq<byte>, c: Conn)
    ensures Breaks(ReadLine(carry, c).conn.input) == Breaks(c.input)
  {
    ScanKeepsEnding(StrNCpy(carry), BLOCK, c);
  }

  /**
   * Over a NUL-free stream whose lines fit, the calls return exactly the stream split at its newlines,
   * each line less one carriage return, and then end of file if the stream stops after a newline, and
   * failure if it stops within a line or breaks.
   */
  lemma {:induction false} CallsReturnTheLines(carry: seq<byte>, c: Conn)
    requires |carry| < BLOCK
    requires NulFree(carry + Arriving(c.input)) && LinesFit(carry + Arriving(c.input))
    ensures var total := carry + Arriving(c.input);
            ReadAll(carry, c) == (
              Lines.StripAll(Lines.Split(total)),
              if Lines.Tail(total) == [] && !Breaks(c.input) then EndOfStream else Failed)
    decreases |carry| + |Arriving(c.input)|
  {
    var total := carry + Arriving(c.input);
    assert IndexOf(total, NL) < |total| ==> total[..IndexOf(total, NL)] in Lines.Split(total);
    var r := ReadLine(carry, c);
    ReadLineConserves(carry, c);
    ReadLineMeaning(carry, c);
    ReadLineKeepsEnding(carry, c);
    if r.out.Line? {
      CallsReturnTheLines(r.carry, r.conn);
      var l, ls := total[..IndexOf(total, NL)], Lines.Split(total[IndexOf(total, NL) + 1..]);
      assert ([l] + ls)[1..] == ls;
    }
  }

  /** However a stream is cut into blocks and interrupted, the calls return the same. */
  lemma ChunkingIndependence(c: Conn, d: Conn)
    requires Arriving(c.input) == Arriving(d.input) && Breaks(c.input) == Breaks(d.input)
    requires NulFree(Arriving(c.input)) && LinesFit(Arriving(c.input))
    ensures ReadAll([], c) == ReadAll([], d)
  {
    assert [] + Arriving(c.input) == Arriving(c.input);
    CallsReturnTheLines([], c);
    CallsReturnTheLines([], d);
  }

  /** Without a bound on the lines, what is returned is still right as far as it goes. */
  lemma {:induction false} CallsReturnAPrefix(carry: seq<byte>, c: Conn)
    requires |carry| < BLOCK && NulFree(carry + Arriving(c.input))
    ensures var total := carry + Arriving(c.input);
            var r := ReadAll(carry, c);
            && r.0 <= Lines.StripAll(Lines.Split(total))
            && (r.1 == EndOfStream ==> r.0 == Lines.StripAll(Lines.Split(total)) && Lines.Tail(total) == [])
    decreases |carry| + |Arriving(c.input)|
  {
    var total := carry + Arriving(c.input);
    var r := ReadLine(carry, c);
    ReadLineConserves(carry, c);
    ReadLineMeaning(carry, c);
    if r.out.Line? {
      CallsReturnAPrefix(r.carry, r.conn);
      var l, ls := total[..IndexOf(total, NL)], Lines.Split(total[IndexOf(total, NL) + 1..]);
      assert ([l] + ls)[1..] == ls;
    }
  }

  // ---- Exactly when the size limit is hit

  /** With n bytes buffered: the bytes in the buffer at the read that brings the newline (or the end). */
  function Buffered(n: nat, input: seq<ReadEvent>): nat
    decreases |input|
  {
    if input == [] then n else
      match input[0]
      case ReadFailure => n
      case Interrupted => Buffered(n, input[1..])
      case Chunk(d) => if NL in d then n else Buffered(n + |d|, input[1..])
  }

  lemma {:induction false} BufferedGrows(n: nat, input: seq<ReadEvent>)
    ensures Buffered(n, input) >= n
    ensures NulFree(Arriving(input)) && NL in Arriving(input) ==> Buffered(n, input) <= n + IndexOf(Arriving(input), NL)
    decreases |input|
  {
    if input != [] {
      match input[0]
      case ReadFailure =>
      case Interrupted => BufferedGrows(n, input[1..]);
      case Chunk(d) =>
        BufferedGrows(n + |d|, input[1..]);
        if NulFree(Arriving(input)) {
          SearchBlock(d, Arriving(input[1..]));
        }
    }
  }

  lemma {:induction false} ScanSucceedsIff(buf: seq<byte>, size: nat, c: Conn)
    requires Doubled(size) && |buf| <= size <= MAX_LINE
    requires NulFree(Arriving(c.input))
    ensures Scan(buf, size, c).Found?
       <==> NL in Arriving(c.input) && Buffered(|buf|, c.input) <= MAX_LINE - BLOCK
    decreases |c.input|
  {
    var size' := Grown(size, |buf|);
    GrowthMakesRoom(size, |buf|);
    BufferedGrows(|buf|, c.input);
    if size' <= MAX_LINE && c.input != [] {
      var c' := AfterRead(c);
      match c.input[0]
      case ReadFailure =>
      case Interrupted => ScanSucceedsIff(buf, size', c');
      case Chunk(d) =>
        BlockHasNewline(d, Arriving(c'.input));
        if StrNPos(d, NL) < 0 {
          ScanSucceedsIff(buf + d, size', c');
        }
    }
  }

  lemma BlockHasNewline(d: seq<byte>, rest: seq<byte>)
    requires NulFree(d + rest)
    ensures NulFree(rest)
    ensures StrNPos(d, NL) >= 0 <==> NL in d
    ensures NL in d + rest <==> NL in d || NL in rest
  {
    SearchBlock(d, rest);
    StrNPosMeaning(d, NL);
  }

  /**
   * A call returns a line if and only if the carry holds a newline, or one arrives and at most
   * 2^26 - 1024 bytes are buffered when the read that brings it is made.
   */
  lemma LineReturnedIff(carry: seq<byte>, c: Conn)
    requires |carry| < BLOCK && NulFree(carry) && NulFree(Arriving(c.input))
    ensures ReadLine(carry, c).out.Line?
       <==> NL in carry || (NL in Arriving(c.input) && Buffered(|carry|, c.input) <= MAX_LINE - BLOCK)
  {
    StrNCpyIsCopy(carry);
    StrNPosIsSearch(carry, NL);
    MaxIsDoubled();
    ScanSucceedsIff(carry, BLOCK, c);
  }

  // ---- When the blocks decide

  /** Bytes sent in full blocks, and a last one that may be shorter, before whatever comes next. */
  function Blockwise(s: seq<byte>, rest: seq<ReadEvent>): seq<ReadEvent>
    decreases |s|
  {
    if s == [] then rest
    else if |s| <= BLOCK then [Chunk(s)] + rest
    else [Chunk(s[..BLOCK])] + Blockwise(s[BLOCK..], rest)
  }

  lemma {:induction false} BlockwiseArrives(s: seq<byte>, rest: seq<ReadEvent>)
    ensures Arriving(Blockwise(s, rest)) == s + Arriving(rest)
    ensures Breaks(Blockwise(s, rest)) == Breaks(rest)
    decreases |s|
  {
    if |s| > BLOCK {
      BlockwiseArrives(s[BLOCK..], rest);
      assert s == s[..BLOCK] + s[BLOCK..];
      Lines.Assoc(s[..BLOCK], s[BLOCK..], Arriving(rest));
    }
  }

  lemma {:induction false} BlockwiseBuffers(n: nat, s: seq<byte>, rest: seq<ReadEvent>)
    requires NL !in s
    ensures Buffered(n, Blockwise(s, rest)) == Buffered(n + |s|, rest)
    decreases |s|
  {
    if |s| > BLOCK {
      BlockwiseBuffers(n + BLOCK, s[BLOCK..], rest);
    }
  }

  /** The newline is less than a block away from the bytes buffered when it is read. */
  lemma {:induction false} BufferedIsNear(n: nat, input: seq<ReadEvent>)
    requires NulFree(Arriving(input)) && NL in Arriving(input)
    ensures n + IndexOf(Arriving(input), NL) < Buffered(n, input) + BLOCK
    decreases |input|
  {
    match input[0]
    case ReadFailure =>
    case Interrupted => BufferedIsNear(n, input[1..]);
    case Chunk(d) =>
      SearchBlock(d, Arriving(input[1..]));
      BlockHasNewline(d, Arriving(input[1..]));
      if NL !in d {
        BufferedIsNear(n + |d|, input[1..]);
      }
  }

  /** A connection on which nothing has happened yet. */
  function Fresh(input: seq<ReadEvent>): Conn {
    Conn(input, [], [], [], [])
  }

  /** The delivery brings the line and its newline, and the stream ends there. */
  predicate Delivers(input: seq<ReadEvent>, line: seq<byte>) {
    Arriving(input) == line + [NL] && !Breaks(input)
  }

  /** The newline in a block of its own; the newline with as much of the line before it as fits. */
  function NewlineAlone(line: seq<byte>): seq<ReadEvent> {
    Blockwise(line, [Chunk([NL])])
  }

  function NewlineWithTheRest(line: seq<byte>): seq<ReadEvent>
    requires MAX_LINE - BLOCK <= |line| < MAX_LINE
  {
    Blockwise(line[..MAX_LINE - BLOCK], [Chunk(line[MAX_LINE - BLOCK..] + [NL])])
  }

  lemma OneChunk(d: Block)
    ensures Arriving([Chunk(d)]) == d && !Breaks([Chunk(d)])
    ensures forall n: nat :: NL in d ==> Buffered(n, [Chunk(d)]) == n
  {
    assert d + [] == d;
  }

  lemma NewlineAloneDelivers(line: seq<byte>)
    requires NulFree(line) && NL !in line
    ensures Delivers(NewlineAlone(line), line) && Buffered(0, NewlineAlone(line)) == |line|
  {
    OneChunk([NL]);
    BlockwiseArrives(line, [Chunk([NL])]);
    BlockwiseBuffers(0, line, [Chunk([NL])]);
  }

  lemma NewlineWithTheRestDelivers(line: seq<byte>)
    requires NulFree(line) && NL !in line && MAX_LINE - BLOCK <= |line| < MAX_LINE
    ensures Delivers(NewlineWithTheRest(line), line)
    ensures Buffered(0, NewlineWithTheRest(line)) == MAX_LINE - BLOCK
  {
    var cut := MAX_LINE - BLOCK;
    var last := line[cut..] + [NL];
    assert last[|line| - cut] == NL;
    OneChunk(last);
    BlockwiseArrives(line[..cut], [Chunk(last)]);
    BlockwiseBuffers(0, line[..cut], [Chunk(last)]);
    assert line[..cut] + (line[cut..] + [NL]) == line + [NL];
  }

  lemma DeliveredIff(input: seq<ReadEvent>, line: seq<byte>)
    requires NulFree(line) && NL !in line && Delivers(input, line)
    ensures ReadLine([], Fresh(input)).out.Line? <==> Buffered(0, input) <= MAX_LINE - BLOCK
    ensures |line| < Buffered(0, input) + BLOCK && Buffered(0, input) <= |line|
  {
    assert (line + [NL])[|line|] == NL;
    Lines.FirstLine(line, []);
    assert line + [NL] + [] == line + [NL];
    LineReturnedIff([], Fresh(input));
    BufferedIsNear(0, input);
    BufferedGrows(0, input);
  }

  /** Every delivery of a line is accepted if and only if it has at most 2^26 - 1024 bytes. */
  lemma AlwaysAcceptedIff(line: seq<byte>)
    requires NulFree(line) && NL !in line
    ensures (forall input :: Delivers(input, line) ==> ReadLine([], Fresh(input)).out.Line?)
       <==> |line| <= MAX_LINE - BLOCK
  {
    NewlineAloneDelivers(line);
    DeliveredIff(NewlineAlone(line), line);
    forall input | Delivers(input, line) && |line| <= MAX_LINE - BLOCK ensures ReadLine([], Fresh(input)).out.Line? {
      DeliveredIff(input, line);
    }
  }

  /** Some delivery of a line is accepted if and only if it has at most 2^26 - 1 bytes. */
  lemma EverAcceptedIff(line: seq<byte>)
    requires NulFree(line) && NL !in line
    ensures (exists input :: Delivers(input, line) && ReadLine([], Fresh(input)).out.Line?) <==> |line| < MAX_LINE
  {
    forall input | Delivers(input, line) && |line| >= MAX_LINE ensures !ReadLine([], Fresh(input)).out.Line? {
      DeliveredIff(input, line);
    }
    if |line| <= MAX_LINE - BLOCK {
      NewlineAloneDelivers(line);
      DeliveredIff(NewlineAlone(line), line);
    } else if |line| < MAX_LINE {
      NewlineWithTheRestDelivers(line);
      DeliveredIff(NewlineWithTheRest(line), line);
    }
  }

  /**
   * Where the blocks fall decides whether a line is accepted, so that one delivery gives the line and another
   * an error, if and only if it has 2^26 - 1023 to 2^26 - 1 bytes.
   */
  lemma BlocksDecideIff(line: seq<byte>)
    requires NulFree(line) && NL !in line
    ensures (exists c, d :: Delivers(c, line) && Delivers(d, line)
                         && ReadLine([], Fresh(c)).out.Line? && !ReadLine([], Fresh(d)).out.Line?)
       <==> MAX_LINE - BLOCK < |line| < MAX_LINE
  {
    AlwaysAcceptedIff(line);
    EverAcceptedIff(line);
  }

  /** There are such lines: 2^26 - 1023 times the letter x, delivered in two ways. */
  lemma SameLineTwoOutcomes()
    ensures var line: seq<byte> := seq(MAX_LINE - BLOCK + 1, _ => 120);
            && Delivers(NewlineWithTheRest(line), line) && Delivers(NewlineAlone(line), line)
            && ReadLine([], Fresh(NewlineWithTheRest(line))).out.Line?
            && !ReadLine([], Fresh(NewlineAlone(line))).out.Line?
  {
    var line: seq<byte> := seq(MAX_LINE - BLOCK + 1, _ => 120);
    NewlineAloneDelivers(line);
    NewlineWithTheRestDelivers(line);
    DeliveredIff(NewlineAlone(line), line);
    DeliveredIff(NewlineWithTheRest(line), line);
  }

  // ---- Work done by one call

  function Blocks(input: seq<ReadEvent>): nat {
    if input == [] then 0 else (if input[0].Chunk? then 1 else 0) + Blocks(input[1..])
  }

  /** The loop ends, on any input and however long the stream, after at most 2^26 - 1023 blocks. */
  lemma {:induction false} ScanBlocksBound(buf: seq<byte>, size: nat, c: Conn)
    requires Doubled(size) && |buf| <= size <= MAX_LINE
    ensures var used := Blocks(c.input) - Blocks(Scan(buf, size, c).conn.input);
            0 <= used && (used == 0 || |buf| + used <= MAX_LINE - BLOCK + 1)
    decreases |c.input|
  {
    var size' := Grown(size, |buf|);
    GrowthMakesRoom(size, |buf|);
    if size' <= MAX_LINE && c.input != [] {
      match c.input[0]
      case ReadFailure =>
      case Interrupted => ScanBlocksBound(buf, size', AfterRead(c));
      case Chunk(d) => ScanBlocksBound(buf + d, size', AfterRead(c));
    }
  }

  /** Bytes copied by realloc over the loop: the old size, each time the buffer is doubled. */
  function Recopied(buf: seq<byte>, size: nat, c: Conn): nat
    decreases |c.input|
  {
    var size' := Grown(size, |buf|);
    if size' > MAX_LINE then 0 else
      (if size' > size then size else 0) +
      if c.input == [] then 0 else
        match c.input[0]
        case ReadFailure => 0
        case Interrupted => Recopied(buf, size', AfterRead(c))
        case Chunk(d) => if StrNPos(d, NL) >= 0 then 0 else Recopied(buf + d, size', AfterRead(c))
  }

  /** Doubling keeps the copying linear in the bytes buffered. */
  lemma {:induction false} RecopiedBound(buf: seq<byte>, size: nat, c: Conn)
    requires Doubled(size) && |buf| <= size <= MAX_LINE
    ensures ReadsOnly(c, Scan(buf, size, c).conn)
    ensures var buffered := |buf| + |Got(c, Scan(buf, size, c).conn)|;
            Recopied(buf, size, c) == 0 || size + Recopied(buf, size, c) < 2 * buffered + 2 * BLOCK
    decreases |c.input|
  {
    ScanConserves(buf, size, c);
    var size' := Grown(size, |buf|);
    GrowthMakesRoom(size, |buf|);
    if size' <= MAX_LINE && c.input != [] {
      match c.input[0]
      case ReadFailure =>
      case Interrupted => RecopiedBound(buf, size', AfterRead(c));
      case Chunk(d) => RecopiedBound(buf + d, size', AfterRead(c));
    }
  }
}
