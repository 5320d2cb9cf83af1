/**
 * creadline_r as a function of the carried-over bytes and of what read() will do, and what repeated
 * calls amount to: the stream split at its newlines, however the stream was cut into blocks.
 */
module CReadLine {
  import opened Bytes
  import opened System
  import Lines

  /** __MAX_LINEBUF_SIZE__ */
  const MAX_LINE := 64 * 1024 * 1024

  datatype Outcome = Line(text: seq<byte>) | EndOfStream | Failed

  /** How the read loop ended: newline at `at` in the buffered bytes, or no line. */
  datatype Scanned = Found(buf: seq<byte>, at: nat, conn: Conn) | Stopped(out: Outcome, conn: Conn)

  datatype Call = Call(out: Outcome, carry: seq<byte>, conn: Conn)

  /** The line buffer's size after the space check that precedes a read with n bytes buffered. */
  function Grown(size: nat, n: nat): nat {
    if n + BLOCK > size then 2 * size else size
  }

  /** The sizes reached by doubling from one block. */
  predicate Doubled(size: nat)
    decreases size
  {
    size == BLOCK || (size > BLOCK && size % 2 == 0 && Doubled(size / 2))
  }

  /** The loop, with `buf` buffered, none of it a newline, in a line buffer of `size` bytes. */
  function Scan(buf: seq<byte>, size: nat, c: Conn): (s: Scanned)
    ensures s.Found? ==> s.at < |s.buf|
    ensures s.Stopped? ==> !s.out.Line?
    decreases |c.input|
  {
    var size' := Grown(size, |buf|);
    if size' > MAX_LINE then Stopped(Failed, c)
    else if c.input == [] then Stopped(if buf == [] then EndOfStream else Failed, c)
    else
      match c.input[0]
      case ReadFailure => Stopped(Failed, c)
      case Interrupted => Scan(buf, size', AfterRead(c))
      case Chunk(d) =>
        var p := StrNPos(d, NL);
        if p >= 0 then Found(buf + d, |buf| + p, AfterRead(c)) else Scan(buf + d, size', AfterRead(c))
  }

  /** The first newline, in the restored carry if it holds one, else in what read() brings. */
  function Locate(buf: seq<byte>, c: Conn): (s: Scanned)
    ensures s.Found? ==> s.at < |s.buf|
    ensures s.Stopped? ==> !s.out.Line?
  {
    var p := StrNPos(buf, NL);
    if p >= 0 then Found(buf, p, c) else Scan(buf, BLOCK, c)
  }

  /** One call of creadline_r with `carry` left over from the call before. */
  function ReadLine(carry: seq<byte>, c: Conn): Call {
    match Locate(StrNCpy(carry), c)
    case Found(b, at, c') => Call(Line(Lines.Strip(b[..at])), StrNCpy(b[at + 1..]), c')
    case Stopped(out, c') => Call(out, [], c')
  }

  // ---- Buffer growth

  lemma {:induction false} DoubledHalves(size: nat, top: nat)
    requires Doubled(size) && Doubled(top) && size < top
    ensures Doubled(2 * size) && 2 * size <= top
    decreases size
  {
    assert 2 * size / 2 == size;
    if size > BLOCK {
      assert Doubled(top / 2);
      DoubledHalves(size / 2, top / 2);
    } else {
      DoubledAtLeast(top / 2);
    }
  }

  lemma {:induction false} DoubledAtLeast(size: nat)
    requires Doubled(size)
    ensures size >= BLOCK
  {
  }

  lemma MaxIsDoubled()
    ensures Doubled(MAX_LINE)
  {
    assert Doubled(1024) && Doubled(2048) && Doubled(4096) && Doubled(8192) && Doubled(16384);
    assert Doubled(32768) && Doubled(65536) && Doubled(131072) && Doubled(262144) && Doubled(524288);
    assert Doubled(1048576) && Doubled(2097152) && Doubled(4194304) && Doubled(8388608);
    assert Doubled(16777216) && Doubled(33554432);
  }

  /**
   * The buffer's size stays a doubled block of at most 64 MiB and one doubling always makes room for a
   * whole block; the size limit is hit exactly when fewer than a block of 64 MiB is left.
   */
  lemma GrowthMakesRoom(size: nat, n: nat)
    requires Doubled(size) && size <= MAX_LINE && n <= size
    ensures Doubled(Grown(size, n)) && n + BLOCK <= Grown(size, n) <= 2 * MAX_LINE < 0x8000_0000
    ensures Grown(size, n) > MAX_LINE <==> n + BLOCK > MAX_LINE
  {
    DoubledAtLeast(size);
    assert 2 * size / 2 == size;
    if size < MAX_LINE {
      MaxIsDoubled();
      DoubledHalves(size, MAX_LINE);
    }
  }

  // ---- Conservation of bytes, for any input

  /** The bytes that arrived between two states of a connection. */
  function Got(before: Conn, after: Conn): seq<byte>
    requires |before.received| <= |after.received|
  {
    after.received[|before.received|..]
  }

  /** `after` is `before` with more of its input read. */
  predicate ReadsOnly(before: Conn, after: Conn) {
    && before.received <= after.received
    && after == before.(input := after.input, received := after.received)
    && after.Stream() == before.Stream()
  }

  lemma ReadsOnlyTransitive(a: Conn, b: Conn, c: Conn)
    requires ReadsOnly(a, b) && ReadsOnly(b, c)
    ensures ReadsOnly(a, c) && Got(a, c) == Got(a, b) + Got(b, c)
  {
  }

  lemma ReadsOnlyMeansStreamKept(a: Conn, b: Conn, buf: seq<byte>)
    requires ReadsOnly(a, b)
    ensures buf + Got(a, b) + Arriving(b.input) == buf + Arriving(a.input)
  {
    assert a.received + Got(a, b) == b.received;
    assert (a.received + Got(a, b) + Arriving(b.input))[|a.received|..] == Got(a, b) + Arriving(b.input);
    assert a.Stream()[|a.received|..] == Arriving(a.input);
    assert buf + Got(a, b) + Arriving(b.input) == buf + (Got(a, b) + Arriving(b.input));
  }

  /** Where the loop finds a newline it holds everything buffered before and everything read since. */
  lemma {:induction false} ScanConserves(buf: seq<byte>, size: nat, c: Conn)
    requires Doubled(size) && |buf| <= size <= MAX_LINE
    ensures ReadsOnly(c, Scan(buf, size, c).conn)
    ensures var s := Scan(buf, size, c);
            s.Found? ==> s.at < |s.buf| <= MAX_LINE && s.buf[s.at] == NL && |s.buf| - s.at <= BLOCK
                         && s.buf == buf + Got(c, s.conn)
    decreases |c.input|
  {
    var size' := Grown(size, |buf|);
    GrowthMakesRoom(size, |buf|);
    if size' <= MAX_LINE && c.input != [] {
      var c' := AfterRead(c);
      AfterReadKeepsStream(c);
      match c.input[0]
      case ReadFailure =>
      case Interrupted =>
        ScanConserves(buf, size', c');
        ReadsOnlyTransitive(c, c', Scan(buf, size', c').conn);
      case Chunk(d) =>
        assert Got(c, c') == d;
        StrNPosMeaning(d, NL);
        if StrNPos(d, NL) < 0 {
          ScanConserves(buf + d, size', c');
          ReadsOnlyTransitive(c, c', Scan(buf + d, size', c').conn);
          Lines.Assoc(buf, d, Got(c', Scan(buf + d, size', c').conn));
        }
    }
  }

  // ---- One call, on NUL-free input

  lemma NoNewlineBefore(buf: seq<byte>, rest: seq<byte>)
    requires NL !in buf
    ensures IndexOf(buf + rest, NL) == |buf| + IndexOf(rest, NL)
  {
    var p := IndexOf(rest, NL);
    if p < |rest| {
      assert (buf + rest)[..|buf| + p] == buf + rest[..p];
      IndexOfUnique(buf + rest, NL, |buf| + p);
    } else {
      IndexOfNone(rest, NL);
      IndexOfNone(buf + rest, NL);
    }
  }

  /** A block-relative search agrees with the search of the block and all that follows it. */
  lemma SearchBlock(d: seq<byte>, rest: seq<byte>)
    requires NulFree(d + rest)
    ensures NulFree(rest)
    ensures StrNPos(d, NL) < 0 ==> NL !in d && IndexOf(d + rest, NL) == |d| + IndexOf(rest, NL)
    ensures StrNPos(d, NL) >= 0 ==> IndexOf(d + rest, NL) == StrNPos(d, NL)
  {
    assert forall x :: x in d || x in rest ==> x in d + rest;
    StrNPosIsSearch(d, NL);
    if NL in d {
      IndexOfNone(d, NL);
      assert (d + rest)[..IndexOf(d, NL)] == d[..IndexOf(d, NL)];
      IndexOfUnique(d + rest, NL, IndexOf(d, NL));
    } else {
      NoNewlineBefore(d, rest);
    }
  }

  /** Searching block by block finds the first newline of everything. */
  lemma {:induction false} ScanFindsFirst(buf: seq<byte>, size: nat, c: Conn)
    requires Doubled(size) && |buf| <= size <= MAX_LINE
    requires NL !in buf && NulFree(Arriving(c.input))
    ensures ReadsOnly(c, Scan(buf, size, c).conn)
    ensures var p := |buf| + IndexOf(Arriving(c.input), NL);
            var total := |buf| + |Arriving(c.input)|;
            match Scan(buf, size, c)
            case Found(b, at, c') => at == p < total
            case Stopped(EndOfStream, c') => total == 0 && !Breaks(c.input)
            case Stopped(_, c') =>
              && NL !in Got(c, c')
              && (p > MAX_LINE - BLOCK || (p == total && (total != 0 || Breaks(c.input))))
    decreases |c.input|
  {
    ScanConserves(buf, size, c);
    var size' := Grown(size, |buf|);
    GrowthMakesRoom(size, |buf|);
    if size' <= MAX_LINE && c.input != [] {
      var c' := AfterRead(c);
      match c.input[0]
      case ReadFailure =>
      case Interrupted =>
        ScanFindsFirst(buf, size', c');
      case Chunk(d) =>
        SearchBlock(d, Arriving(c'.input));
        if StrNPos(d, NL) < 0 {
          ScanFindsFirst(buf + d, size', c');
          ScanConserves(buf + d, size', c');
          ReadsOnlyTransitive(c, c', Scan(buf + d, size', c').conn);
        }
    }
  }

  lemma LocateConserves(buf: seq<byte>, c: Conn)
    requires |buf| < BLOCK
    ensures ReadsOnly(c, Locate(buf, c).conn)
    ensures var s := Locate(buf, c);
            s.Found? ==> s.at < |s.buf| <= MAX_LINE && s.buf[s.at] == NL && |s.buf| - s.at <= BLOCK
                         && s.buf == buf + Got(c, s.conn)
  {
    StrNPosMeaning(buf, NL);
    if StrNPos(buf, NL) < 0 {
      MaxIsDoubled();
      ScanConserves(buf, BLOCK, c);
    }
  }

  /**
   * A call keeps, for any input: it only reads, the new carry fits the 1024-byte buffer, the bytes in
   * hand are the old carry and what arrived, and a line uses up at least its newline.
   */
  lemma ReadLineConserves(carry: seq<byte>, c: Conn)
    requires |carry| < BLOCK
    ensures ReadsOnly(c, ReadLine(carry, c).conn)
    ensures var r := ReadLine(carry, c);
            && |r.carry| < BLOCK
            && (r.out.Line? ==>
                  && |r.carry| + |Arriving(r.conn.input)| < |carry| + |Arriving(c.input)|
                  && exists raw, rest :: StrNCpy(carry) + Got(c, r.conn) == raw + [NL] + rest
                                         && r.out.text == Lines.Strip(raw) && r.carry == StrNCpy(rest))
  {
    var buf := StrNCpy(carry);
    var s := Locate(buf, c);
    LocateConserves(buf, c);
    if s.Found? {
      CutAt(s.buf, Arriving(s.conn.input), s.at);
      ReadsOnlyMeansStreamKept(c, s.conn, buf);
    }
  }

  /** What one call must return: the first line of everything still to be read, or why there is none. */
  ghost predicate IsFirstLine(carry: seq<byte>, c: Conn, r: Call)
    requires ReadsOnly(c, r.conn)
  {
    var total := carry + Arriving(c.input);
    var p := IndexOf(total, NL);
    match r.out
    case Line(text) =>
      && p < |total| && p < MAX_LINE
      && text == Lines.Strip(total[..p])
      && text == (if p > 0 && total[p - 1] == CR then total[..p - 1] else total[..p])
      && carry + Got(c, r.conn) == total[..p] + [NL] + r.carry
      && r.carry + Arriving(r.conn.input) == total[p + 1..]
    case EndOfStream =>
      && total == [] && !Breaks(c.input)
    case Failed =>
      && NL !in carry + Got(c, r.conn)
      && (p > MAX_LINE - BLOCK || (p == |total| && (total != [] || Breaks(c.input))))
  }

  /** On NUL-free input a call returns the first line of the stream, leaving the rest of it. */
  lemma ReadLineMeaning(carry: seq<byte>, c: Conn)
    requires |carry| < BLOCK
    requires NulFree(carry + Arriving(c.input))
    ensures ReadsOnly(c, ReadLine(carry, c).conn)
    ensures IsFirstLine(carry, c, ReadLine(carry, c))
    ensures NulFree(ReadLine(carry, c).carry + Arriving(ReadLine(carry, c).conn.input))
  {
    NulFreeParts(carry, Arriving(c.input));
    StrNCpyIsCopy(carry);
    LocateConserves(carry, c);
    LocateFindsFirst(carry, c);
    var s := Locate(carry, c);
    ReadsOnlyMeansStreamKept(c, s.conn, carry);
    if s.Found? {
      CutAt(s.buf, Arriving(s.conn.input), s.at);
      NulFreeParts(s.buf, Arriving(s.conn.input));
      NulFreeParts(s.buf[..s.at + 1], s.buf[s.at + 1..]);
      StrNCpyIsCopy(s.buf[s.at + 1..]);
    } else {
      NulFreeParts(carry + Got(c, s.conn), Arriving(s.conn.input));
    }
  }

  lemma LocateFindsFirst(buf: seq<byte>, c: Conn)
    requires |buf| < BLOCK && NulFree(buf) && NulFree(Arriving(c.input))
    ensures ReadsOnly(c, Locate(buf, c).conn)
    ensures var total := buf + Arriving(c.input);
            var p := IndexOf(total, NL);
            match Locate(buf, c)
            case Found(b, at, c') => at == p < |total|
            case Stopped(EndOfStream, c') => total == [] && !Breaks(c.input)
            case Stopped(_, c') =>
              && NL !in buf + Got(c, c')
              && (p > MAX_LINE - BLOCK || (p == |total| && (total != [] || Breaks(c.input))))
  {
    LocateConserves(buf, c);
    assert NulFree(buf + Arriving(c.input));
    SearchBlock(buf, Arriving(c.input));
    if StrNPos(buf, NL) < 0 {
      MaxIsDoubled();
      ScanFindsFirst(buf, BLOCK, c);
    }
  }

  lemma CutAt(b: seq<byte>, rest: seq<byte>, at: nat)
    requires at < |b| && b[at] == NL
    ensures b == b[..at] + [NL] + b[at + 1..]
    ensures (b + rest)[..at] == b[..at] && (b + rest)[at + 1..] == b[at + 1..] + rest
  {
  }

  lemma NulFreeParts(a: seq<byte>, b: seq<byte>)
    requires NulFree(a + b)
    ensures NulFree(a) && NulFree(b)
  {
    assert forall x :: x in a || x in b ==> x in a + b;
  }
}
