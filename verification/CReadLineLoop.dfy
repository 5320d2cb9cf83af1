/** creadline_r as it runs: a line buffer reallocated in place and a carry buffer written back. */
module CReadLineLoop {
  import opened Bytes
  import opened System
  import opened CReadLine
  import Chunking
  import Lines

  /** creadline_buf_t */
  class CarryBuffer {
    const buf: array<byte>
    var nbytes: nat

    ghost predicate Valid()
      reads this
    {
      buf.Length == BLOCK && nbytes < BLOCK
    }

    ghost function Carry(): seq<byte>
      requires Valid()
      reads this, buf
    {
      buf[..nbytes]
    }

    /** Storage as malloc leaves it, but with the byte count reset. */
    constructor ()
      ensures Valid() && fresh(buf) && nbytes == 0
    {
      buf := new byte[BLOCK];
      nbytes := 0;
    }
  }

  /** Lines 80-94: the fresh line buffer, with the carried-over bytes restored into it. */
  method Restore(buffer: CarryBuffer) returns (linebuf: array<byte>, n: nat)
    requires buffer.Valid()
    modifies buffer
    ensures buffer.nbytes == 0 && fresh(linebuf) && linebuf.Length == BLOCK
    ensures n == |old(buffer.Carry())| < BLOCK
    ensures linebuf[..n] == StrNCpy(old(buffer.Carry()))
  {
    linebuf := new byte[BLOCK];
    n := 0;
    if buffer.nbytes != 0 {
      StrNCpyLoop(linebuf, buffer.buf, 0, buffer.nbytes);
      n := buffer.nbytes;
      buffer.nbytes := 0;
    }
  }

  /**
   * Lines 107-124: double the buffer if a block might not fit; false when that passes the limit. `copied`
   * counts the bytes realloc copies.
   */
  method MakeRoom(linebuf: array<byte>, n: nat) returns (ok: bool, next: array<byte>, ghost copied: nat)
    requires Doubled(linebuf.Length) && n <= linebuf.Length <= MAX_LINE
    ensures ok <==> Grown(linebuf.Length, n) <= MAX_LINE
    ensures ok ==> next.Length == Grown(linebuf.Length, n) && Doubled(next.Length) && n + BLOCK <= next.Length
    ensures ok ==> next[..n] == linebuf[..n] && (next == linebuf || fresh(next))
    ensures copied == if ok && next.Length > linebuf.Length then linebuf.Length else 0
  {
    GrowthMakesRoom(linebuf.Length, n);
    next, copied := linebuf, 0;
    if n + BLOCK > linebuf.Length {
      var newSize := 2 * linebuf.Length;
      assert newSize < 0x8000_0000;  // an int in the source
      if newSize > MAX_LINE {
        return false, linebuf, 0;
      }
      next := new byte[newSize];
      forall i | 0 <= i < linebuf.Length {
        next[i] := linebuf[i];
      }
      copied := linebuf.Length;
    }
    ok := true;
  }

  /** Whether `dst` and the return code report the outcome: a terminated string, or NULL with 0 or -1. */
  ghost predicate Reports(ret: int, dst: array?<byte>, out: Outcome)
    reads dst
  {
    match out
    case Line(text) => dst != null && ret == |text| < dst.Length && dst[..ret] == text && dst[ret] == NUL
    case EndOfStream => dst == null && ret == 0
    case Failed => dst == null && ret == -1
  }

  /** Lines 164-184: save what follows the newline, drop a carriage return, terminate the string. */
  method Finish(linebuf: array<byte>, n: nat, at: nat, buffer: CarryBuffer) returns (ret: int)
    requires at < n <= linebuf.Length && n - at <= BLOCK
    requires buffer.Valid() && buffer.nbytes == 0 && buffer.buf != linebuf
    modifies linebuf, buffer, buffer.buf
    ensures buffer.Valid() && buffer.Carry() == StrNCpy(old(linebuf[..n])[at + 1..])
    ensures Reports(ret, linebuf, Line(Lines.Strip(old(linebuf[..n])[..at])))
    ensures ret == if at > 0 && old(linebuf[at - 1]) == CR then at - 1 else at
    ensures linebuf[..ret] == old(linebuf[..ret]) && linebuf[ret] == NUL
  {
    ghost var b := linebuf[..n];
    var nl := at;
    var rem := n - nl - 1;
    if rem > 0 {
      assert linebuf[nl + 1..nl + 1 + rem] == b[at + 1..];
      StrNCpyLoop(buffer.buf, linebuf, nl + 1, rem);
      buffer.nbytes := rem;
    }
    if nl > 0 && linebuf[nl - 1] == CR {
      nl := nl - 1;
    }
    linebuf[nl] := NUL;
    assert linebuf[..nl] == Lines.Strip(b[..at]);
    ret := nl;
  }

  /** How many bytes have been read on a connection. */
  function Arrived(before: map<int, Conn>, after: map<int, Conn>, fd: int): int
    requires fd in before && fd in after
  {
    |after[fd].received| - |before[fd].received|
  }

  /** Return code for a call that ends without a line. */
  function Code(out: Outcome): int {
    if out.EndOfStream? then 0 else -1
  }

  /**
   * Lines 126-161: one read into a buffer with room for a block, and one search of what was read, which looks at
   * no byte that was there before.
   */
  method ReadBlock(kernel: Kernel, fd: int, linebuf: array<byte>, count: nat)
    returns (n: nat, nl: int, done: bool, ret: int, ghost looked: nat)
    requires fd in kernel.conns && count + BLOCK <= linebuf.Length
    modifies kernel, linebuf
    ensures kernel.conns == old(kernel.conns)[fd := AfterRead(old(kernel.conns[fd]))]
    ensures n <= linebuf.Length
    ensures var input := old(kernel.conns[fd].input);
            if input != [] && input[0].Chunk? then
              var p := StrNPos(input[0].data, NL);
              && !done && nl == (if p < 0 then -1 else count + p)
              && linebuf[..n] == old(linebuf[..count]) + input[0].data
            else
              && linebuf[..n] == old(linebuf[..count]) && n == count && nl == -1
              && done == (input == [] || input[0].ReadFailure?)
              && ret == if input == [] && count == 0 then 0 else -1
    ensures looked <= n - count == Arrived(old(kernel.conns), kernel.conns, fd)
  {
    n, nl, done, ret, looked := count, -1, false, -1, 0;
    ghost var buf := linebuf[..count];
    var got, interrupted := kernel.Read(fd, linebuf, n, BLOCK);
    if got < 0 {
      done := !interrupted;
    } else if got == 0 {
      done, ret := true, if n == 0 then 0 else -1;
    } else {
      nl, looked := StrNPosLoop(linebuf, n, NL, got);
      if nl >= 0 {
        nl := nl + n;
      }
      assert linebuf[..n + got] == buf + linebuf[n..n + got];
      n := n + got;
    }
  }

  /**
   * One pass of the loop, lines 107-161: room for a block, one read, one search of what was read. With
   * `done` the call is over with return code `ret`; with nl >= 0 a newline was found; else go round again.
   */
  method Pass(kernel: Kernel, fd: int, buffered: array<byte>, count: nat)
    returns (linebuf: array<byte>, n: nat, nl: int, done: bool, ret: int, ghost copied: nat, ghost looked: nat)
    requires fd in kernel.conns
    requires Doubled(buffered.Length) && count <= buffered.Length <= MAX_LINE
    modifies kernel, buffered
    ensures linebuf == buffered || fresh(linebuf)
    ensures Doubled(linebuf.Length) && n <= linebuf.Length <= MAX_LINE
    ensures fd in kernel.conns && kernel.conns == old(kernel.conns)[fd := kernel.conns[fd]]
    ensures var s := Scan(old(buffered[..count]), buffered.Length, old(kernel.conns[fd]));
            if done then s.Stopped? && s.conn == kernel.conns[fd] && nl < 0 && ret == Code(s.out)
            else if nl >= 0 then s == Found(linebuf[..n], nl, kernel.conns[fd])
            else s == Scan(linebuf[..n], linebuf.Length, kernel.conns[fd])
    ensures !done ==> |kernel.conns[fd].input| < |old(kernel.conns[fd].input)|
    ensures Chunking.Recopied(old(buffered[..count]), buffered.Length, old(kernel.conns[fd]))
         == copied + if done || nl >= 0 then 0 else Chunking.Recopied(linebuf[..n], linebuf.Length, kernel.conns[fd])
    ensures looked <= n - count == Arrived(old(kernel.conns), kernel.conns, fd)
  {
    var ok;
    ok, linebuf, copied := MakeRoom(buffered, count);
    if !ok {
      return buffered, count, -1, true, -1, 0, 0;
    }
    n, nl, done, ret, looked := ReadBlock(kernel, fd, linebuf, count);
  }

  lemma UpdateTwice<K, V>(m: map<K, V>, k: K, v: V, w: V)
    ensures m[k := v][k := w] == m[k := w]
  {
  }

  /**
   * The loop of lines 99-162; on a newline at `nl`, the n bytes buffered, else the return code. `copied` counts
   * the bytes realloc copies on the way, `looked` those strnpos looks at.
   */
  method ReadUntilNewline(kernel: Kernel, fd: int, buffered: array<byte>, count: nat)
    returns (linebuf: array<byte>, n: nat, nl: int, ret: int, ghost copied: nat, ghost looked: nat)
    requires fd in kernel.conns
    requires Doubled(buffered.Length) && count <= buffered.Length <= MAX_LINE
    modifies kernel, buffered
    ensures var s := Scan(old(buffered[..count]), buffered.Length, old(kernel.conns[fd]));
            && kernel.conns == old(kernel.conns)[fd := s.conn]
            && match s
               case Found(buf, at, _) => nl == at && n <= linebuf.Length && linebuf[..n] == buf
               case Stopped(out, _) => nl < 0 && ret == Code(out)
    ensures linebuf == buffered || fresh(linebuf)
    ensures copied == Chunking.Recopied(old(buffered[..count]), buffered.Length, old(kernel.conns[fd]))
    ensures looked <= n - count == Arrived(old(kernel.conns), kernel.conns, fd)
  {
    linebuf, n, nl, ret, copied, looked := buffered, count, -1, -1, 0, 0;
    var done := false;
    ghost var conns := kernel.conns;
    ghost var scan := Scan(linebuf[..n], linebuf.Length, conns[fd]);
    ghost var total := Chunking.Recopied(linebuf[..n], linebuf.Length, conns[fd]);
    while nl < 0
      invariant fd in kernel.conns && kernel.conns == conns[fd := kernel.conns[fd]]
      invariant linebuf == buffered || fresh(linebuf)
      invariant Doubled(linebuf.Length) && n <= linebuf.Length <= MAX_LINE
      invariant scan == if nl < 0 then Scan(linebuf[..n], linebuf.Length, kernel.conns[fd])
                        else Found(linebuf[..n], nl, kernel.conns[fd])
      invariant total ==
                copied + if nl < 0 then Chunking.Recopied(linebuf[..n], linebuf.Length, kernel.conns[fd]) else 0
      invariant looked <= n - count == Arrived(conns, kernel.conns, fd)
      decreases |kernel.conns[fd].input|
    {
      ghost var more, seen;
      UpdateTwice(conns, fd, kernel.conns[fd], kernel.conns[fd]);
      linebuf, n, nl, done, ret, more, seen := Pass(kernel, fd, linebuf, n);
      copied, looked := copied + more, looked + seen;
      if done {
        return;
      }
    }
  }

  /** Lines 96-162: search what was restored, and read on if it holds no newline. */
  method FindLine(kernel: Kernel, fd: int, restored: array<byte>, count: nat)
    returns (linebuf: array<byte>, n: nat, nl: int, ret: int, ghost looked: nat)
    requires fd in kernel.conns && restored.Length == BLOCK && count < BLOCK
    modifies kernel, restored
    ensures var s := Locate(old(restored[..count]), old(kernel.conns[fd]));
            && kernel.conns == old(kernel.conns)[fd := s.conn]
            && match s
               case Found(buf, at, _) => nl == at && n <= linebuf.Length && linebuf[..n] == buf
               case Stopped(out, _) => nl < 0 && ret == Code(out)
    ensures linebuf == restored || fresh(linebuf)
    ensures looked <= n == count + Arrived(old(kernel.conns), kernel.conns, fd)
  {
    linebuf, n, ret := restored, count, -1;
    assert linebuf[0..0 + n] == linebuf[..n];
    nl, looked := StrNPosLoop(linebuf, 0, NL, n);
    if nl < 0 {
      ghost var copied, seen;
      MaxIsDoubled();
      linebuf, n, nl, ret, copied, seen := ReadUntilNewline(kernel, fd, linebuf, n);
      looked := looked + seen;
    }
  }

  /**
   * creadline_r, for every input. Each byte is looked at once at most: `looked`, the work of all the searches in
   * the call, is no more than what was carried over and what was read.
   */
  method ReadLineR(kernel: Kernel, fd: int, buffer: CarryBuffer)
    returns (ret: int, dst: array?<byte>, ghost looked: nat)
    requires fd in kernel.conns && buffer.Valid()
    modifies kernel, buffer, buffer.buf
    ensures buffer.Valid()
    ensures var r := ReadLine(old(buffer.Carry()), old(kernel.conns[fd]));
            && kernel.conns == old(kernel.conns)[fd := r.conn]
            && buffer.Carry() == r.carry
            && Reports(ret, dst, r.out)
    ensures dst != null ==> fresh(dst)
    ensures looked <= |old(buffer.Carry())| + Arrived(old(kernel.conns), kernel.conns, fd)
  {
    var linebuf, n := Restore(buffer);
    LocateConserves(linebuf[..n], kernel.conns[fd]);
    var nl;
    linebuf, n, nl, ret, looked := FindLine(kernel, fd, linebuf, n);
    if nl < 0 {
      assert buffer.Carry() == [];
      return ret, null, looked;
    }
    ret := Finish(linebuf, n, nl, buffer);
    dst := linebuf;
  }
}
