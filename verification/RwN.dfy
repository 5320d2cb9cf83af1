/** write_n: the loop over short writes. */
module RwN {
  import opened Bytes
  import opened System

  /** How a write_n of `count` bytes ends: return code, bytes taken, what write() will do next. */
  datatype Written = Written(ret: int, n: nat, rest: seq<WriteEvent>) {
    predicate Ok() {
      ret > 0
    }
  }

  function WriteAll(output: seq<WriteEvent>, count: nat): (w: Written)
    ensures w.n <= count
    decreases |output|, count
  {
    if count == 0 then Written(0, 0, output)
    else
      var n := Taken(output, count);
      if n <= 0 then Written(n, 0, Rest(output))
      else if n == count then Written(count, n, Rest(output))
      else
        var w := WriteAll(Rest(output), count - n);
        Written(if w.ret > 0 then count else w.ret, n + w.n, w.rest)
  }

  /**
   * write_n reports the count if and only if it got every byte out; it reports 0 or -1 if and only if
   * what it got out is less, and then the frame was cut short.
   */
  lemma {:induction false} WriteAllMeaning(output: seq<WriteEvent>, count: nat)
    requires count > 0
    ensures var w := WriteAll(output, count);
            && (w.ret == count <==> w.n == count)
            && (w.ret == 0 || w.ret == -1 <==> w.n < count)
            && (w.Ok() <==> w.n == count)
    decreases |output|, count
  {
    var n := Taken(output, count);
    if 0 < n < count {
      WriteAllMeaning(Rest(output), count - n);
    }
  }

  /** Whether write() ever takes nothing or fails. */
  predicate Refuses(output: seq<WriteEvent>) {
    output != [] && (output[0].WriteFailure? || output[0].n == 0 || Refuses(output[1..]))
  }

  /** The bytes write() would take before that. */
  function Accepts(output: seq<WriteEvent>): nat {
    if output == [] || output[0].WriteFailure? || output[0].n == 0 then 0 else output[0].n + Accepts(output[1..])
  }

  /** What write() returns when it refuses for the first time: 0, or -1 for an error. */
  function Refusal(output: seq<WriteEvent>): int
    requires Refuses(output)
  {
    if output[0].WriteFailure? then -1 else if output[0].n == 0 then 0 else Refusal(output[1..])
  }

  /**
   * Exactly when write_n gets every byte out: if write() never refuses, or takes enough before it does. Else
   * everything it would take has gone out, and the result says how it refused.
   */
  lemma {:induction false} WriteAllExactly(output: seq<WriteEvent>, count: nat)
    requires count > 0
    ensures var w := WriteAll(output, count);
            && (w.n == count <==> !Refuses(output) || Accepts(output) >= count)
            && (w.Ok() <==> !Refuses(output) || Accepts(output) >= count)
            && (!w.Ok() ==> Refuses(output) && w.n == Accepts(output) && w.ret == Refusal(output))
            && (!Refuses(output) ==> !Refuses(w.rest))
    decreases |output|, count
  {
    WriteAllMeaning(output, count);
    var n := Taken(output, count);
    if output != [] && 0 < n < count {
      WriteAllExactly(Rest(output), count - n);
    }
  }

  /** The connection after write_n of `data`. */
  function AfterWrite(c: Conn, data: seq<byte>): Conn {
    var w := WriteAll(c.output, |data|);
    c.(output := w.rest, sent := c.sent + data[..w.n])
  }

  /** Whether and what write_n returns on descriptor fd, open or not. */
  function WriteRet(conns: map<int, Conn>, fd: int, count: nat): int {
    if count == 0 then 0
    else if fd in conns then WriteAll(conns[fd].output, count).ret
    else -1
  }

  function ConnsAfterWrite(conns: map<int, Conn>, fd: int, data: seq<byte>): map<int, Conn> {
    if fd in conns then conns[fd := AfterWrite(conns[fd], data)] else conns
  }

  /** The part of a loop's work already done, and the rest. */
  lemma WriteAllStep(output: seq<WriteEvent>, data: seq<byte>)
    requires 0 < Taken(output, |data|) < |data|
    ensures var n := Taken(output, |data|);
            var w := WriteAll(Rest(output), |data| - n);
            data[..WriteAll(output, |data|).n] == data[..n] + data[n..][..w.n]
  {
  }

  lemma AfterWriteStep(c: Conn, data: seq<byte>)
    requires 0 < Taken(c.output, |data|)
    ensures var n := Taken(c.output, |data|);
            AfterWrite(c, data) == AfterWrite(c.(output := Rest(c.output), sent := c.sent + data[..n]), data[n..])
  {
    var n := Taken(c.output, |data|);
    if n < |data| {
      WriteAllStep(c.output, data);
      var w := WriteAll(Rest(c.output), |data| - n);
      assert c.sent + (data[..n] + data[n..][..w.n]) == c.sent + data[..n] + data[n..][..w.n];
    } else {
      assert data[n..] == [];
      assert c.sent + data[..n] + [] == c.sent + data[..n];
    }
  }

  lemma WriteStep(conns: map<int, Conn>, fd: int, data: seq<byte>, n: nat)
    requires 0 < n == TakenBy(conns, fd, |data|)
    ensures ConnsAfterWrite(conns, fd, data) == ConnsAfterWrite(AfterWriteCall(conns, fd, data), fd, data[n..])
    ensures n == |data| ==> WriteRet(conns, fd, |data|) == |data|
    ensures n < |data| ==>
              var r := WriteRet(AfterWriteCall(conns, fd, data), fd, |data| - n);
              WriteRet(conns, fd, |data|) == if r > 0 then |data| else r
  {
    AfterWriteStep(conns[fd], data);
  }

  lemma WriteStops(conns: map<int, Conn>, fd: int, data: seq<byte>)
    requires data != [] && TakenBy(conns, fd, |data|) <= 0
    ensures ConnsAfterWrite(conns, fd, data) == AfterWriteCall(conns, fd, data)
    ensures WriteRet(conns, fd, |data|) == TakenBy(conns, fd, |data|)
  {
    assert data[..0] == [];
  }

  lemma NoWrite(conns: map<int, Conn>, fd: int)
    ensures ConnsAfterWrite(conns, fd, []) == conns
  {
    if fd in conns {
      assert conns[fd].sent + [] == conns[fd].sent;
    }
  }

  /** write_n(fd, buf, count). */
  method WriteN(kernel: Kernel, fd: int, buf: array<byte>, count: nat) returns (ret: int)
    requires count <= buf.Length
    modifies kernel
    ensures ret == WriteRet(old(kernel.conns), fd, count)
    ensures kernel.conns == ConnsAfterWrite(old(kernel.conns), fd, buf[..count])
  {
    ghost var goal := ConnsAfterWrite(kernel.conns, fd, buf[..count]);
    ghost var goalRet := WriteRet(kernel.conns, fd, count);
    ghost var left := buf[..count];
    var off: nat := 0;
    while off < count
      invariant off <= count && left == buf[off..count]
      invariant goal == ConnsAfterWrite(kernel.conns, fd, left)
      invariant off < count ==>
                  var r := WriteRet(kernel.conns, fd, |left|);
                  goalRet == if r > 0 then count else r
      invariant off == count ==> goalRet == count
    {
      ghost var before := kernel.conns;
      var n := kernel.Write(fd, buf, off, count - off);
      if n <= 0 {
        WriteStops(before, fd, left);
        return n;
      }
      WriteStep(before, fd, left, n);
      left := left[n..];
      off := off + n;
    }
    NoWrite(kernel.conns, fd);
    ret := count;
  }
}
