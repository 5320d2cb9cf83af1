/**
 * The operating system as an oracle. What read() and write() will do on a connection is a script fixed
 * in advance and quantified over in every theorem: any cut of the stream into blocks, interrupts
 * anywhere, short output, failures.
 */
module System {
  import opened Bytes

  /** CREADLINE_BLOCK_SIZE: the most one read() is asked for. */
  const BLOCK := 1024

  type Block = d: seq<byte> | 1 <= |d| <= BLOCK witness [NUL]

  /** After the last event read() reports end of file for ever; a failure is permanent. */
  datatype ReadEvent = Chunk(data: Block) | Interrupted | ReadFailure

  /** After the last event write() takes whatever it is given. */
  datatype WriteEvent = Takes(n: nat) | WriteFailure

  /** The bytes read() will still deliver. */
  function Arriving(input: seq<ReadEvent>): seq<byte> {
    if input == [] then [] else
      match input[0]
      case Chunk(d) => d + Arriving(input[1..])
      case Interrupted => Arriving(input[1..])
      case ReadFailure => []
  }

  /** Whether the stream ends in a read error rather than in end of file. */
  predicate Breaks(input: seq<ReadEvent>) {
    input != [] && (input[0].ReadFailure? || Breaks(input[1..]))
  }

  datatype Option<+T> = None | Some(value: T)

  /** A request handed to japi_process_message and the response text it produced. */
  datatype Exchange = Exchange(request: seq<byte>, reply: Option<Text>)

  /**
   * One connection: what read() and write() will do, what has been received and sent so far, and the
   * history of requests served, which the kernel itself never looks at.
   */
  datatype Conn = Conn(
    input: seq<ReadEvent>,
    output: seq<WriteEvent>,
    received: seq<byte>,
    sent: seq<byte>,
    served: seq<Exchange>)
  {
    /** The whole stream the peer sends over the life of the connection. */
    function Stream(): seq<byte> {
      received + Arriving(input)
    }
  }

  /** The connection after one read(). */
  function AfterRead(c: Conn): Conn {
    if c.input == [] then c else
      match c.input[0]
      case Chunk(d) => c.(input := c.input[1..], received := c.received + d)
      case Interrupted => c.(input := c.input[1..])
      case ReadFailure => c
  }

  /** How many of `count` bytes one write() takes; negative for an error. */
  function Taken(output: seq<WriteEvent>, count: nat): (n: int)
    ensures -1 <= n <= count
  {
    if output == [] then count else
      match output[0]
      case Takes(n) => if n <= count then n else count
      case WriteFailure => -1
  }

  function Rest(output: seq<WriteEvent>): seq<WriteEvent> {
    if output == [] then [] else output[1..]
  }

  /** No read changes the stream as a whole. */
  lemma AfterReadKeepsStream(c: Conn)
    ensures AfterRead(c).Stream() == c.Stream()
  {
    if c.input != [] && c.input[0].Chunk? {
      var d := c.input[0].data;
      assert c.received + (d + Arriving(c.input[1..])) == c.received + d + Arriving(c.input[1..]);
    }
  }

  function TakenBy(conns: map<int, Conn>, fd: int, count: nat): (n: int)
    ensures -1 <= n <= count
  {
    if fd in conns then Taken(conns[fd].output, count) else -1
  }

  /** The open connections after one write() of `data`. */
  function AfterWriteCall(conns: map<int, Conn>, fd: int, data: seq<byte>): map<int, Conn> {
    if fd !in conns then conns else
      var c := conns[fd];
      var n := Taken(c.output, |data|);
      conns[fd := c.(output := Rest(c.output), sent := c.sent + if n < 0 then [] else data[..n])]
  }

  class Kernel {
    /** The open connections by descriptor. */
    var conns: map<int, Conn>

    /** read(fd, a + off, count). */
    method Read(fd: int, a: array<byte>, off: nat, count: nat) returns (n: int, interrupted: bool)
      requires fd in conns && BLOCK <= count && off + count <= a.Length
      modifies this, a
      ensures conns == old(conns)[fd := AfterRead(old(conns[fd]))]
      ensures var input := old(conns[fd].input);
              if input == [] then n == 0 else
                match input[0]
                case Chunk(d) => n == |d| && a[off..off + n] == d
                case Interrupted => n == -1 && interrupted
                case ReadFailure => n == -1 && !interrupted
      ensures a[..off] == old(a[..off])
    {
      var c := conns[fd];
      n, interrupted := 0, false;
      if c.input != [] {
        match c.input[0]
        case Chunk(d) =>
          forall i | 0 <= i < |d| {
            a[off + i] := d[i];
          }
          n := |d|;
        case Interrupted =>
          n, interrupted := -1, true;
        case ReadFailure =>
          n := -1;
      }
      conns := conns[fd := AfterRead(c)];
    }

    /** write(fd, a + off, count); a descriptor that is not open is an error. */
    method Write(fd: int, a: array<byte>, off: nat, count: nat) returns (n: int)
      requires off + count <= a.Length
      modifies this
      ensures n == TakenBy(old(conns), fd, count)
      ensures conns == AfterWriteCall(old(conns), fd, a[off..off + count])
    {
      n := TakenBy(conns, fd, count);
      conns := AfterWriteCall(conns, fd, a[off..off + count]);
    }

    /** Enter a served request into the connection's history. */
    method Record(fd: int, e: Exchange)
      requires fd in conns
      modifies this
      ensures conns == old(conns)[fd := old(conns[fd]).(served := old(conns[fd]).served + [e])]
    {
      conns := conns[fd := conns[fd].(served := conns[fd].served + [e])];
    }

    /** accept() hands out a new connection. */
    method Accept(fd: int, c: Conn)
      modifies this
      ensures conns == old(conns)[fd := c]
    {
      conns := conns[fd := c];
    }

    method Close(fd: int)
      modifies this
      ensures conns == old(conns) - {fd}
    {
      conns := conns - {fd};
    }
  }
}
