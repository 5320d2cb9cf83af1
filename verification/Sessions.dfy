/** One connection's life in the server loop: requests in, responses out, until it goes. */
module Sessions {
  import opened Bytes
  import opened System
  import opened CReadLine
  import opened RwN
  import opened Framing
  import Chunking
  import Lines

  /**
   * What the loop calls: japi_process_message (the response text, if there is one), and the removal of a
   * descriptor from all push services. Theorems hold for every such pair.
   */
  datatype Lib<!A> = Lib(proc: (A, int, seq<byte>) -> (A, Option<Text>), drop: (A, int) -> A)

  /** Why a client was removed. */
  datatype Why = Disconnected | BadRead | BadWrite | Shutdown

  datatype Served<A> = Served(app: A, conn: Conn, ok: bool)

  /** Lines 554-589 for one line: an empty one is skipped; else process it and send the response, if any. */
  function ServeLine<A>(lib: Lib<A>, app: A, fd: int, line: seq<byte>, c: Conn): Served<A> {
    if line == [] then Served(app, c, true)
    else
      var (app', reply) := (lib.proc)(app, fd, line);
      var c' := c.(served := c.served + [Exchange(line, reply)]);
      match reply
      case None => Served(app', c', true)
      case Some(text) => Served(app', AfterWrite(c', Frame(text)), WriteAll(c'.output, |Frame(text)|).Ok())
  }

  datatype Drained<A> = Drained(app: A, conn: Conn, carry: seq<byte>, why: Option<Why>)

  /** Lines 554-594: what is done with what creadline_r returned. */
  function Handle<A>(lib: Lib<A>, app: A, fd: int, r: Call): Drained<A> {
    match r.out
    case EndOfStream => Drained(app, r.conn, r.carry, Some(Disconnected))
    case Failed => Drained(app, r.conn, r.carry, Some(BadRead))
    case Line(text) =>
      var s := ServeLine(lib, app, fd, text, r.conn);
      Drained(s.app, s.conn, r.carry, if s.ok then None else Some(BadWrite))
  }

  /** One turn of the loop body, lines 552-594: read a line and serve it. */
  function Turn<A>(lib: Lib<A>, app: A, fd: int, c: Conn, carry: seq<byte>): (d: Drained<A>)
    requires |carry| < BLOCK
    ensures |d.carry| < BLOCK
    ensures d.why == None ==> |d.carry| + |Arriving(d.conn.input)| < |carry| + |Arriving(c.input)|
  {
    ReadLineConserves(carry, c);
    Handle(lib, app, fd, ReadLine(carry, c))
  }

  /** The do-while of lines 550-596: read and serve until the carry is empty or the client must go. */
  function Drain<A>(lib: Lib<A>, app: A, fd: int, c: Conn, carry: seq<byte>): (d: Drained<A>)
    requires |carry| < BLOCK
    ensures |d.carry| < BLOCK && (d.why == None ==> d.carry == [])
    decreases |carry| + |Arriving(c.input)|
  {
    var t := Turn(lib, app, fd, c, carry);
    if t.why == None && t.carry != [] then Drain(lib, t.app, fd, t.conn, t.carry) else t
  }

  // ---- What a connection's history must look like

  function RequestsOf(served: seq<Exchange>): seq<seq<byte>> {
    if served == [] then [] else [served[0].request] + RequestsOf(served[1..])
  }

  /** The frames of the responses, in order. */
  function RepliesOf(served: seq<Exchange>): seq<byte> {
    if served == [] then []
    else (if served[0].reply.Some? then Frame(served[0].reply.value) else []) + RepliesOf(served[1..])
  }

  /** `done` received bytes make up whole lines, and exactly their requests have been served. */
  ghost predicate ServedUpTo(c: Conn, done: seq<byte>) {
    Lines.Tail(done) == [] && RequestsOf(c.served) == Lines.Requests(done)
  }

  /** The bytes of a live connection that make up the lines already served. */
  function Done(c: Conn, carry: seq<byte>): seq<byte>
    requires |carry| <= |c.received|
  {
    c.received[..|c.received| - |carry|]
  }

  /** A live connection: everything received is served but for the carry, every response went out whole. */
  ghost predicate Live(c: Conn, carry: seq<byte>) {
    && |carry| < BLOCK && |carry| <= |c.received|
    && c.received[|c.received| - |carry|..] == carry
    && ServedUpTo(c, Done(c, carry))
    && c.sent == RepliesOf(c.served)
  }

  /** A stream that reading alone never gives a reason to drop. */
  ghost predicate Clean(c: Conn) {
    !Breaks(c.input) && Lines.Tail(c.Stream()) == [] && Chunking.LinesFit(c.Stream())
  }

  /** A connection that was removed, by reason. */
  ghost predicate Ended(c: Conn, why: Why) {
    match why
    case Disconnected =>
      && c.received == c.Stream()
      && ServedUpTo(c, c.received) && c.sent == RepliesOf(c.served)
    case BadRead =>
      && !Clean(c)
      && RequestsOf(c.served) == Lines.Requests(c.received) && c.sent == RepliesOf(c.served)
    case BadWrite =>
      && (exists n: nat :: n <= |c.received| && ServedUpTo(c, c.received[..n]))
      && c.served != []
      && var last := c.served[|c.served| - 1];
         && last.reply.Some?
         && exists part: nat :: part < |Frame(last.reply.value)|
              && c.sent == RepliesOf(c.served[..|c.served| - 1]) + Frame(last.reply.value)[..part]
    case Shutdown =>
      Live(c, [])
  }

  lemma {:induction false} RequestsOfSnoc(served: seq<Exchange>, e: Exchange)
    ensures RequestsOf(served + [e]) == RequestsOf(served) + [e.request]
  {
    if served == [] {
      assert served + [e] == [e];
    } else {
      RequestsOfSnoc(served[1..], e);
      assert (served + [e])[1..] == served[1..] + [e];
    }
  }

  lemma {:induction false} RepliesOfSnoc(served: seq<Exchange>, e: Exchange)
    ensures RepliesOf(served + [e]) == RepliesOf(served) + if e.reply.Some? then Frame(e.reply.value) else []
  {
    if served == [] {
      assert served + [e] == [e];
      assert RepliesOf([e]) == (if e.reply.Some? then Frame(e.reply.value) else []) + [];
    } else {
      RepliesOfSnoc(served[1..], e);
      assert (served + [e])[1..] == served[1..] + [e];
    }
  }

  // ---- The loop keeps it so

  lemma LiveSplits(c: Conn, carry: seq<byte>)
    requires Live(c, carry)
    ensures c.received == Done(c, carry) + carry
    ensures c.Stream() == Done(c, carry) + (carry + Arriving(c.input))
    ensures NulFree(c.Stream()) ==> NulFree(carry + Arriving(c.input))
  {
    var done := Done(c, carry);
    Lines.Assoc(done, carry, Arriving(c.input));
    if NulFree(c.Stream()) {
      NulFreeParts(done, carry + Arriving(c.input));
    }
  }

  lemma RequestsAfterLine(done: seq<byte>, raw: seq<byte>)
    requires Lines.Tail(done) == [] && NL !in raw
    ensures Lines.Tail(done + (raw + [NL])) == []
    ensures Lines.Requests(done + (raw + [NL]))
         == Lines.Requests(done) + if Lines.Strip(raw) == [] then [] else [Lines.Strip(raw)]
  {
    var f := raw + [NL];
    Lines.RequestsConcat(done, f);
    Lines.TailConcat(done, f);
    assert [] + f == f;
    Lines.RequestsOfLine(raw);
  }

  lemma RequestsOfPart(done: seq<byte>, part: seq<byte>)
    requires Lines.Tail(done) == [] && NL !in part
    ensures Lines.Requests(done + part) == Lines.Requests(done)
    ensures Lines.Tail(done + part) == part
  {
    Lines.RequestsConcat(done, part);
    Lines.TailConcat(done, part);
    assert [] + part == part;
    Lines.NoLine(part);
  }

  /** The raw line that a call returns, less its carriage return. */
  function RawLine(c: Conn, carry: seq<byte>): seq<byte> {
    var total := carry + Arriving(c.input);
    total[..IndexOf(total, NL)]
  }

  lemma CarryFits(carry: seq<byte>, c: Conn)
    requires |carry| < BLOCK
    ensures |ReadLine(carry, c).carry| < BLOCK
  {
    ReadLineConserves(carry, c);
  }

  /** Reading a line: the bytes done grow by the raw line and its newline. */
  lemma ReadAdvances(c: Conn, carry: seq<byte>)
    requires |carry| < BLOCK && |carry| <= |c.received| && c.received == Done(c, carry) + carry
    requires NulFree(carry + Arriving(c.input)) && ReadLine(carry, c).out.Line?
    ensures var r := ReadLine(carry, c);
            && ReadsOnly(c, r.conn)
            && |r.carry| < BLOCK && |r.carry| <= |r.conn.received|
            && r.conn.received[|r.conn.received| - |r.carry|..] == r.carry
            && Done(r.conn, r.carry) == Done(c, carry) + (RawLine(c, carry) + [NL])
            && NL !in RawLine(c, carry) && r.out.text == Lines.Strip(RawLine(c, carry))
  {
    CarryFits(carry, c);
    ReadLineMeaning(carry, c);
    var r := ReadLine(carry, c);
    assert r.conn.received == c.received + Got(c, r.conn);
    DoneGrows(Done(c, carry), carry, Got(c, r.conn), RawLine(c, carry), r.carry, r.conn.received);
  }

  /** The next request of the stream is the one to be served. */
  lemma ReadKeeps(c: Conn, carry: seq<byte>)
    requires Live(c, carry) && NulFree(c.Stream()) && ReadLine(carry, c).out.Line?
    ensures var r := ReadLine(carry, c);
            && r.conn.Stream() == c.Stream() && r.conn.served == c.served && r.conn.sent == c.sent
            && |r.carry| < BLOCK && |r.carry| <= |r.conn.received|
            && r.conn.received[|r.conn.received| - |r.carry|..] == r.carry
            && Lines.Tail(Done(r.conn, r.carry)) == []
            && Lines.Requests(Done(r.conn, r.carry))
               == RequestsOf(c.served) + if r.out.text == [] then [] else [r.out.text]
  {
    LiveSplits(c, carry);
    ReadAdvances(c, carry);
    RequestsAfterLine(Done(c, carry), RawLine(c, carry));
  }

  lemma DoneGrows(
    done: seq<byte>, carry: seq<byte>, got: seq<byte>, raw: seq<byte>, rest: seq<byte>, received: seq<byte>)
    requires carry + got == raw + [NL] + rest
    requires received == done + carry + got
    ensures |rest| <= |received|
    ensures received[..|received| - |rest|] == done + (raw + [NL])
    ensures received[|received| - |rest|..] == rest
  {
    assert received == done + (carry + got);
    assert received == done + (raw + [NL]) + rest;
  }

  /** Serving the line: the history and the wire grow by one request and its response. */
  lemma ServeKeeps<A>(lib: Lib<A>, app: A, fd: int, text: seq<byte>, c: Conn)
    requires c.sent == RepliesOf(c.served)
    ensures var s := ServeLine(lib, app, fd, text, c);
            && s.conn == c.(served := s.conn.served, sent := s.conn.sent, output := s.conn.output)
            && RequestsOf(s.conn.served) == RequestsOf(c.served) + (if text == [] then [] else [text])
            && (s.ok ==> s.conn.sent == RepliesOf(s.conn.served))
            && (!s.ok ==>
                  && s.conn.served != []
                  && s.conn.served[|s.conn.served| - 1].reply.Some?
                  && var last := s.conn.served[|s.conn.served| - 1];
                     exists part: nat :: part < |Frame(last.reply.value)|
                       && s.conn.sent ==
                          RepliesOf(s.conn.served[..|s.conn.served| - 1]) + Frame(last.reply.value)[..part])
  {
    if text != [] {
      var (app', reply) := (lib.proc)(app, fd, text);
      var e := Exchange(text, reply);
      var c' := c.(served := c.served + [e]);
      RequestsOfSnoc(c.served, e);
      RepliesOfSnoc(c.served, e);
      assert c'.served[..|c'.served| - 1] == c.served;
      if reply.Some? {
        var f := Frame(reply.value);
        WriteAllMeaning(c'.output, |f|);
        assert f[..|f|] == f;
      }
    } else {
      assert RequestsOf(c.served) + [] == RequestsOf(c.served);
    }
  }

  /** End of file: nothing is left over, nothing is missing. */
  lemma EndKeeps(c: Conn, carry: seq<byte>)
    requires Live(c, carry) && NulFree(c.Stream()) && ReadLine(carry, c).out.EndOfStream?
    ensures ReadsOnly(c, ReadLine(carry, c).conn) && Ended(ReadLine(carry, c).conn, Disconnected)
  {
    LiveSplits(c, carry);
    ReadLineConserves(carry, c);
    ReadLineMeaning(carry, c);
    var c' := ReadLine(carry, c).conn;
    assert carry == [] && Arriving(c.input) == [];
    assert c.Stream() == c.received;
    assert |c'.received| <= |c'.Stream()|;
    assert c'.received == c.received;
    assert c.received[..|c.received| - 0] == c.received;
  }

  /** A read failure loses only a line without an end, and only a stream that is not clean meets one. */
  lemma FailKeeps(c: Conn, carry: seq<byte>)
    requires Live(c, carry) && NulFree(c.Stream()) && ReadLine(carry, c).out.Failed?
    ensures ReadsOnly(c, ReadLine(carry, c).conn) && Ended(ReadLine(carry, c).conn, BadRead)
  {
    LiveSplits(c, carry);
    ReadLineConserves(carry, c);
    ReadLineMeaning(carry, c);
    var done, c' := Done(c, carry), ReadLine(carry, c).conn;
    assert c'.received == done + (carry + Got(c, c'));
    RequestsOfPart(done, carry + Got(c, c'));
    Chunking.ReadLineKeepsEnding(carry, c);
    NotClean(done, carry + Arriving(c.input), Breaks(c.input));
  }

  lemma NotClean(done: seq<byte>, total: seq<byte>, breaks: bool)
    requires Lines.Tail(done) == []
    requires var p := IndexOf(total, NL); p > MAX_LINE - BLOCK || (p == |total| && (total != [] || breaks))
    ensures breaks || Lines.Tail(done + total) != [] || !Chunking.LinesFit(done + total)
  {
    if IndexOf(total, NL) < |total| {
      LongLine(done, total);
    } else {
      Lines.TailConcat(done, total);
      IndexOfNone(total, NL);
      Lines.NoLine(total);
      assert [] + total == total;
    }
  }

  lemma LongLine(done: seq<byte>, total: seq<byte>)
    requires Lines.Tail(done) == [] && MAX_LINE - BLOCK < IndexOf(total, NL) < |total|
    ensures !Chunking.LinesFit(done + total)
  {
    assert [] + total == total;
    Lines.SplitConcat(done, total, total);
    var l := Lines.Split(total)[0];
    assert l == total[..IndexOf(total, NL)];
    assert l in Lines.Split(done + total);
  }

  /** Serving a line leaves a live connection, or one whose last response was cut short. */
  lemma ServedLine<A>(lib: Lib<A>, app: A, fd: int, c: Conn, carry: seq<byte>)
    requires Live(c, carry) && NulFree(c.Stream()) && ReadLine(carry, c).out.Line?
    ensures var r := ReadLine(carry, c);
            var s := ServeLine(lib, app, fd, r.out.text, r.conn);
            && s.conn.Stream() == c.Stream()
            && (s.ok ==> Live(s.conn, r.carry) == true)
            && (!s.ok ==> Ended(s.conn, BadWrite) == true)
  {
    var r := ReadLine(carry, c);
    ReadKeeps(c, carry);
    ServedNext(lib, app, fd, r.out.text, r.conn, r.carry);
  }

  /** The request that comes next in what was received is served. */
  lemma ServedNext<A>(lib: Lib<A>, app: A, fd: int, text: seq<byte>, c: Conn, carry: seq<byte>)
    requires |carry| < BLOCK && |carry| <= |c.received| && c.received[|c.received| - |carry|..] == carry
    requires c.sent == RepliesOf(c.served) && Lines.Tail(Done(c, carry)) == []
    requires Lines.Requests(Done(c, carry)) == RequestsOf(c.served) + if text == [] then [] else [text]
    ensures var s := ServeLine(lib, app, fd, text, c);
            && s.conn.Stream() == c.Stream()
            && (s.ok ==> Live(s.conn, carry))
            && (!s.ok ==> Ended(s.conn, BadWrite))
  {
    var s := ServeLine(lib, app, fd, text, c);
    ServeKeeps(lib, app, fd, text, c);
    StillServedUpTo(c, s.conn, carry);
  }

  lemma StillServedUpTo(before: Conn, after: Conn, carry: seq<byte>)
    requires after.received == before.received && |carry| <= |before.received|
    requires Lines.Tail(Done(before, carry)) == []
    requires RequestsOf(after.served) == Lines.Requests(Done(before, carry))
    ensures Done(after, carry) == Done(before, carry) && ServedUpTo(after, Done(after, carry))
    ensures exists n: nat :: n <= |after.received| && ServedUpTo(after, after.received[..n])
  {
    assert Done(after, carry) == after.received[..|after.received| - |carry|];
  }

  /** Serving a ready client keeps its history right, and leaves no unread byte behind if it stays. */
  lemma {:induction false} DrainKeeps<A>(lib: Lib<A>, app: A, fd: int, c: Conn, carry: seq<byte>)
    requires Live(c, carry) && NulFree(c.Stream())
    ensures var d := Drain(lib, app, fd, c, carry);
            && d.conn.Stream() == c.Stream()
            && (d.why == None ==> d.carry == [] && Live(d.conn, []))
            && (d.why != None ==> d.why != Some(Shutdown) && Ended(d.conn, d.why.value))
    decreases |carry| + |Arriving(c.input)|
  {
    match ReadLine(carry, c).out {
      case EndOfStream => EndKeeps(c, carry);
      case Failed => FailKeeps(c, carry);
      case Line(text) => ServedLine(lib, app, fd, c, carry);
    }
    var t := Turn(lib, app, fd, c, carry);
    if t.why == None && t.carry != [] {
      DrainKeeps(lib, t.app, fd, t.conn, t.carry);
    }
  }

  // ---- What a history says about the stream

  lemma PrefixOfStream(done: seq<byte>, rest: seq<byte>)
    ensures Lines.Requests(done) <= Lines.Requests(done + rest)
  {
    Lines.RequestsConcat(done, rest);
  }

  /** At any time the requests served are, in order, the first requests of the connection's own stream. */
  lemma LiveIsPrefix(c: Conn, carry: seq<byte>)
    requires Live(c, carry)
    ensures RequestsOf(c.served) <= Lines.Requests(c.Stream())
  {
    LiveSplits(c, carry);
    PrefixOfStream(Done(c, carry), carry + Arriving(c.input));
  }

  lemma PrefixOfReceived(received: seq<byte>, n: nat, rest: seq<byte>)
    requires n <= |received|
    ensures Lines.Requests(received[..n]) <= Lines.Requests(received + rest)
  {
    assert received + rest == received[..n] + (received[n..] + rest);
    PrefixOfStream(received[..n], received[n..] + rest);
  }

  /** After a disconnect they are all of them. */
  lemma EndedIsPrefix(c: Conn, why: Why)
    requires Ended(c, why)
    ensures RequestsOf(c.served) <= Lines.Requests(c.Stream())
    ensures why == Disconnected ==> RequestsOf(c.served) == Lines.Requests(c.Stream())
  {
    match why
    case Disconnected =>
    case BadRead => PrefixOfStream(c.received, Arriving(c.input));
    case BadWrite =>
      var n: nat :| n <= |c.received| && ServedUpTo(c, c.received[..n]);
      PrefixOfReceived(c.received, n, Arriving(c.input));
    case Shutdown => LiveIsPrefix(c, []);
  }
}
