/**
 * What the server loop does, as opposed to what it never does: how a run ends, that a client with something to
 * say is heard, that one that has hung up is removed, and that nobody else is touched.
 */
module Progress {
  import opened Bytes
  import opened System
  import opened CReadLine
  import opened RwN
  import opened Sessions
  import opened Sockets
  import opened Server
  import Chunking
  import Framing
  import Lines

  // ---- How a run ends

  /** A report after which the server returns. */
  predicate Ends(ev: Event) {
    ev.SelectFails? || ev.shutdown || ev.accept.AcceptFails?
  }

  predicate Shuts(ev: Event) {
    ev.Select? && ev.shutdown
  }

  /** Each of the clients once, removed for the shutdown, with its connection as it stands. */
  function Dismissed(fds: seq<int>, conns: map<int, Conn>): seq<Gone>
    requires forall i :: 0 <= i < |fds| ==> fds[i] in conns
  {
    if fds == [] then [] else [Gone(fds[0], conns[fds[0]], Shutdown)] + Dismissed(fds[1..], conns)
  }

  lemma {:induction false} DismissedAt(fds: seq<int>, conns: map<int, Conn>)
    requires forall i :: 0 <= i < |fds| ==> fds[i] in conns
    ensures |Dismissed(fds, conns)| == |fds|
    ensures forall i :: 0 <= i < |fds| ==> Dismissed(fds, conns)[i] == Gone(fds[i], conns[fds[i]], Shutdown)
  {
    if fds != [] {
      DismissedAt(fds[1..], conns);
    }
  }

  lemma {:induction false} DismissedWithout(fds: seq<int>, conns: map<int, Conn>, fd: int)
    requires fd !in fds && forall i :: 0 <= i < |fds| ==> fds[i] in conns
    ensures Dismissed(fds, conns - {fd}) == Dismissed(fds, conns)
  {
    if fds != [] {
      DismissedWithout(fds[1..], conns, fd);
    }
  }

  /** Removing clients one after the other enters each in the history. */
  lemma {:induction false} RemoveAllDismisses<A>(lib: Lib<A>, w: World<A>, fds: seq<int>)
    requires WellFormed(w) && Distinct(fds) && forall fd :: fd in fds ==> fd in w.clients
    ensures forall i :: 0 <= i < |fds| ==> fds[i] in w.conns
    ensures RemoveAll(lib, w, fds).gone == w.gone + Dismissed(fds, w.conns)
    ensures |RemoveAll(lib, w, fds).clients| == |w.clients| - |fds|
    decreases |fds|
  {
    forall i | 0 <= i < |fds| ensures fds[i] in w.conns {
      assert fds[i] in w.clients && fds[i] in w.carry;
    }
    if fds != [] {
      RemoveWellFormed(lib, w, fds[0], Shutdown);
      assert forall fd :: fd in fds[1..] ==> fd in fds && fd != fds[0];
      assert |Remove(lib, w, fds[0], Shutdown).clients| == |w.clients| - 1;
      RemoveAllDismisses(lib, Remove(lib, w, fds[0], Shutdown), fds[1..]);
      DismissedCons(fds, w.conns, w.gone);
    }
  }

  lemma DismissedCons(fds: seq<int>, conns: map<int, Conn>, gone: seq<Gone>)
    requires fds != [] && fds[0] !in fds[1..] && forall i :: 0 <= i < |fds| ==> fds[i] in conns
    requires forall i :: 0 <= i < |fds[1..]| ==> fds[1..][i] in conns - {fds[0]}
    ensures gone + [Gone(fds[0], conns[fds[0]], Shutdown)] + Dismissed(fds[1..], conns - {fds[0]})
         == gone + Dismissed(fds, conns)
  {
    DismissedWithout(fds[1..], conns, fds[0]);
    Lines.Assoc(gone, [Gone(fds[0], conns[fds[0]], Shutdown)], Dismissed(fds[1..], conns));
  }

  /** A shutdown returns 0, closes every connection and takes each client off the list, once, as it stood. */
  lemma ShutdownIsOrderly<A>(lib: Lib<A>, w: World<A>, ev: Event)
    requires WellFormed(w) && Plausible(lib, w, ev) && Shuts(ev)
    ensures forall i :: 0 <= i < |w.clients| ==> w.clients[i] in w.conns
    ensures var o := Step(lib, w, ev);
            && o.Returned? && o.code == 0
            && o.world.clients == [] && o.world.conns == map[] && o.world.num == 0
            && o.world.gone == w.gone + Dismissed(w.clients, w.conns)
  {
    AllDismissed(lib, w);
    assert Step(lib, w, ev) == Returned(0, RemoveAll(lib, w, w.clients));
  }

  lemma AllDismissed<A>(lib: Lib<A>, w: World<A>)
    requires WellFormed(w)
    ensures forall i :: 0 <= i < |w.clients| ==> w.clients[i] in w.conns
    ensures var r := RemoveAll(lib, w, w.clients);
            && r.clients == [] && r.conns == map[] && r.num == 0
            && r.gone == w.gone + Dismissed(w.clients, w.conns)
  {
    RemoveAllDismisses(lib, w, w.clients);
    var r := RemoveAll(lib, w, w.clients);
    NobodyListed(r);
  }

  lemma NobodyListed<A>(w: World<A>)
    requires WellFormed(w)
    ensures w.clients == [] ==> w.conns == map[] && w.num == 0
  {
    if w.clients == [] {
      assert forall fd :: fd !in w.carry;
      assert w.carry.Keys == {};
      assert w.conns.Keys == {};
    }
  }

  /** Which report ends a run, and how: 0 after a shutdown, -1 after a failure. */
  lemma StepEndsIff<A>(lib: Lib<A>, w: World<A>, ev: Event)
    requires WellFormed(w) && Plausible(lib, w, ev)
    ensures Step(lib, w, ev).Returned? <==> Ends(ev)
    ensures Ends(ev) ==> Step(lib, w, ev).code == if Shuts(ev) then 0 else -1
  {
  }

  /** The first report that ends a run, if there is one. */
  function EndOf(evs: seq<Event>): (i: nat)
    ensures i <= |evs| && (i < |evs| ==> Ends(evs[i]))
    ensures forall j :: 0 <= j < i ==> !Ends(evs[j])
  {
    if evs == [] || Ends(evs[0]) then 0 else 1 + EndOf(evs[1..])
  }

  /**
   * A run ends with the first report that ends one, with 0 exactly if that is a shutdown and -1 if it is a
   * failure, and goes on as long as there is none.
   */
  lemma {:induction false} RunEndsIff<A>(lib: Lib<A>, w: World<A>, evs: seq<Event>)
    requires WellFormed(w) && PlausibleRun(lib, w, evs)
    ensures Run(lib, w, evs).Returned? <==> EndOf(evs) < |evs|
    ensures EndOf(evs) < |evs| ==> Run(lib, w, evs).code == if Shuts(evs[EndOf(evs)]) then 0 else -1
    ensures EndOf(evs) < |evs| && Shuts(evs[EndOf(evs)]) ==>
              Run(lib, w, evs).world.clients == [] && Run(lib, w, evs).world.conns == map[]
    decreases |evs|
  {
    if evs != [] {
      StepEndsIff(lib, w, evs[0]);
      if Ends(evs[0]) {
        if Shuts(evs[0]) {
          ShutdownIsOrderly(lib, w, evs[0]);
        }
      } else {
        RunEndsIff(lib, Step(lib, w, evs[0]).world, evs[1..]);
      }
    }
  }

  /** Any descriptor that is not open can come next, on any connection on which nothing has happened. */
  lemma NewcomersArePlausible<A>(lib: Lib<A>, w: World<A>, ready: set<int>, fd: int, c: Conn)
    requires WellFormed(w) && fd >= 0 && fd !in w.conns
    requires c.received == [] && c.sent == [] && c.served == []
    ensures Plausible(lib, w, Select(false, ready, Newcomer(fd, c)))
  {
    ServeAllAddsNobody(lib, w, w.clients, ready);
  }

  lemma {:induction false} ServeAllAddsNobody<A>(lib: Lib<A>, w: World<A>, fds: seq<int>, ready: set<int>)
    requires WellFormed(w) && Distinct(fds) && forall fd :: fd in fds ==> fd in w.clients
    ensures forall fd :: fd in ServeAll(lib, w, fds, ready).conns ==> fd in w.conns
    decreases |fds|
  {
    if fds != [] {
      ServeClientWellFormed(lib, w, fds[0]);
      assert forall fd :: fd in fds[1..] ==> fd in fds && fd != fds[0];
      ServeAllAddsNobody(lib, if fds[0] in ready then ServeClient(lib, w, fds[0]) else w, fds[1..], ready);
    }
  }

  // ---- A client with something to say is heard

  lemma {:induction false} ScanShortens(buf: seq<byte>, size: nat, c: Conn)
    ensures var s := Scan(buf, size, c);
            |s.conn.input| <= |c.input| && (s.Found? ==> |s.conn.input| < |c.input|)
    decreases |c.input|
  {
    var size' := Grown(size, |buf|);
    if size' <= MAX_LINE && c.input != [] {
      match c.input[0]
      case ReadFailure =>
      case Interrupted => ScanShortens(buf, size', AfterRead(c));
      case Chunk(d) => ScanShortens(buf + d, size', AfterRead(c));
    }
  }

  /** A call uses up input, at least one report of read() if nothing was carried over. */
  lemma ReadLineShortens(carry: seq<byte>, c: Conn)
    ensures |ReadLine(carry, c).conn.input| <= |c.input|
    ensures carry == [] && ReadLine(carry, c).out.Line? ==> |ReadLine(carry, c).conn.input| < |c.input|
  {
    ScanShortens(StrNCpy(carry), BLOCK, c);
  }

  /** A connection on which neither reading nor writing ever gives a reason to drop it. */
  ghost predicate Sound(c: Conn) {
    NulFree(c.Stream()) && Clean(c) && !Refuses(c.output)
  }

  /** `after` is `before` some time later. */
  ghost predicate Later(before: Conn, after: Conn) {
    && after.Stream() == before.Stream() && before.received <= after.received
    && |after.input| <= |before.input| && Breaks(after.input) == Breaks(before.input)
    && (Sound(before) ==> Sound(after))
  }

  lemma ReadingIsLater(carry: seq<byte>, c: Conn)
    requires |carry| < BLOCK
    ensures Later(c, ReadLine(carry, c).conn)
  {
    ReadLineConserves(carry, c);
    ReadLineShortens(carry, c);
    Chunking.ReadLineKeepsEnding(carry, c);
  }

  /** Serving a line succeeds if write() never refuses. */
  lemma ServingIsLater<A>(lib: Lib<A>, app: A, fd: int, line: seq<byte>, c: Conn)
    ensures var s := ServeLine(lib, app, fd, line, c);
            && s.conn.Stream() == c.Stream() && s.conn.received == c.received && s.conn.input == c.input
            && (!Refuses(c.output) ==> s.ok && !Refuses(s.conn.output))
  {
    if line != [] {
      var reply := (lib.proc)(app, fd, line).1;
      if reply.Some? {
        WriteAllExactly(c.output, |Framing.Frame(reply.value)|);
      }
    }
  }

  lemma TurnIsLater<A>(lib: Lib<A>, app: A, fd: int, c: Conn, carry: seq<byte>)
    requires Live(c, carry) && NulFree(c.Stream())
    ensures var t := Turn(lib, app, fd, c, carry);
            Later(c, t.conn) && (Sound(c) ==> t.why == None || t.why == Some(Disconnected))
  {
    var r := ReadLine(carry, c);
    ReadingIsLater(carry, c);
    match r.out
    case EndOfStream =>
    case Failed => FailKeeps(c, carry);
    case Line(text) => ServingIsLater(lib, app, fd, text, r.conn);
  }

  lemma TurnKeepsLive<A>(lib: Lib<A>, app: A, fd: int, c: Conn, carry: seq<byte>)
    requires Live(c, carry) && NulFree(c.Stream()) && Turn(lib, app, fd, c, carry).why == None
    ensures var t := Turn(lib, app, fd, c, carry);
            Live(t.conn, t.carry) && NulFree(t.conn.Stream())
  {
    ServedLine(lib, app, fd, c, carry);
  }

  /** Time passes, and only end of file ends a sound connection. */
  ghost predicate GoesOn<A>(c: Conn, d: Drained<A>) {
    Later(c, d.conn) && (Sound(c) ==> d.why == None || d.why == Some(Disconnected))
  }

  lemma GoesOnAndOn<A>(c: Conn, t: Drained<A>, d: Drained<A>)
    requires GoesOn(c, t) && GoesOn(t.conn, d)
    ensures GoesOn(c, d)
  {
  }

  lemma {:induction false} DrainGoesOn<A>(lib: Lib<A>, app: A, fd: int, c: Conn, carry: seq<byte>)
    requires Live(c, carry) && NulFree(c.Stream())
    ensures GoesOn(c, Drain(lib, app, fd, c, carry)) == true
    decreases |carry| + |Arriving(c.input)|
  {
    var t := Turn(lib, app, fd, c, carry);
    TurnIsLater(lib, app, fd, c, carry);
    if t.why == None && t.carry != [] {
      TurnKeepsLive(lib, app, fd, c, carry);
      DrainGoesOn(lib, t.app, fd, t.conn, t.carry);
      GoesOnAndOn(c, t, Drain(lib, t.app, fd, t.conn, t.carry));
    }
  }

  lemma TurnHears<A>(lib: Lib<A>, app: A, fd: int, c: Conn)
    requires NulFree(c.Stream())
    ensures var t := Turn(lib, app, fd, c, []);
            var p := IndexOf(Arriving(c.input), NL);
            && (t.why == None ==>
                  p < |Arriving(c.input)| && |t.conn.received| > |c.received| + p && |t.conn.input| < |c.input|)
            && (Arriving(c.input) == [] && !Breaks(c.input) ==> t.why == Some(Disconnected))
  {
    var total := Arriving(c.input);
    assert [] + total == total;
    NulFreeParts(c.received, total);
    ReadLineMeaning([], c);
    ReadLineShortens([], c);
    var r := ReadLine([], c);
    assert [] + Got(c, r.conn) == Got(c, r.conn);
    if r.out.Line? {
      ServingIsLater(lib, app, fd, r.out.text, r.conn);
    }
  }

  /** With an empty carry, as at select(): a client is read up to a newline at least, or has to go. */
  lemma DrainHears<A>(lib: Lib<A>, app: A, fd: int, c: Conn)
    requires Live(c, []) && NulFree(c.Stream())
    ensures var d := Drain(lib, app, fd, c, []);
            var p := IndexOf(Arriving(c.input), NL);
            && (d.why == None ==>
                  p < |Arriving(c.input)| && |d.conn.received| > |c.received| + p && |d.conn.input| < |c.input|)
            && (Arriving(c.input) == [] && !Breaks(c.input) ==> d.why == Some(Disconnected))
  {
    var t := Turn(lib, app, fd, c, []);
    TurnHears(lib, app, fd, c);
    if t.why == None && t.carry != [] {
      TurnKeepsLive(lib, app, fd, c, []);
      DrainGoesOn(lib, t.app, fd, t.conn, t.carry);
    }
  }

  // ---- In every round

  /** What a round makes of a connection: it goes on, or it has been entered in the history with a reason. */
  ghost predicate Comes<A>(w: World<A>, w': World<A>, fd: int, d: Conn, why: Option<Why>) {
    if why == None then fd in w'.clients && fd in w'.conns && w'.conns[fd] == d
    else w.gone <= w'.gone && Gone(fd, d, why.value) in w'.gone[|w.gone|..]
  }

  lemma {:induction false} HistoryGrows<A>(lib: Lib<A>, w: World<A>, fds: seq<int>, ready: set<int>)
    requires WellFormed(w) && Distinct(fds) && forall fd :: fd in fds ==> fd in w.clients
    ensures w.gone <= ServeAll(lib, w, fds, ready).gone
    decreases |fds|
  {
    if fds != [] {
      ServeClientWellFormed(lib, w, fds[0]);
      assert forall fd :: fd in fds[1..] ==> fd in fds && fd != fds[0];
      HistoryGrows(lib, if fds[0] in ready then ServeClient(lib, w, fds[0]) else w, fds[1..], ready);
    }
  }

  /** A client that is not visited keeps its connection. */
  lemma {:induction false} Unvisited<A>(lib: Lib<A>, w: World<A>, fds: seq<int>, ready: set<int>, fd: int)
    requires WellFormed(w) && Distinct(fds) && forall g :: g in fds ==> g in w.clients
    requires fd in w.clients && !(fd in fds && fd in ready)
    ensures var r := ServeAll(lib, w, fds, ready);
            && fd in r.clients && fd in r.conns && fd in w.conns && fd in r.carry && fd in w.carry
            && r.conns[fd] == w.conns[fd] && r.carry[fd] == w.carry[fd]
    decreases |fds|
  {
    assert fd in w.carry;
    if fds != [] {
      ServeClientWellFormed(lib, w, fds[0]);
      assert forall g :: g in fds[1..] ==> g in fds && g != fds[0];
      assert fds[0] in fds;
      Unvisited(lib, if fds[0] in ready then ServeClient(lib, w, fds[0]) else w, fds[1..], ready, fd);
    }
  }

  /** A client that is visited is served, whatever the context has become by then. */
  lemma {:induction false} Visited<A>(lib: Lib<A>, w: World<A>, fds: seq<int>, ready: set<int>, fd: int)
    returns (app: A)
    requires WellFormed(w) && Distinct(fds) && forall g :: g in fds ==> g in w.clients
    requires fd in fds && fd in ready
    ensures fd in w.conns && fd in w.carry && |w.carry[fd]| < BLOCK
    ensures var d := Drain(lib, app, fd, w.conns[fd], w.carry[fd]);
            Comes(w, ServeAll(lib, w, fds, ready), fd, d.conn, d.why)
    decreases |fds|
  {
    assert fd in w.clients && fd in w.carry;
    ServeClientWellFormed(lib, w, fds[0]);
    assert forall g :: g in fds[1..] ==> g in fds && g != fds[0];
    var w1 := if fds[0] in ready then ServeClient(lib, w, fds[0]) else w;
    HistoryGrows(lib, w1, fds[1..], ready);
    if fds[0] == fd {
      app := w.app;
      var d := Drain(lib, app, fd, w.conns[fd], w.carry[fd]);
      if d.why == None {
        Unvisited(lib, w1, fds[1..], ready, fd);
      } else {
        EnteredStays(w, w1, ServeAll(lib, w, fds, ready), Gone(fd, d.conn, d.why.value));
      }
    } else {
      app := Visited(lib, w1, fds[1..], ready, fd);
      ComesLater(w, w1, ServeAll(lib, w, fds, ready), fd, Drain(lib, app, fd, w.conns[fd], w.carry[fd]));
    }
  }

  lemma EnteredStays<A>(w: World<A>, w1: World<A>, w2: World<A>, g: Gone)
    requires w1.gone == w.gone + [g] && w1.gone <= w2.gone
    ensures w.gone <= w2.gone && g in w2.gone[|w.gone|..]
  {
    assert w2.gone[|w.gone|..][0] == g;
  }

  lemma ComesLater<A>(w: World<A>, w1: World<A>, w2: World<A>, fd: int, d: Drained<A>)
    requires w.gone <= w1.gone && Comes(w1, w2, fd, d.conn, d.why)
    ensures Comes(w, w2, fd, d.conn, d.why)
  {
    if d.why != None {
      assert w2.gone[|w1.gone|..] == w2.gone[|w.gone|..][|w1.gone| - |w.gone|..];
    }
  }

  /** The client has been removed in between, for the reason if one is given, with its own stream. */
  ghost predicate Left<A>(w: World<A>, w': World<A>, fd: int, why: Option<Why>)
    requires fd in w.conns
  {
    && w.gone <= w'.gone
    && exists g :: g in w'.gone[|w.gone|..] && g.fd == fd && (why.Some? ==> g.why == why.value)
                   && g.conn.Stream() == w.conns[fd].Stream() && w.conns[fd].received <= g.conn.received
  }

  /** It is still there, was read up to the next newline at least, and all of its requests so far are served. */
  ghost predicate Heard<A>(w: World<A>, w': World<A>, fd: int)
    requires fd in w.conns
  {
    && fd in w'.clients && fd in w'.conns
    && var c, c' := w.conns[fd], w'.conns[fd];
       && Later(c, c') && |c'.input| < |c.input|
       && NL in Arriving(c.input) && |c'.received| > |c.received| + IndexOf(Arriving(c.input), NL)
       && RequestsOf(c'.served) == Lines.Requests(c'.received)
  }

  lemma ServedInWalk<A>(lib: Lib<A>, w: World<A>, ready: set<int>, fd: int)
    requires Inv(w) && fd in w.clients && fd in ready && fd in w.conns && NulFree(w.conns[fd].Stream())
    ensures var r := ServeAll(lib, w, w.clients, ready);
            && (Left(w, r, fd, None) || Heard(w, r, fd))
            && (Arriving(w.conns[fd].input) == [] && !Breaks(w.conns[fd].input) ==> Left(w, r, fd, Some(Disconnected)))
            && (Sound(w.conns[fd]) ==> Left(w, r, fd, Some(Disconnected)) || Heard(w, r, fd))
  {
    var c := w.conns[fd];
    var r := ServeAll(lib, w, w.clients, ready);
    var app := Visited(lib, w, w.clients, ready, fd);
    var d := Drain(lib, app, fd, c, []);
    DrainHears(lib, app, fd, c);
    DrainGoesOn(lib, app, fd, c, []);
    ServeAllKeepsInv(lib, w, w.clients, ready);
    IndexOfNone(Arriving(c.input), NL);
    if d.why != None {
      var g := Gone(fd, d.conn, d.why.value);
      assert g in r.gone[|w.gone|..] && g.conn.Stream() == c.Stream();
    } else {
      LastServed(r, fd);
    }
  }

  lemma LastServed<A>(w: World<A>, fd: int)
    requires Inv(w) && fd in w.conns && NulFree(w.conns[fd].Stream())
    ensures RequestsOf(w.conns[fd].served) == Lines.Requests(w.conns[fd].received)
  {
    var c := w.conns[fd];
    assert Live(c, []) && Done(c, []) == c.received;
  }

  /** What the walk does stands in the round: a newcomer has another descriptor, or the history stays. */
  lemma AdmitKeeps<A>(w: World<A>, r: World<A>, fd: int, g: int, c: Conn, why: Option<Why>)
    requires fd in w.conns && g !in r.conns
    ensures Left(w, r, fd, why) ==> Left(w, Admit(r, g, c), fd, why)
    ensures Heard(w, r, fd) ==> Heard(w, Admit(r, g, c), fd)
  {
  }

  /**
   * A client that select() reports ready is heard in that very round, or has to go: read up to its next newline
   * at least, with all of its requests so far served, or removed, for end of file if nothing else is left of its
   * stream, and for nothing else if its stream is sound.
   */
  lemma ReadyIsHeard<A>(lib: Lib<A>, w: World<A>, ev: Event, fd: int)
    requires Inv(w) && Plausible(lib, w, ev) && ev.Select? && !ev.shutdown
    requires fd in w.clients && fd in ev.ready && fd in w.conns && NulFree(w.conns[fd].Stream())
    ensures var w' := Step(lib, w, ev).world;
            && (Left(w, w', fd, None) || Heard(w, w', fd))
            && (Arriving(w.conns[fd].input) == [] && !Breaks(w.conns[fd].input) ==> Left(w, w', fd, Some(Disconnected)))
            && (Sound(w.conns[fd]) ==> Left(w, w', fd, Some(Disconnected)) || Heard(w, w', fd))
  {
    var r := ServeAll(lib, w, w.clients, ev.ready);
    ServedInWalk(lib, w, ev.ready, fd);
    if ev.accept.Newcomer? {
      AdmitKeeps(w, r, fd, ev.accept.fd, ev.accept.conn, None);
      AdmitKeeps(w, r, fd, ev.accept.fd, ev.accept.conn, Some(Disconnected));
    }
  }

  /** Nobody else is touched: a client that is not reported ready keeps its connection as it is. */
  lemma NotReadyIsLeftAlone<A>(lib: Lib<A>, w: World<A>, ev: Event, fd: int)
    requires WellFormed(w) && Plausible(lib, w, ev) && fd in w.clients
    requires ev.Select? ==> !ev.shutdown && fd !in ev.ready
    ensures var w' := Step(lib, w, ev).world;
            && fd in w.conns && fd in w'.clients && fd in w'.conns && w'.conns[fd] == w.conns[fd]
  {
    assert fd in w.carry;
    if ev.Select? {
      Unvisited(lib, w, w.clients, ev.ready, fd);
    }
  }

  // ---- In every run

  lemma StepHistoryGrows<A>(lib: Lib<A>, w: World<A>, ev: Event)
    requires WellFormed(w) && Plausible(lib, w, ev)
    ensures w.gone <= Step(lib, w, ev).world.gone
  {
    if ev.Select? {
      if ev.shutdown {
        RemoveAllDismisses(lib, w, w.clients);
      } else {
        HistoryGrows(lib, w, w.clients, ev.ready);
      }
    }
  }

  lemma {:induction false} RunHistoryGrows<A>(lib: Lib<A>, w: World<A>, evs: seq<Event>)
    requires WellFormed(w) && PlausibleRun(lib, w, evs)
    ensures w.gone <= Run(lib, w, evs).world.gone
    decreases |evs|
  {
    if evs != [] {
      StepHistoryGrows(lib, w, evs[0]);
      if Step(lib, w, evs[0]).Running? {
        RunHistoryGrows(lib, Step(lib, w, evs[0]).world, evs[1..]);
      }
    }
  }

  /** How often a descriptor is reported ready. */
  function ReadyCount(evs: seq<Event>, fd: int): nat {
    if evs == [] then 0 else (if evs[0].Select? && fd in evs[0].ready then 1 else 0) + ReadyCount(evs[1..], fd)
  }

  /** The client has gone because it hung up, after all of its requests were served and answered. */
  ghost predicate ServedToTheEnd(gone: seq<Gone>, fd: int, stream: seq<byte>) {
    exists g :: g in gone && g.fd == fd && g.why == Disconnected && g.conn.Stream() == stream
                && RequestsOf(g.conn.served) == Lines.Requests(stream) && g.conn.sent == RepliesOf(g.conn.served)
  }

  lemma LeftStays<A>(w: World<A>, w1: World<A>, w2: World<A>, fd: int)
    requires fd in w.conns && Left(w, w1, fd, Some(Disconnected)) && w1.gone <= w2.gone && Inv(w2)
    requires NulFree(w.conns[fd].Stream())
    ensures ServedToTheEnd(w2.gone[|w.gone|..], fd, w.conns[fd].Stream())
  {
    var g :| g in w1.gone[|w.gone|..] && g.fd == fd && g.why == Disconnected
             && g.conn.Stream() == w.conns[fd].Stream() && w.conns[fd].received <= g.conn.received;
    assert w2.gone[|w.gone|..][..|w1.gone| - |w.gone|] == w1.gone[|w.gone|..];
    assert g in w2.gone[|w.gone|..] && g in w2.gone;
  }

  lemma SuffixOfSuffix(gone: seq<Gone>, i: nat, j: nat, fd: int, stream: seq<byte>)
    requires i <= j <= |gone| && ServedToTheEnd(gone[j..], fd, stream)
    ensures ServedToTheEnd(gone[i..], fd, stream)
  {
    assert gone[j..] == gone[i..][j - i..];
  }

  /**
   * In every run that goes on long enough: a client on a sound connection that is reported ready more often than
   * read() has anything to report on it has been served to the end.
   */
  lemma {:induction false} HeardInTime<A>(lib: Lib<A>, w: World<A>, evs: seq<Event>, fd: int)
    requires Inv(w) && PlausibleRun(lib, w, evs) && EndOf(evs) == |evs|
    requires fd in w.clients && fd in w.conns && Sound(w.conns[fd])
    requires ReadyCount(evs, fd) > |w.conns[fd].input|
    ensures w.gone <= Run(lib, w, evs).world.gone
    ensures ServedToTheEnd(Run(lib, w, evs).world.gone[|w.gone|..], fd, w.conns[fd].Stream())
    decreases |evs|
  {
    var w1 := Step(lib, w, evs[0]).world;
    var r := Run(lib, w, evs).world;
    StepEndsIff(lib, w, evs[0]);
    StepKeepsInv(lib, w, evs[0]);
    StepHistoryGrows(lib, w, evs[0]);
    RunHistoryGrows(lib, w1, evs[1..]);
    RunKeepsInv(lib, w1, evs[1..]);
    if fd in evs[0].ready {
      ReadyIsHeard(lib, w, evs[0], fd);
    } else {
      NotReadyIsLeftAlone(lib, w, evs[0], fd);
    }
    if Left(w, w1, fd, Some(Disconnected)) {
      LeftStays(w, w1, r, fd);
    } else {
      HeardInTime(lib, w1, evs[1..], fd);
      SuffixOfSuffix(r.gone, |w.gone|, |w1.gone|, fd, w.conns[fd].Stream());
    }
  }

  // ---- From the moment it connects

  function Newcomers(evs: seq<Event>): nat {
    if evs == [] then 0
    else (if evs[0].Select? && evs[0].accept.Newcomer? then 1 else 0) + Newcomers(evs[1..])
  }

  /** The limit, if there is one, lets in everyone who is to come. */
  predicate Room<A>(w: World<A>, evs: seq<Event>) {
    w.cap == 0 || |w.clients| + Newcomers(evs) <= w.cap
  }

  lemma {:induction false} ServeAllShortens<A>(lib: Lib<A>, w: World<A>, fds: seq<int>, ready: set<int>)
    requires WellFormed(w) && Distinct(fds) && forall fd :: fd in fds ==> fd in w.clients
    ensures |ServeAll(lib, w, fds, ready).clients| <= |w.clients|
    decreases |fds|
  {
    if fds != [] {
      ServeClientWellFormed(lib, w, fds[0]);
      assert forall fd :: fd in fds[1..] ==> fd in fds && fd != fds[0];
      ServeAllShortens(lib, if fds[0] in ready then ServeClient(lib, w, fds[0]) else w, fds[1..], ready);
    }
  }

  lemma RoomStays<A>(lib: Lib<A>, w: World<A>, evs: seq<Event>)
    requires WellFormed(w) && evs != [] && Plausible(lib, w, evs[0]) && !Ends(evs[0]) && Room(w, evs)
    ensures Room(Step(lib, w, evs[0]).world, evs[1..])
  {
    ServeAllShortens(lib, w, w.clients, evs[0].ready);
    ServeAllKeepsCap(lib, w, w.clients, evs[0].ready);
  }

  /** In every such run a newcomer on a sound connection for whom there is room is served to the end. */
  lemma {:induction false} NewcomerIsHeard<A>(
    lib: Lib<A>, w: World<A>, evs: seq<Event>, i: nat, ready: set<int>, fd: int, c: Conn)
    requires Inv(w) && PlausibleRun(lib, w, evs) && EndOf(evs) == |evs| && Room(w, evs)
    requires i < |evs| && evs[i] == Select(false, ready, Newcomer(fd, c))
    requires Sound(c) && ReadyCount(evs[i + 1..], fd) > |c.input|
    ensures ServedToTheEnd(Run(lib, w, evs).world.gone, fd, c.Stream())
    decreases |evs|
  {
    var w1 := Step(lib, w, evs[0]).world;
    StepEndsIff(lib, w, evs[0]);
    StepKeepsInv(lib, w, evs[0]);
    if i == 0 {
      ServeAllShortens(lib, w, w.clients, ready);
      AdmittedIff(lib, w, ready, fd, c);
      HeardInTime(lib, w1, evs[1..], fd);
      var r := Run(lib, w, evs).world;
      assert r.gone[0..] == r.gone;
      SuffixOfSuffix(r.gone, 0, |w1.gone|, fd, c.Stream());
    } else {
      RoomStays(lib, w, evs);
      assert evs[1..][i - 1] == evs[i] && evs[1..][i..] == evs[i + 1..];
      NewcomerIsHeard(lib, w1, evs[1..], i - 1, ready, fd, c);
    }
  }
}
