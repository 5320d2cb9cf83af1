/** The server loop of japi_start_server as a state machine over its clients. */
module Server {
  import opened Bytes
  import opened System
  import opened CReadLine
  import opened Sessions
  import opened Sockets
  import Lines
  import Framing

  datatype Gone = Gone(fd: int, conn: Conn, why: Why)

  /** The context and the connections as the server thread sees them at select(). */
  datatype World<A> = World(
    clients: seq<int>,           // ctx->clients, newest first
    carry: map<int, seq<byte>>,  // each client's crl_buffer
    num: nat,                    // ctx->num_clients, 16 bits
    cap: nat,                    // ctx->max_clients, 16 bits; 0 for no limit
    conns: map<int, Conn>,       // open connections
    gone: seq<Gone>,             // history of removed clients, oldest first
    app: A)

  const UINT16 := 0x1_0000

  /** Distinct descriptors, each with an open connection and a carry that fits its buffer. */
  ghost predicate WellFormed<A>(w: World<A>) {
    && Distinct(w.clients)
    && (forall fd :: fd in w.clients <==> fd in w.carry)
    && w.carry.Keys == w.conns.Keys
    && (forall fd :: fd in w.carry ==> |w.carry[fd]| < BLOCK)
    && w.cap < UINT16
    && w.num == |w.clients| % UINT16
    && (w.cap > 0 ==> |w.clients| <= w.cap)
  }

  lemma RemovalCount(n: nat)
    requires n > 0
    ensures (n % UINT16 + UINT16 - 1) % UINT16 == (n - 1) % UINT16
  {
  }

  /** japi_remove_client of a listed client: from all services, from the list, and closed. */
  function Remove<A>(lib: Lib<A>, w: World<A>, fd: int, why: Why): World<A>
    requires fd in w.conns
  {
    w.(app := (lib.drop)(w.app, fd),
       clients := RemoveFirst(w.clients, fd),
       carry := w.carry - {fd},
       num := (w.num + UINT16 - 1) % UINT16,
       conns := w.conns - {fd},
       gone := w.gone + [Gone(fd, w.conns[fd], why)])
  }

  lemma RemoveWellFormed<A>(lib: Lib<A>, w: World<A>, fd: int, why: Why)
    requires WellFormed(w) && fd in w.clients
    ensures WellFormed(Remove(lib, w, fd, why))
    ensures forall g :: g in Remove(lib, w, fd, why).clients <==> g in w.clients && g != fd
  {
    RemoveFirstDistinct(w.clients, fd);
    RemovalCount(|w.clients|);
  }

  /** The client's connection and carry after the drain loop. */
  function Updated<A>(w: World<A>, fd: int, d: Drained<A>): World<A> {
    w.(app := d.app, conns := w.conns[fd := d.conn], carry := w.carry[fd := d.carry])
  }

  /** The body of the walk for one ready client, lines 550-596. */
  function ServeClient<A>(lib: Lib<A>, w: World<A>, fd: int): World<A>
    requires fd in w.conns && fd in w.carry && |w.carry[fd]| < BLOCK
  {
    var d := Drain(lib, w.app, fd, w.conns[fd], w.carry[fd]);
    var w' := Updated(w, fd, d);
    if d.why == None then w' else Remove(lib, w', fd, d.why.value)
  }

  lemma ServeClientWellFormed<A>(lib: Lib<A>, w: World<A>, fd: int)
    requires WellFormed(w) && fd in w.clients
    ensures WellFormed(ServeClient(lib, w, fd))
    ensures forall g :: g != fd ==> (g in ServeClient(lib, w, fd).clients <==> g in w.clients)
  {
    var d := Drain(lib, w.app, fd, w.conns[fd], w.carry[fd]);
    var w' := Updated(w, fd, d);
    if d.why.Some? {
      RemoveWellFormed(lib, w', fd, d.why.value);
    }
  }

  /** The walk over the clients that were listed when it began, lines 537-599. */
  function ServeAll<A>(lib: Lib<A>, w: World<A>, fds: seq<int>, ready: set<int>): (r: World<A>)
    requires WellFormed(w) && Distinct(fds) && forall fd :: fd in fds ==> fd in w.clients
    ensures WellFormed(r)
    decreases |fds|
  {
    if fds == [] then w
    else
      ServeClientWellFormed(lib, w, fds[0]);
      assert forall fd :: fd in fds[1..] ==> fd in fds && fd != fds[0];
      ServeAll(lib, if fds[0] in ready then ServeClient(lib, w, fds[0]) else w, fds[1..], ready)
  }

  /** japi_remove_all_clients */
  function RemoveAll<A>(lib: Lib<A>, w: World<A>, fds: seq<int>): (r: World<A>)
    requires WellFormed(w) && Distinct(fds) && forall fd :: fd in fds ==> fd in w.clients
    ensures WellFormed(r)
    ensures forall fd :: fd in r.clients <==> fd in w.clients && fd !in fds
    decreases |fds|
  {
    if fds == [] then w
    else
      RemoveWellFormed(lib, w, fds[0], Shutdown);
      assert forall fd :: fd in fds[1..] ==> fd in fds && fd != fds[0];
      RemoveAll(lib, Remove(lib, w, fds[0], Shutdown), fds[1..])
  }

  /** japi_add_client */
  function Add<A>(w: World<A>, fd: int, c: Conn): World<A> {
    w.(clients := [fd] + w.clients,
       carry := w.carry[fd := []],
       num := (w.num + 1) % UINT16,
       conns := w.conns[fd := c])
  }

  lemma AddWellFormed<A>(w: World<A>, fd: int, c: Conn)
    requires WellFormed(w) && fd !in w.conns && (w.cap == 0 || w.num < w.cap)
    ensures WellFormed(Add(w, fd, c))
  {
  }

  /** Lines 605-615: a newcomer is added if the limit allows it, else closed at once. */
  function Admit<A>(w: World<A>, fd: int, c: Conn): World<A> {
    if w.cap == 0 || w.num < w.cap then Add(w, fd, c) else w
  }

  /** What the listening socket has to offer in one round. */
  datatype Accept = NoOne | AcceptFails | Newcomer(fd: int, conn: Conn)

  /** What one call of select() reports; a time-out is Select(false, {}, NoOne). */
  datatype Event = SelectFails | Select(shutdown: bool, ready: set<int>, accept: Accept)

  datatype Outcome<A> = Running(world: World<A>) | Returned(code: int, world: World<A>)

  /** accept() returns a descriptor that is not open, on a connection nothing has happened on yet. */
  ghost predicate Plausible<A>(lib: Lib<A>, w: World<A>, ev: Event)
    requires WellFormed(w)
  {
    ev.Select? && !ev.shutdown && ev.accept.Newcomer? ==>
      && ev.accept.fd >= 0 && ev.accept.fd !in ServeAll(lib, w, w.clients, ev.ready).conns
      && ev.accept.conn.received == [] && ev.accept.conn.sent == [] && ev.accept.conn.served == []
  }

  /** One round of the while loop, lines 503-617. */
  function Step<A>(lib: Lib<A>, w: World<A>, ev: Event): (o: Outcome<A>)
    requires WellFormed(w) && Plausible(lib, w, ev)
    ensures WellFormed(o.world)
  {
    match ev
    case SelectFails => Returned(-1, w)
    case Select(shutdown, ready, accept) =>
      if shutdown then Returned(0, RemoveAll(lib, w, w.clients))
      else
        var w' := ServeAll(lib, w, w.clients, ready);
        match accept
        case NoOne => Running(w')
        case AcceptFails => Returned(-1, w')
        case Newcomer(fd, c) =>
          if w'.cap == 0 || w'.num < w'.cap then AddWellFormed(w', fd, c); Running(Admit(w', fd, c))
          else Running(Admit(w', fd, c))
  }

  /** The server's run over what select() and accept() report, until it returns or they stop. */
  function Run<A>(lib: Lib<A>, w: World<A>, evs: seq<Event>): (o: Outcome<A>)
    requires WellFormed(w) && PlausibleRun(lib, w, evs)
    ensures WellFormed(o.world)
    decreases |evs|
  {
    if evs == [] then Running(w)
    else
      var o := Step(lib, w, evs[0]);
      if o.Running? then Run(lib, o.world, evs[1..]) else o
  }

  ghost predicate PlausibleRun<A>(lib: Lib<A>, w: World<A>, evs: seq<Event>)
    requires WellFormed(w)
    decreases |evs|
  {
    evs != [] ==>
      && Plausible(lib, w, evs[0])
      && (Step(lib, w, evs[0]).Running? ==> PlausibleRun(lib, Step(lib, w, evs[0]).world, evs[1..]))
  }

  /** The state japi_init leaves, with the limit set before the first accept. */
  function Initial<A>(cap: nat, app: A): World<A> {
    World([], map[], 0, cap, map[], [], app)
  }

  /** An open connection whose history is right, given that its stream has no NUL. */
  ghost predicate Good(c: Conn, carry: seq<byte>) {
    NulFree(c.Stream()) ==> Live(c, carry)
  }

  ghost predicate GoodEnd(g: Gone) {
    NulFree(g.conn.Stream()) ==> Ended(g.conn, g.why)
  }

  /** What holds at every select(): above all, that no client has bytes left in its carry. */
  ghost predicate Inv<A>(w: World<A>) {
    && WellFormed(w)
    && (forall fd :: fd in w.conns ==> w.carry[fd] == [] && Good(w.conns[fd], []))
    && (forall g :: g in w.gone ==> GoodEnd(g))
  }

  // ---- Every reachable state

  lemma RemoveKeepsInv<A>(lib: Lib<A>, w: World<A>, fd: int, why: Why)
    requires WellFormed(w) && fd in w.clients
    requires forall g :: g in w.conns && g != fd ==> w.carry[g] == [] && Good(w.conns[g], [])
    requires forall g :: g in w.gone ==> GoodEnd(g)
    requires GoodEnd(Gone(fd, w.conns[fd], why))
    ensures Inv(Remove(lib, w, fd, why))
  {
    RemoveWellFormed(lib, w, fd, why);
    var r := Remove(lib, w, fd, why);
    assert forall g :: g in r.gone ==> g in w.gone || g == Gone(fd, w.conns[fd], why);
  }

  lemma ServeClientKeepsInv<A>(lib: Lib<A>, w: World<A>, fd: int)
    requires Inv(w) && fd in w.clients
    ensures Inv(ServeClient(lib, w, fd))
  {
    var d := Drain(lib, w.app, fd, w.conns[fd], w.carry[fd]);
    DrainedIsGood(lib, w.app, fd, w.conns[fd]);
    if d.why.Some? {
      RemoveKeepsInv(lib, Updated(w, fd, d), fd, d.why.value);
    }
  }

  lemma DrainedIsGood<A>(lib: Lib<A>, app: A, fd: int, c: Conn)
    requires Good(c, [])
    ensures var d := Drain(lib, app, fd, c, []);
            if d.why == None then d.carry == [] && Good(d.conn, []) else GoodEnd(Gone(fd, d.conn, d.why.value))
  {
    if NulFree(c.Stream()) {
      DrainKeeps(lib, app, fd, c, []);
    } else {
      DrainKeepsStream(lib, app, fd, c, []);
    }
  }

  /** Serving never alters what the peer sends, NUL bytes or not. */
  lemma {:induction false} DrainKeepsStream<A>(lib: Lib<A>, app: A, fd: int, c: Conn, carry: seq<byte>)
    requires |carry| < BLOCK
    ensures Drain(lib, app, fd, c, carry).conn.Stream() == c.Stream()
    decreases |carry| + |Arriving(c.input)|
  {
    ReadLineConserves(carry, c);
    var t := Turn(lib, app, fd, c, carry);
    if t.why == None && t.carry != [] {
      DrainKeepsStream(lib, t.app, fd, t.conn, t.carry);
    }
  }

  lemma {:induction false} ServeAllKeepsInv<A>(lib: Lib<A>, w: World<A>, fds: seq<int>, ready: set<int>)
    requires Inv(w) && Distinct(fds) && forall fd :: fd in fds ==> fd in w.clients
    ensures Inv(ServeAll(lib, w, fds, ready))
    decreases |fds|
  {
    if fds != [] {
      var w' := if fds[0] in ready then ServeClient(lib, w, fds[0]) else w;
      if fds[0] in ready {
        ServeClientKeepsInv(lib, w, fds[0]);
        ServeClientWellFormed(lib, w, fds[0]);
      }
      assert forall fd :: fd in fds[1..] ==> fd in fds && fd != fds[0];
      ServeAllKeepsInv(lib, w', fds[1..], ready);
    }
  }

  lemma {:induction false} RemoveAllKeepsInv<A>(lib: Lib<A>, w: World<A>, fds: seq<int>)
    requires Inv(w) && Distinct(fds) && forall fd :: fd in fds ==> fd in w.clients
    ensures Inv(RemoveAll(lib, w, fds)) == true
    decreases |fds|
  {
    if fds != [] {
      DismissalKeepsInv(lib, w, fds[0]);
      RemoveWellFormed(lib, w, fds[0], Shutdown);
      assert forall fd :: fd in fds[1..] ==> fd in fds && fd != fds[0];
      RemoveAllKeepsInv(lib, Remove(lib, w, fds[0], Shutdown), fds[1..]);
    }
  }

  lemma DismissalKeepsInv<A>(lib: Lib<A>, w: World<A>, fd: int)
    requires Inv(w) && fd in w.clients
    ensures Inv(Remove(lib, w, fd, Shutdown)) == true
  {
    RemoveKeepsInv(lib, w, fd, Shutdown);
  }

  lemma NewcomerIsLive(c: Conn)
    requires c.received == [] && c.sent == [] && c.served == []
    ensures Live(c, [])
  {
    assert Done(c, []) == [];
    Lines.NoLine([]);
  }

  lemma EmptyOrInhabited<T>(s: seq<T>)
    ensures s == [] || exists x :: x in s
  {
    if s != [] {
      assert s[0] in s;
    }
  }

  lemma AddKeepsInv<A>(w: World<A>, fd: int, c: Conn)
    requires Inv(w) && fd !in w.conns && (w.cap == 0 || w.num < w.cap)
    requires c.received == [] && c.sent == [] && c.served == []
    ensures Inv(Add(w, fd, c))
  {
    AddWellFormed(w, fd, c);
    NewcomerIsLive(c);
  }

  lemma StepKeepsInv<A>(lib: Lib<A>, w: World<A>, ev: Event)
    requires Inv(w) && Plausible(lib, w, ev)
    ensures Inv(Step(lib, w, ev).world) == true
    ensures Step(lib, w, ev).Returned? && Step(lib, w, ev).code == 0 ==> Step(lib, w, ev).world.clients == []
  {
    if ev.Select? {
      if ev.shutdown {
        RemoveAllKeepsInv(lib, w, w.clients);
        var r := RemoveAll(lib, w, w.clients);
        EmptyOrInhabited(r.clients);
      } else {
        ServeAllKeepsInv(lib, w, w.clients, ev.ready);
        var w' := ServeAll(lib, w, w.clients, ev.ready);
        if ev.accept.Newcomer? && (w'.cap == 0 || w'.num < w'.cap) {
          AddKeepsInv(w', ev.accept.fd, ev.accept.conn);
        }
      }
    }
  }

  /**
   * Over every run, for every interleaving of clients and every chunking of what they send, the invariant
   * holds at each select() and at the end; and a shutdown leaves no client behind.
   */
  lemma {:induction false} RunKeepsInv<A>(lib: Lib<A>, w: World<A>, evs: seq<Event>)
    requires Inv(w) && PlausibleRun(lib, w, evs)
    ensures Inv(Run(lib, w, evs).world)
    ensures Run(lib, w, evs).Returned? && Run(lib, w, evs).code == 0 ==> Run(lib, w, evs).world.clients == []
    decreases |evs|
  {
    if evs != [] {
      StepKeepsInv(lib, w, evs[0]);
      var o := Step(lib, w, evs[0]);
      if o.Running? {
        RunKeepsInv(lib, o.world, evs[1..]);
      }
    }
  }

  /** What a connection without NUL bytes in its stream has seen of the server. */
  ghost predicate SeesItsOwnTraffic(c: Conn) {
    && RequestsOf(c.served) <= Lines.Requests(c.Stream())
    && c.sent == RepliesOf(c.served)
  }

  /**
   * The whole run, seen from the connections. In every reachable state, whatever else happened in between:
   * an open connection has no byte waiting in its carry; it has been served a prefix of its own stream's
   * non-empty lines, in order, and what was written to it is exactly the framed responses to those.
   */
  lemma OpenConnections<A>(lib: Lib<A>, cap: nat, app: A, evs: seq<Event>, fd: int)
    requires cap < UINT16 && PlausibleRun(lib, Initial(cap, app), evs)
    ensures var w := Run(lib, Initial(cap, app), evs).world;
            && (fd in w.clients <==> fd in w.conns)
            && (fd in w.conns ==> w.carry[fd] == [])
            && (fd in w.conns && NulFree(w.conns[fd].Stream()) ==>
                  && SeesItsOwnTraffic(w.conns[fd])
                  && RequestsOf(w.conns[fd].served) == Lines.Requests(w.conns[fd].received))
  {
    RunKeepsInv(lib, Initial(cap, app), evs);
    var w := Run(lib, Initial(cap, app), evs).world;
    if fd in w.conns && NulFree(w.conns[fd].Stream()) {
      var c := w.conns[fd];
      LiveIsPrefix(c, []);
      assert Done(c, []) == c.received;
    }
  }

  /**
   * A connection the server gave up was served in the same way: all of its requests if it disconnected; all
   * that arrived whole if reading failed, which cannot happen to a clean stream; and if a write failed, the
   * last response is a proper prefix of its frame and everything before it is complete.
   */
  lemma ClosedConnections<A>(lib: Lib<A>, cap: nat, app: A, evs: seq<Event>, g: Gone)
    requires cap < UINT16 && PlausibleRun(lib, Initial(cap, app), evs)
    requires g in Run(lib, Initial(cap, app), evs).world.gone && NulFree(g.conn.Stream())
    ensures RequestsOf(g.conn.served) <= Lines.Requests(g.conn.Stream())
    ensures g.why == Disconnected ==> RequestsOf(g.conn.served) == Lines.Requests(g.conn.Stream())
    ensures g.why == BadRead ==> !Clean(g.conn) && RequestsOf(g.conn.served) == Lines.Requests(g.conn.received)
    ensures g.why != BadWrite ==> g.conn.sent == RepliesOf(g.conn.served)
    ensures g.why == BadWrite ==>
              && g.conn.served != []
              && var last := g.conn.served[|g.conn.served| - 1];
                 && last.reply.Some?
                 && exists part: nat :: part < |Framing.Frame(last.reply.value)|
                      && g.conn.sent == RepliesOf(g.conn.served[..|g.conn.served| - 1])
                                        + Framing.Frame(last.reply.value)[..part]
  {
    RunKeepsInv(lib, Initial(cap, app), evs);
    EndedIsPrefix(g.conn, g.why);
  }

  /** Under a limit the 16-bit counter is the number of clients, and the limit is kept. */
  lemma LimitIsKept<A>(lib: Lib<A>, cap: nat, app: A, evs: seq<Event>)
    requires 0 < cap < UINT16 && PlausibleRun(lib, Initial(cap, app), evs)
    ensures var w := Run(lib, Initial(cap, app), evs).world;
            w.num == |w.clients| <= cap && Distinct(w.clients)
  {
    RunKeepsInv(lib, Initial(cap, app), evs);
    RunKeepsCap(lib, Initial(cap, app), evs);
  }

  /** A newcomer is let in if and only if there is no limit, or fewer clients than the limit are left then. */
  lemma AdmittedIff<A>(lib: Lib<A>, w: World<A>, ready: set<int>, fd: int, c: Conn)
    requires WellFormed(w) && Plausible(lib, w, Select(false, ready, Newcomer(fd, c)))
    ensures var w' := Step(lib, w, Select(false, ready, Newcomer(fd, c))).world;
            var served := ServeAll(lib, w, w.clients, ready);
            && (fd in w'.clients <==> w.cap == 0 || |served.clients| < w.cap)
            && w'.clients == (if fd in w'.clients then [fd] + served.clients else served.clients)
            && w'.conns == (if fd in w'.clients then served.conns[fd := c] else served.conns)
  {
    ServeAllKeepsCap(lib, w, w.clients, ready);
  }

  lemma {:induction false} ServeAllKeepsCap<A>(lib: Lib<A>, w: World<A>, fds: seq<int>, ready: set<int>)
    requires WellFormed(w) && Distinct(fds) && forall fd :: fd in fds ==> fd in w.clients
    ensures ServeAll(lib, w, fds, ready).cap == w.cap
    decreases |fds|
  {
    if fds != [] {
      ServeClientWellFormed(lib, w, fds[0]);
      assert forall fd :: fd in fds[1..] ==> fd in fds && fd != fds[0];
      ServeAllKeepsCap(lib, if fds[0] in ready then ServeClient(lib, w, fds[0]) else w, fds[1..], ready);
    }
  }

  lemma {:induction false} RemoveAllKeepsCap<A>(lib: Lib<A>, w: World<A>, fds: seq<int>)
    requires WellFormed(w) && Distinct(fds) && forall fd :: fd in fds ==> fd in w.clients
    ensures RemoveAll(lib, w, fds).cap == w.cap
    decreases |fds|
  {
    if fds != [] {
      RemoveWellFormed(lib, w, fds[0], Shutdown);
      assert forall fd :: fd in fds[1..] ==> fd in fds && fd != fds[0];
      RemoveAllKeepsCap(lib, Remove(lib, w, fds[0], Shutdown), fds[1..]);
    }
  }

  lemma {:induction false} RunKeepsCap<A>(lib: Lib<A>, w: World<A>, evs: seq<Event>)
    requires WellFormed(w) && PlausibleRun(lib, w, evs)
    ensures Run(lib, w, evs).world.cap == w.cap
    decreases |evs|
  {
    if evs != [] {
      if evs[0].Select? {
        if evs[0].shutdown {
          RemoveAllKeepsCap(lib, w, w.clients);
        } else {
          ServeAllKeepsCap(lib, w, w.clients, evs[0].ready);
        }
      }
      var o := Step(lib, w, evs[0]);
      if o.Running? {
        RunKeepsCap(lib, o.world, evs[1..]);
      }
    }
  }
}
