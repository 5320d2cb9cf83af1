/**
 * What the server amounts to, buffers, blocks and select() aside: one request at a time, each answered in
 * full by japi_process_message before the next. Every run of the loop is such a sequence.
 */
module Sequential {
  import opened Bytes
  import opened System
  import opened CReadLine
  import opened Sessions
  import opened Sockets
  import opened Server

  datatype Op = Connect(fd: int) | Request(fd: int, line: seq<byte>) | Hangup(fd: int)

  /** The application state, what each open connection has been answered, and each closed one, oldest first. */
  datatype State<A> = State(app: A, open: map<int, seq<Exchange>>, closed: seq<(int, seq<Exchange>)>)

  function Do<A>(lib: Lib<A>, s: State<A>, op: Op): State<A> {
    match op
    case Connect(fd) => s.(open := s.open[fd := []])
    case Request(fd, line) =>
      if fd !in s.open then s else
        var (app, reply) := (lib.proc)(s.app, fd, line);
        s.(app := app, open := s.open[fd := s.open[fd] + [Exchange(line, reply)]])
    case Hangup(fd) =>
      if fd !in s.open then s else
        State((lib.drop)(s.app, fd), s.open - {fd}, s.closed + [(fd, s.open[fd])])
  }

  function DoAll<A>(lib: Lib<A>, s: State<A>, ops: seq<Op>): State<A>
    decreases |ops|
  {
    if ops == [] then s else DoAll(lib, Do(lib, s, ops[0]), ops[1..])
  }

  ghost predicate Leads<A>(lib: Lib<A>, s: State<A>, s': State<A>) {
    exists ops :: DoAll(lib, s, ops) == s'
  }

  lemma {:induction false} DoAllConcat<A>(lib: Lib<A>, s: State<A>, a: seq<Op>, b: seq<Op>)
    ensures DoAll(lib, s, a + b) == DoAll(lib, DoAll(lib, s, a), b)
    decreases |a|
  {
    if a == [] {
      assert a + b == b;
    } else {
      assert (a + b)[0] == a[0] && (a + b)[1..] == a[1..] + b;
      DoAllConcat(lib, Do(lib, s, a[0]), a[1..], b);
    }
  }

  lemma LeadsNowhere<A>(lib: Lib<A>, s: State<A>)
    ensures Leads(lib, s, s)
  {
    assert DoAll(lib, s, []) == s;
  }

  lemma LeadsOne<A>(lib: Lib<A>, s: State<A>, op: Op)
    ensures Leads(lib, s, Do(lib, s, op))
  {
    assert DoAll(lib, s, [op]) == DoAll(lib, Do(lib, s, op), []);
  }

  lemma LeadsOn<A>(lib: Lib<A>, s: State<A>, s': State<A>, s'': State<A>)
    requires Leads(lib, s, s') && Leads(lib, s', s'')
    ensures Leads(lib, s, s'')
  {
    var a :| DoAll(lib, s, a) == s';
    var b :| DoAll(lib, s', b) == s'';
    DoAllConcat(lib, s, a, b);
  }

  // ---- Every exchange in a history is one of the operations

  /** The m-th operation is this request, and the reply is the one it gets in the state it is applied to. */
  ghost predicate AnsweredAt<A>(lib: Lib<A>, s: State<A>, ops: seq<Op>, fd: int, e: Exchange, m: nat) {
    && m < |ops| && ops[m] == Request(fd, e.request)
    && e.reply == (lib.proc)(DoAll(lib, s, ops[..m]).app, fd, e.request).1
  }

  /** The exchanges are answered one after the other at these places in the sequence. */
  ghost predicate Placed<A>(
    lib: Lib<A>, s: State<A>, ops: seq<Op>, fd: int, served: seq<Exchange>, places: seq<nat>)
  {
    && |places| == |served|
    && (forall i, j :: 0 <= i < j < |places| ==> places[i] < places[j])
    && forall k :: 0 <= k < |places| ==> AnsweredAt(lib, s, ops, fd, served[k], places[k])
  }

  ghost predicate Answered<A>(lib: Lib<A>, s: State<A>, ops: seq<Op>, fd: int, served: seq<Exchange>) {
    exists places :: Placed(lib, s, ops, fd, served, places)
  }

  /** The sequence leads to `s'` and accounts for every exchange in every history there. */
  ghost predicate Explains<A>(lib: Lib<A>, s: State<A>, ops: seq<Op>, s': State<A>) {
    && DoAll(lib, s, ops) == s'
    && (forall fd :: fd in s'.open ==> Answered(lib, s, ops, fd, s'.open[fd]))
    && (forall i :: 0 <= i < |s'.closed| ==> Answered(lib, s, ops, s'.closed[i].0, s'.closed[i].1))
  }

  lemma StillAnswered<A>(lib: Lib<A>, s: State<A>, ops: seq<Op>, op: Op, fd: int, served: seq<Exchange>)
    requires Answered(lib, s, ops, fd, served)
    ensures Answered(lib, s, ops + [op], fd, served)
  {
    var places :| Placed(lib, s, ops, fd, served, places);
    forall k | 0 <= k < |places| ensures AnsweredAt(lib, s, ops + [op], fd, served[k], places[k]) {
      assert AnsweredAt(lib, s, ops, fd, served[k], places[k]);
      assert (ops + [op])[..places[k]] == ops[..places[k]];
    }
    assert Placed(lib, s, ops + [op], fd, served, places);
  }

  lemma NewlyAnswered<A>(lib: Lib<A>, s: State<A>, ops: seq<Op>, fd: int, served: seq<Exchange>, line: seq<byte>)
    requires Answered(lib, s, ops, fd, served)
    ensures var e := Exchange(line, (lib.proc)(DoAll(lib, s, ops).app, fd, line).1);
            Answered(lib, s, ops + [Request(fd, line)], fd, served + [e])
  {
    var e := Exchange(line, (lib.proc)(DoAll(lib, s, ops).app, fd, line).1);
    var ops' := ops + [Request(fd, line)];
    var before: seq<nat> :| Placed(lib, s, ops, fd, served, before);
    forall k | 0 <= k < |before| ensures AnsweredAt(lib, s, ops', fd, served[k], before[k]) && before[k] < |ops| {
      assert AnsweredAt(lib, s, ops, fd, served[k], before[k]);
      assert ops'[..before[k]] == ops[..before[k]];
    }
    assert ops'[..|ops|] == ops;
    assert AnsweredAt(lib, s, ops', fd, e, |ops|);
    assert Placed(lib, s, ops', fd, served + [e], before + [|ops|]);
  }

  lemma NothingYet<A>(lib: Lib<A>, s: State<A>, ops: seq<Op>, fd: int)
    ensures Answered(lib, s, ops, fd, [])
  {
    assert Placed(lib, s, ops, fd, [], []);
  }

  lemma OneMoreExplained<A>(lib: Lib<A>, s: State<A>, ops: seq<Op>, op: Op)
    requires Explains(lib, s, ops, DoAll(lib, s, ops))
    ensures Explains(lib, s, ops + [op], Do(lib, DoAll(lib, s, ops), op))
  {
    var s1 := DoAll(lib, s, ops);
    var s2 := Do(lib, s1, op);
    DoAllConcat(lib, s, ops, [op]);
    assert DoAll(lib, s1, [op]) == DoAll(lib, s2, []) == s2;
    forall fd | fd in s2.open ensures Answered(lib, s, ops + [op], fd, s2.open[fd]) {
      NothingYet(lib, s, ops + [op], fd);
      if fd in s1.open {
        StillAnswered(lib, s, ops, op, fd, s1.open[fd]);
        if op.Request? {
          NewlyAnswered(lib, s, ops, fd, s1.open[fd], op.line);
        }
      }
    }
    forall i | 0 <= i < |s2.closed| ensures Answered(lib, s, ops + [op], s2.closed[i].0, s2.closed[i].1) {
      if i < |s1.closed| {
        StillAnswered(lib, s, ops, op, s1.closed[i].0, s1.closed[i].1);
      } else {
        StillAnswered(lib, s, ops, op, op.fd, s1.open[op.fd]);
      }
    }
  }

  /** A sequence from a state without connections accounts for every exchange in every history it makes. */
  lemma {:induction false} HistoriesAreExplained<A>(lib: Lib<A>, s: State<A>, ops: seq<Op>)
    requires s.open == map[] && s.closed == []
    ensures Explains(lib, s, ops, DoAll(lib, s, ops))
    decreases |ops|
  {
    if ops != [] {
      var n := |ops| - 1;
      HistoriesAreExplained(lib, s, ops[..n]);
      OneMoreExplained(lib, s, ops[..n], ops[n]);
      assert ops[..n] + [ops[n]] == ops;
    }
  }

  // ---- The loop does nothing else

  function Histories(conns: map<int, Conn>): map<int, seq<Exchange>> {
    map fd | fd in conns :: conns[fd].served
  }

  function Departures(gone: seq<Gone>): (r: seq<(int, seq<Exchange>)>)
    ensures |r| == |gone|
  {
    seq(|gone|, i requires 0 <= i < |gone| => (gone[i].fd, gone[i].conn.served))
  }

  function View<A>(w: World<A>): State<A> {
    State(w.app, Histories(w.conns), Departures(w.gone))
  }

  lemma TurnIsOneRequest<A>(lib: Lib<A>, w: World<A>, fd: int, carry: seq<byte>)
    requires fd in w.conns && |carry| < BLOCK
    ensures Leads(lib, View(w), View(Updated(w, fd, Turn(lib, w.app, fd, w.conns[fd], carry))))
  {
    var c := w.conns[fd];
    ReadLineConserves(carry, c);
    var r := ReadLine(carry, c);
    var w' := Updated(w, fd, Turn(lib, w.app, fd, c, carry));
    LeadsNowhere(lib, View(w));
    if r.out.Line? && r.out.text != [] {
      LeadsOne(lib, View(w), Request(fd, r.out.text));
      assert View(w').open == Do(lib, View(w), Request(fd, r.out.text)).open;
    } else {
      assert View(w').open == View(w).open;
    }
  }

  lemma {:induction false} DrainIsRequests<A>(lib: Lib<A>, w: World<A>, fd: int, carry: seq<byte>)
    requires fd in w.conns && |carry| < BLOCK
    ensures Leads(lib, View(w), View(Updated(w, fd, Drain(lib, w.app, fd, w.conns[fd], carry))))
    decreases |carry| + |Arriving(w.conns[fd].input)|
  {
    var t := Turn(lib, w.app, fd, w.conns[fd], carry);
    TurnIsOneRequest(lib, w, fd, carry);
    if t.why == None && t.carry != [] {
      var w1 := Updated(w, fd, t);
      var d := Drain(lib, t.app, fd, t.conn, t.carry);
      DrainIsRequests(lib, w1, fd, t.carry);
      assert View(Updated(w1, fd, d)) == View(Updated(w, fd, d)) by {
        assert w1.conns[fd := d.conn] == w.conns[fd := d.conn];
      }
      LeadsOn(lib, View(w), View(w1), View(Updated(w, fd, d)));
    }
  }

  lemma RemoveIsAHangup<A>(lib: Lib<A>, w: World<A>, fd: int, why: Why)
    requires fd in w.conns
    ensures Leads(lib, View(w), View(Remove(lib, w, fd, why)))
  {
    LeadsOne(lib, View(w), Hangup(fd));
    var w' := Remove(lib, w, fd, why);
    assert View(w').open == View(w).open - {fd};
    assert View(w').closed == View(w).closed + [(fd, w.conns[fd].served)];
  }

  lemma ServeClientIsSequential<A>(lib: Lib<A>, w: World<A>, fd: int)
    requires fd in w.conns && fd in w.carry && |w.carry[fd]| < BLOCK
    ensures Leads(lib, View(w), View(ServeClient(lib, w, fd)))
  {
    var d := Drain(lib, w.app, fd, w.conns[fd], w.carry[fd]);
    var w1 := Updated(w, fd, d);
    DrainIsRequests(lib, w, fd, w.carry[fd]);
    if d.why.Some? {
      RemoveIsAHangup(lib, w1, fd, d.why.value);
      LeadsOn(lib, View(w), View(w1), View(ServeClient(lib, w, fd)));
    }
  }

  lemma {:induction false} ServeAllIsSequential<A>(lib: Lib<A>, w: World<A>, fds: seq<int>, ready: set<int>)
    requires WellFormed(w) && Distinct(fds) && forall fd :: fd in fds ==> fd in w.clients
    ensures Leads(lib, View(w), View(ServeAll(lib, w, fds, ready)))
    decreases |fds|
  {
    LeadsNowhere(lib, View(w));
    if fds != [] {
      ServeClientWellFormed(lib, w, fds[0]);
      assert forall fd :: fd in fds[1..] ==> fd in fds && fd != fds[0];
      var w1 := if fds[0] in ready then ServeClient(lib, w, fds[0]) else w;
      ServeClientIsSequential(lib, w, fds[0]);
      ServeAllIsSequential(lib, w1, fds[1..], ready);
      LeadsOn(lib, View(w), View(w1), View(ServeAll(lib, w, fds, ready)));
    }
  }

  lemma {:induction false} RemoveAllIsSequential<A>(lib: Lib<A>, w: World<A>, fds: seq<int>)
    requires WellFormed(w) && Distinct(fds) && forall fd :: fd in fds ==> fd in w.clients
    ensures Leads(lib, View(w), View(RemoveAll(lib, w, fds)))
    decreases |fds|
  {
    LeadsNowhere(lib, View(w));
    if fds != [] {
      RemoveWellFormed(lib, w, fds[0], Shutdown);
      assert forall fd :: fd in fds[1..] ==> fd in fds && fd != fds[0];
      var w1 := Remove(lib, w, fds[0], Shutdown);
      RemoveIsAHangup(lib, w, fds[0], Shutdown);
      RemoveAllIsSequential(lib, w1, fds[1..]);
      LeadsOn(lib, View(w), View(w1), View(RemoveAll(lib, w, fds)));
    }
  }

  lemma AdmitIsAConnect<A>(lib: Lib<A>, w: World<A>, fd: int, c: Conn)
    requires c.served == []
    ensures Leads(lib, View(w), View(Admit(w, fd, c)))
  {
    LeadsNowhere(lib, View(w));
    LeadsOne(lib, View(w), Connect(fd));
    assert View(Add(w, fd, c)).open == View(w).open[fd := []];
  }

  lemma StepIsSequential<A>(lib: Lib<A>, w: World<A>, ev: Event)
    requires WellFormed(w) && Plausible(lib, w, ev)
    ensures Leads(lib, View(w), View(Step(lib, w, ev).world))
  {
    LeadsNowhere(lib, View(w));
    if ev.Select? {
      if ev.shutdown {
        RemoveAllIsSequential(lib, w, w.clients);
      } else {
        var w1 := ServeAll(lib, w, w.clients, ev.ready);
        ServeAllIsSequential(lib, w, w.clients, ev.ready);
        if ev.accept.Newcomer? {
          AdmitIsAConnect(lib, w1, ev.accept.fd, ev.accept.conn);
          LeadsOn(lib, View(w), View(w1), View(Admit(w1, ev.accept.fd, ev.accept.conn)));
        }
      }
    }
  }

  /**
   * Every run of the loop is a sequence of whole requests, connects and hang-ups: the application state and
   * every connection's requests and responses are what that sequence produces, one call of
   * japi_process_message after the other, each with the line and the descriptor of its own connection.
   */
  lemma {:induction false} RunIsSequential<A>(lib: Lib<A>, w: World<A>, evs: seq<Event>)
    requires WellFormed(w) && PlausibleRun(lib, w, evs)
    ensures Leads(lib, View(w), View(Run(lib, w, evs).world))
    decreases |evs|
  {
    LeadsNowhere(lib, View(w));
    if evs != [] {
      StepIsSequential(lib, w, evs[0]);
      var o := Step(lib, w, evs[0]);
      if o.Running? {
        RunIsSequential(lib, o.world, evs[1..]);
        LeadsOn(lib, View(w), View(o.world), View(Run(lib, w, evs).world));
      }
    }
  }

  /** One sequence accounts for a whole run of the server: for its context and for every connection's history. */
  lemma RunIsExplained<A>(lib: Lib<A>, cap: nat, app: A, evs: seq<Event>)
    requires cap < UINT16 && PlausibleRun(lib, Initial(cap, app), evs)
    ensures exists ops :: Explains(lib, State(app, map[], []), ops, View(Run(lib, Initial(cap, app), evs).world))
  {
    var w := Initial(cap, app);
    var s := State(app, map[], []);
    assert View(w) == s;
    RunIsSequential(lib, w, evs);
    var ops :| DoAll(lib, s, ops) == View(Run(lib, w, evs).world);
    HistoriesAreExplained(lib, s, ops);
  }
}
