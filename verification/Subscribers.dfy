/** Subscribers and clients over whole runs of the server loop, leaving push traffic aside. */
module Subscribers {
  import Bytes
  import opened System
  import opened Sockets
  import opened Registry
  import opened Dispatch
  import opened Subscriptions
  import Conversations
  import Sequential
  import Server
  import Services

  /** The request is to subscribe to a service that already lists its client. */
  predicate SubscribesTwice(codec: Conversations.Codec, s: Sequential.State<App>, op: Sequential.Op) {
    op.Request? && op.fd in s.open
    && SubscribesAgain(State(s.open.Keys, s.app, None), codec.lib, Serve(op.fd, (codec.parse)(op.line)))
  }

  predicate NobodySubscribesTwice(codec: Conversations.Codec, s: Sequential.State<App>, ops: seq<Sequential.Op>)
    decreases |ops|
  {
    ops != [] ==>
      && !SubscribesTwice(codec, s, ops[0])
      && NobodySubscribesTwice(codec, Sequential.Do(Conversations.Japi(codec), s, ops[0]), ops[1..])
  }

  /** Every service lists open connections only, each once. */
  ghost predicate AllOpen(s: Sequential.State<App>) {
    TidyLists(s.app.services, s.open.Keys)
  }

  lemma RequestKeepsOpen(
    codec: Conversations.Codec, attempts: seq<Attempt>, s: Sequential.State<App>, fd: int, line: seq<Bytes.byte>)
    requires s.app.requests == Registry.Run(BUILTINS, attempts) && fd in s.open && AllOpen(s)
    requires !SubscribesTwice(codec, s, Sequential.Request(fd, line))
    ensures TidyLists(Conversations.Answer(codec, s.app, fd, line).0.services, s.open.Keys)
  {
    DispatchIsTotal(attempts, DEFAULT);
    ServeKeepsTidy(State(s.open.Keys, s.app, None), codec.lib, attempts, fd, (codec.parse)(line));
  }

  lemma DropKeepsOpen(svcs: seq<Services.Service>, fd: int, open: set<int>)
    requires TidyLists(svcs, open)
    ensures TidyLists(Services.RemoveFromAll(svcs, fd), open - {fd})
  {
    forall k | 0 <= k < |svcs| ensures TidyList(Services.RemoveFromAll(svcs, fd)[k].subs, open - {fd}) {
      assert TidyList(svcs[k].subs, open);
      RemoveFirstDistinct(svcs[k].subs, fd);
    }
  }

  lemma DoKeepsOpen(codec: Conversations.Codec, attempts: seq<Attempt>, s: Sequential.State<App>, op: Sequential.Op)
    requires s.app.requests == Registry.Run(BUILTINS, attempts) && AllOpen(s) && !SubscribesTwice(codec, s, op)
    ensures AllOpen(Sequential.Do(Conversations.Japi(codec), s, op))
    ensures Sequential.Do(Conversations.Japi(codec), s, op).app.requests == s.app.requests
  {
    match op
    case Connect(fd) =>
      assert forall k :: 0 <= k < |s.app.services| ==> TidyList(s.app.services[k].subs, s.open.Keys);
    case Request(fd, line) =>
      if fd in s.open {
        RequestKeepsOpen(codec, attempts, s, fd, line);
        Conversations.AnswerKeepsTheRest(codec, s.app, fd, line);
        assert Sequential.Do(Conversations.Japi(codec), s, op).open.Keys == s.open.Keys;
      }
    case Hangup(fd) =>
      if fd in s.open {
        DropKeepsOpen(s.app.services, fd, s.open.Keys);
        assert (s.open - {fd}).Keys == s.open.Keys - {fd};
      }
  }

  lemma {:induction false} DoAllKeepsOpen(
    codec: Conversations.Codec, attempts: seq<Attempt>, s: Sequential.State<App>, ops: seq<Sequential.Op>)
    requires s.app.requests == Registry.Run(BUILTINS, attempts) && AllOpen(s) && NobodySubscribesTwice(codec, s, ops)
    ensures AllOpen(Sequential.DoAll(Conversations.Japi(codec), s, ops))
    decreases |ops|
  {
    if ops != [] {
      DoKeepsOpen(codec, attempts, s, ops[0]);
      DoAllKeepsOpen(codec, attempts, Sequential.Do(Conversations.Japi(codec), s, ops[0]), ops[1..]);
    }
  }

  /**
   * In every run of the server that is explained by a sequence of requests (and each is) none of which subscribes
   * its client again where it is listed, every subscriber of every service is a connected client, listed once.
   */
  lemma SubscribersAreClients(
    codec: Conversations.Codec, cap: nat, attempts: seq<Attempt>, app: App, evs: seq<Server.Event>,
    ops: seq<Sequential.Op>)
    requires cap < Server.UINT16 && Server.PlausibleRun(Conversations.Japi(codec), Server.Initial(cap, app), evs)
    requires app.requests == Registry.Run(BUILTINS, attempts)
    requires forall k :: 0 <= k < |app.services| ==> app.services[k].subs == []
    requires var w := Server.Run(Conversations.Japi(codec), Server.Initial(cap, app), evs).world;
             Conversations.Explains(codec, app, ops, w)
    requires NobodySubscribesTwice(codec, Conversations.Start(app), ops)
    ensures var w := Server.Run(Conversations.Japi(codec), Server.Initial(cap, app), evs).world;
            forall k :: 0 <= k < |w.app.services| ==>
              Distinct(w.app.services[k].subs) && forall fd :: fd in w.app.services[k].subs ==> fd in w.clients
  {
    var w := Server.Run(Conversations.Japi(codec), Server.Initial(cap, app), evs).world;
    DoAllKeepsOpen(codec, attempts, Conversations.Start(app), ops);
    assert Sequential.View(w).open.Keys == w.conns.Keys;
    forall k | 0 <= k < |w.app.services|
      ensures Distinct(w.app.services[k].subs) && forall fd :: fd in w.app.services[k].subs ==> fd in w.clients
    {
      assert TidyList(w.app.services[k].subs, w.conns.Keys);
    }
  }
}
