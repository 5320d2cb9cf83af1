/** The server loop with its dispatcher: what one client's whole conversation with the server looks like. */
module Conversations {
  import opened Bytes
  import opened System
  import opened Registry
  import opened Dispatch
  import Sessions
  import Server
  import Sequential
  import Services
  import Lines

  /** What json-c provides: the parser, the printer (one line, no NUL) and its conversions. */
  datatype Codec = Codec(parse: seq<byte> -> Option<ProperRequest>, serialise: Json -> Bytes.Text, lib: Dispatch.Lib)

  /** japi_process_message from text to text. */
  function Answer(codec: Codec, app: App, fd: int, line: seq<byte>): (App, Option<Bytes.Text>) {
    if Lookup(app.requests, DEFAULT).None? then (app, None) else
      var (app', response) := Process(app, codec.lib, (codec.parse)(line), fd);
      (app', if response.Some? then Some((codec.serialise)(response.value)) else None)
  }

  function Japi(codec: Codec): Sessions.Lib<App> {
    Sessions.Lib(
      (app: App, fd: int, line: seq<byte>) => Answer(codec, app, fd, line),
      (app: App, fd: int) => app.(services := Services.RemoveFromAll(app.services, fd)))
  }

  /** The server before its first client. */
  function Start(app: App): Sequential.State<App> {
    Sequential.State(app, map[], [])
  }

  /** Answering changes the services at most. */
  lemma AnswerKeepsTheRest(codec: Codec, app: App, fd: int, line: seq<byte>)
    ensures var app' := Answer(codec, app, fd, line).0;
            app' == app.(services := app'.services)
  {
  }

  /** Whatever is asked, registered requests and options stay as they were. */
  lemma {:induction false} OnlyServicesChange(codec: Codec, s: Sequential.State<App>, ops: seq<Sequential.Op>)
    ensures var s' := Sequential.DoAll(Japi(codec), s, ops);
            s'.app == s.app.(services := s'.app.services)
    decreases |ops|
  {
    if ops != [] {
      if ops[0].Request? {
        AnswerKeepsTheRest(codec, s.app, ops[0].fd, ops[0].line);
      }
      OnlyServicesChange(codec, Sequential.Do(Japi(codec), s, ops[0]), ops[1..]);
    }
  }

  /**
   * The whole server as one sequence of requests: it leads from the context at the start to the context at the
   * end, and every response that any client, gone or still there, ever got is what dispatch gives for its
   * request and its connection in the context of that place in the sequence.
   */
  ghost predicate Explains(codec: Codec, app: App, ops: seq<Sequential.Op>, w: Server.World<App>) {
    Sequential.Explains(Japi(codec), Start(app), ops, Sequential.View(w))
  }

  /** Part of what one sequence explains: the conversation of one connection, its requests in order. */
  lemma OneConversation(codec: Codec, app: App, ops: seq<Sequential.Op>, w: Server.World<App>)
    requires Explains(codec, app, ops, w)
    ensures w.app == app.(services := w.app.services)
    ensures forall i :: 0 <= i < |w.gone| ==>
              Sequential.Answered(Japi(codec), Start(app), ops, w.gone[i].fd, w.gone[i].conn.served)
    ensures forall fd :: fd in w.conns ==>
              Sequential.Answered(Japi(codec), Start(app), ops, fd, w.conns[fd].served)
  {
    OnlyServicesChange(codec, Start(app), ops);
    var view := Sequential.View(w);
    forall i | 0 <= i < |w.gone|
      ensures Sequential.Answered(Japi(codec), Start(app), ops, w.gone[i].fd, w.gone[i].conn.served)
    {
      assert view.closed[i] == (w.gone[i].fd, w.gone[i].conn.served);
    }
    forall fd | fd in w.conns
      ensures Sequential.Answered(Japi(codec), Start(app), ops, fd, w.conns[fd].served)
    {
      assert view.open[fd] == w.conns[fd].served;
    }
  }

  /** The reply to a request answered at a place is what dispatch gives in the context of that place. */
  lemma AnsweredByDispatch(codec: Codec, app: App, ops: seq<Sequential.Op>, fd: int, e: Exchange, m: nat)
    requires Sequential.AnsweredAt(Japi(codec), Start(app), ops, fd, e, m) && Lookup(app.requests, DEFAULT).Some?
    ensures var now := Sequential.DoAll(Japi(codec), Start(app), ops[..m]).app;
            && now == app.(services := now.services)
            && var response := Process(now, codec.lib, (codec.parse)(e.request), fd).1;
               e.reply == if response.Some? then Some((codec.serialise)(response.value)) else None
  {
    OnlyServicesChange(codec, Start(app), ops[..m]);
  }

  /**
   * Whatever the clients do, however their bytes are cut and whenever select() reports them, one sequence of
   * requests explains the run; and a client that has disconnected after a NUL-free stream was served all of its
   * non-empty lines in order, and was sent the frames of the answers it got in that sequence, nothing else.
   */
  lemma Conversation(codec: Codec, cap: nat, app: App, evs: seq<Server.Event>)
    requires cap < Server.UINT16 && Server.PlausibleRun(Japi(codec), Server.Initial(cap, app), evs)
    ensures var w := Server.Run(Japi(codec), Server.Initial(cap, app), evs).world;
            && (exists ops :: Explains(codec, app, ops, w))
            && forall g :: g in w.gone && g.why == Sessions.Disconnected && NulFree(g.conn.Stream()) ==>
                 && Sessions.RequestsOf(g.conn.served) == Lines.Requests(g.conn.Stream())
                 && g.conn.sent == Sessions.RepliesOf(g.conn.served)
  {
    var w := Server.Run(Japi(codec), Server.Initial(cap, app), evs).world;
    Sequential.RunIsExplained(Japi(codec), cap, app, evs);
    var ops :| Sequential.Explains(Japi(codec), Start(app), ops, Sequential.View(w));
    assert Explains(codec, app, ops, w);
    forall g | g in w.gone && g.why == Sessions.Disconnected && NulFree(g.conn.Stream())
      ensures Sessions.RequestsOf(g.conn.served) == Lines.Requests(g.conn.Stream())
      ensures g.conn.sent == Sessions.RepliesOf(g.conn.served)
    {
      Server.ClosedConnections(Japi(codec), cap, app, evs, g);
    }
  }

  /** The same for the clients still connected, as far as they have been heard. */
  lemma ConversationSoFar(codec: Codec, cap: nat, app: App, evs: seq<Server.Event>)
    requires cap < Server.UINT16 && Server.PlausibleRun(Japi(codec), Server.Initial(cap, app), evs)
    ensures var w := Server.Run(Japi(codec), Server.Initial(cap, app), evs).world;
            && (exists ops :: Explains(codec, app, ops, w))
            && forall fd :: fd in w.conns && NulFree(w.conns[fd].Stream()) ==>
                 && Sessions.RequestsOf(w.conns[fd].served) == Lines.Requests(w.conns[fd].received)
                 && w.conns[fd].sent == Sessions.RepliesOf(w.conns[fd].served)
  {
    var w := Server.Run(Japi(codec), Server.Initial(cap, app), evs).world;
    Conversation(codec, cap, app, evs);
    forall fd | fd in w.conns && NulFree(w.conns[fd].Stream())
      ensures Sessions.RequestsOf(w.conns[fd].served) == Lines.Requests(w.conns[fd].received)
      ensures w.conns[fd].sent == Sessions.RepliesOf(w.conns[fd].served)
    {
      Server.OpenConnections(Japi(codec), cap, app, evs, fd);
    }
  }
}
