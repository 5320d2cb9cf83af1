/** A whole server program: japi_init, registrations, japi_start_server, and what its clients saw of it. */
module Serving {
  import opened Bytes
  import opened System
  import opened Registry
  import opened Dispatch
  import opened Framing
  import Api
  import Application
  import Conversations
  import Lines
  import Progress
  import Sequential
  import Server
  import ServerLoop
  import Services
  import Sessions
  import Subscribers
  import Sockets

  /** The push services once these names have been registered, in this order. */
  function Registered(svcs: seq<Services.Service>, names: seq<string>): seq<Services.Service>
    decreases |names|
  {
    if names == [] then svcs else Registered(Services.Entered(svcs, names[0]), names[1..])
  }

  lemma {:induction false} RegisteredSnoc(svcs: seq<Services.Service>, names: seq<string>, name: string)
    ensures Registered(svcs, names + [name]) == Services.Entered(Registered(svcs, names), name)
    decreases |names|
  {
    if names == [] {
      assert [name][1..] == [] && Registered(Services.Entered(svcs, name), []) == Services.Entered(svcs, name);
      assert names + [name] == [name];
    } else {
      assert (names + [name])[1..] == names[1..] + [name];
      RegisteredSnoc(Services.Entered(svcs, names[0]), names[1..], name);
    }
  }

  /** One service for each name that is not empty and for no other, newest first, without a subscriber. */
  ghost predicate Lists(svcs: seq<Services.Service>, names: seq<string>) {
    && (forall n :: n in names && n != "" <==> exists s :: s in svcs && s.name == n)
    && (forall i, j :: 0 <= i < j < |svcs| ==>
          Sockets.Index(names, svcs[i].name) > Sockets.Index(names, svcs[j].name))
    && (forall s :: s in svcs ==> s.subs == [])
  }

  /** What was registered before the server starts is there, each name once, and nothing else. */
  lemma {:induction false} RegisteredMeaning(names: seq<string>)
    ensures Lists(Registered([], names), names)
    decreases |names|
  {
    if names != [] {
      var before, name := names[..|names| - 1], names[|names| - 1];
      var svcs := Registered([], before);
      assert before + [name] == names;
      RegisteredMeaning(before);
      RegisteredSnoc([], before, name);
      EnteredMeaning(svcs, before, name);
    }
  }

  lemma EnteredMeaning(svcs: seq<Services.Service>, names: seq<string>, name: string)
    requires Lists(svcs, names)
    ensures Lists(Services.Entered(svcs, name), names + [name])
  {
    var all, r := names + [name], Services.Entered(svcs, name);
    forall s | s in svcs ensures s.name in names && Sockets.Index(all, s.name) == Sockets.Index(names, s.name) {
      IndexStays(names, name, s.name);
    }
    if Services.CanRegister(svcs, name) {
      assert forall i :: 0 <= i < |svcs| ==> svcs[i] in svcs;
      assert name !in names;
      Sockets.IndexUnique(all, name, |names|);
    }
  }

  lemma IndexStays(names: seq<string>, name: string, n: string)
    requires n in names
    ensures Sockets.Index(names + [name], n) == Sockets.Index(names, n)
  {
    Sockets.IndexUnique(names + [name], n, Sockets.Index(names, n));
  }

  /** What the user's program asks for before it starts the server. */
  datatype Setup = Setup(requests: seq<Attempt>, services: seq<string>, includeArgs: bool, cap: nat)

  function AppOf(setup: Setup): App {
    App(Run(BUILTINS, setup.requests), Registered([], setup.services), setup.includeArgs)
  }

  /** Register the requests on a context just initialised. */
  method RegisterRequests(api: Api.Context, requests: seq<Attempt>)
    requires api.Valid() && api.requests.init && api.requests.entries == BUILTINS
    modifies api.requests
    ensures api.Valid() && api.requests.entries == Run(BUILTINS, requests)
  {
    var i := 0;
    assert requests[0..] == requests;
    while i < |requests|
      invariant 0 <= i <= |requests| && api.requests.Valid() && api.requests.init
      invariant Run(api.requests.entries, requests[i..]) == Run(BUILTINS, requests)
    {
      assert requests[i..][0] == requests[i] && requests[i..][1..] == requests[i + 1..];
      var a := requests[i];
      var _ := api.requests.AddRequest(a.name, if a.handler.Some? then Some(User(a.handler.value)) else None);
      i := i + 1;
    }
    DispatchIsTotal(requests, DEFAULT);
    assert requests[i..] == [];
  }

  /** Register the push services on a context that has none. */
  method RegisterServices(api: Api.Context, names: seq<string>)
    requires api.Valid() && api.services.model == [] && api.services.lists == {} && api.services.owner == map[]
    modifies api.services, api.services.chain
    ensures api.Valid() && api.services.model == Registered([], names)
    ensures fresh(api.services.lists) && api.services.owner == map[]
  {
    var i := 0;
    assert names[0..] == names;
    while i < |names|
      invariant 0 <= i <= |names| && api.Valid() == true
      invariant Registered(api.services.model, names[i..]) == Registered([], names)
      invariant fresh(api.services.lists) && api.services.owner == map[]
    {
      assert names[i..][0] == names[i] && names[i..][1..] == names[i + 1..];
      var _ := api.services.Register(names[i]);
      assert api.Valid() == true;
      i := i + 1;
    }
    assert names[i..] == [];
  }

  /** What every connection without NUL bytes in its stream, open or closed, has seen of the server. */
  ghost predicate ServedRight(conns: map<int, Conn>, gone: seq<Server.Gone>) {
    && (forall fd :: fd in conns && NulFree(conns[fd].Stream()) ==>
          && Sessions.RequestsOf(conns[fd].served) == Lines.Requests(conns[fd].received)
          && conns[fd].sent == Sessions.RepliesOf(conns[fd].served))
    && (forall g :: g in gone && NulFree(g.conn.Stream()) ==> EndedRight(g))
  }

  /** A connection that is gone was served all it sent, or as far as it got before a read or a write failed. */
  ghost predicate EndedRight(g: Server.Gone) {
    && Sessions.RequestsOf(g.conn.served) <= Lines.Requests(g.conn.Stream())
    && (g.why == Sessions.Disconnected ==> Sessions.RequestsOf(g.conn.served) == Lines.Requests(g.conn.Stream()))
    && (g.why == Sessions.BadRead ==>
          !Sessions.Clean(g.conn) && Sessions.RequestsOf(g.conn.served) == Lines.Requests(g.conn.received))
    && (g.why != Sessions.BadWrite ==> g.conn.sent == Sessions.RepliesOf(g.conn.served))
    && (g.why == Sessions.BadWrite ==> LastIsCut(g.conn))
  }

  /** All responses went out whole but the last, of which a proper prefix did. */
  ghost predicate LastIsCut(c: Conn) {
    && c.served != []
    && var last := c.served[|c.served| - 1];
       && last.reply.Some?
       && exists part: nat :: part < |Frame(last.reply.value)|
            && c.sent == Sessions.RepliesOf(c.served[..|c.served| - 1]) + Frame(last.reply.value)[..part]
  }

  /** All requests ever served, in one sequence that explains every response and the services at the end. */
  ghost predicate Explained(
    codec: Conversations.Codec, app: App, conns: map<int, Conn>, gone: seq<Server.Gone>, app': App)
  {
    exists ops ::
      Sequential.Explains(Conversations.Japi(codec), Conversations.Start(app), ops,
                          Sequential.State(app', Sequential.Histories(conns), Sequential.Departures(gone)))
  }

  /** If that sequence has nobody subscribe twice, every subscriber is an open connection and listed once. */
  ghost predicate OnlyClientsSubscribed(
    codec: Conversations.Codec, app: App, conns: map<int, Conn>, gone: seq<Server.Gone>, app': App)
  {
    forall ops ::
      Sequential.Explains(Conversations.Japi(codec), Conversations.Start(app), ops,
                          Sequential.State(app', Sequential.Histories(conns), Sequential.Departures(gone)))
      && Subscribers.NobodySubscribesTwice(codec, Conversations.Start(app), ops) ==>
        forall k :: 0 <= k < |app'.services| ==> ListsOnly(app'.services[k].subs, conns.Keys)
  }

  ghost predicate ListsOnly(subs: seq<int>, fds: set<int>) {
    Sockets.Distinct(subs) && forall fd :: fd in subs ==> fd in fds
  }

  lemma {:induction false} RegisteredIsEmpty(svcs: seq<Services.Service>, names: seq<string>)
    requires forall k :: 0 <= k < |svcs| ==> svcs[k].subs == []
    ensures forall k :: 0 <= k < |Registered(svcs, names)| ==> Registered(svcs, names)[k].subs == []
    decreases |names|
  {
    if names != [] {
      RegisteredIsEmpty(Services.Entered(svcs, names[0]), names[1..]);
    }
  }

  lemma RunSubscribesOnlyClients(codec: Conversations.Codec, setup: Setup, evs: seq<Server.Event>)
    requires setup.cap < Server.UINT16
    requires Server.PlausibleRun(Conversations.Japi(codec), Server.Initial(setup.cap, AppOf(setup)), evs)
    ensures var w := Server.Run(Conversations.Japi(codec), Server.Initial(setup.cap, AppOf(setup)), evs).world;
            OnlyClientsSubscribed(codec, AppOf(setup), w.conns, w.gone, w.app)
  {
    var app := AppOf(setup);
    var w := Server.Run(Conversations.Japi(codec), Server.Initial(setup.cap, app), evs).world;
    RegisteredIsEmpty([], setup.services);
    forall ops | Conversations.Explains(codec, app, ops, w)
                 && Subscribers.NobodySubscribesTwice(codec, Conversations.Start(app), ops)
      ensures forall k :: 0 <= k < |w.app.services| ==> ListsOnly(w.app.services[k].subs, w.conns.Keys)
    {
      Subscribers.SubscribersAreClients(codec, setup.cap, setup.requests, app, evs, ops);
    }
  }

  lemma EndsAreRight(codec: Conversations.Codec, cap: nat, app: App, evs: seq<Server.Event>, g: Server.Gone)
    requires cap < Server.UINT16 && Server.PlausibleRun(Conversations.Japi(codec), Server.Initial(cap, app), evs)
    requires g in Server.Run(Conversations.Japi(codec), Server.Initial(cap, app), evs).world.gone
    requires NulFree(g.conn.Stream())
    ensures EndedRight(g)
  {
    Server.ClosedConnections(Conversations.Japi(codec), cap, app, evs, g);
  }

  lemma RunIsServedRight(codec: Conversations.Codec, cap: nat, app: App, evs: seq<Server.Event>)
    requires cap < Server.UINT16 && Server.PlausibleRun(Conversations.Japi(codec), Server.Initial(cap, app), evs)
    ensures var w := Server.Run(Conversations.Japi(codec), Server.Initial(cap, app), evs).world;
            ServedRight(w.conns, w.gone)
  {
    var w := Server.Run(Conversations.Japi(codec), Server.Initial(cap, app), evs).world;
    Conversations.ConversationSoFar(codec, cap, app, evs);
    forall g | g in w.gone && NulFree(g.conn.Stream()) ensures EndedRight(g) == true {
      EndsAreRight(codec, cap, app, evs, g);
    }
  }

  lemma RunIsExplained(codec: Conversations.Codec, cap: nat, app: App, evs: seq<Server.Event>)
    requires cap < Server.UINT16 && Server.PlausibleRun(Conversations.Japi(codec), Server.Initial(cap, app), evs)
    ensures var w := Server.Run(Conversations.Japi(codec), Server.Initial(cap, app), evs).world;
            Explained(codec, app, w.conns, w.gone, w.app)
  {
    var lib := Conversations.Japi(codec);
    var w := Server.Run(lib, Server.Initial(cap, app), evs).world;
    Sequential.RunIsExplained(lib, cap, app, evs);
    var ops :| Sequential.Explains(lib, Sequential.State(app, map[], []), ops, Sequential.View(w));
    assert Sequential.Explains(lib, Conversations.Start(app), ops, Sequential.View(w));
  }

  /** Everyone on a sound connection for whom there is room and who is reported ready often enough is served. */
  ghost predicate EveryoneIsHeard(cap: nat, evs: seq<Server.Event>, gone: seq<Server.Gone>) {
    Progress.EndOf(evs) == |evs| && (cap == 0 || Progress.Newcomers(evs) <= cap) ==>
      forall i {:trigger evs[i]} :: 0 <= i < |evs| ==> HeardIfSound(evs[i], evs[i + 1..], gone)
  }

  ghost predicate HeardIfSound(ev: Server.Event, evs: seq<Server.Event>, gone: seq<Server.Gone>) {
    ev.Select? && ev.accept.Newcomer? && Progress.Sound(ev.accept.conn)
    && Progress.ReadyCount(evs, ev.accept.fd) > |ev.accept.conn.input| ==>
      Progress.ServedToTheEnd(gone, ev.accept.fd, ev.accept.conn.Stream())
  }

  lemma RunHearsEveryone(codec: Conversations.Codec, cap: nat, app: App, evs: seq<Server.Event>)
    requires cap < Server.UINT16 && Server.PlausibleRun(Conversations.Japi(codec), Server.Initial(cap, app), evs)
    ensures var w := Server.Run(Conversations.Japi(codec), Server.Initial(cap, app), evs).world;
            EveryoneIsHeard(cap, evs, w.gone)
  {
    var w0 := Server.Initial(cap, app);
    var w := Server.Run(Conversations.Japi(codec), w0, evs).world;
    if Progress.EndOf(evs) == |evs| && Progress.Room(w0, evs) {
      forall i {:trigger evs[i]} | 0 <= i < |evs| ensures HeardIfSound(evs[i], evs[i + 1..], w.gone) {
        var ev := evs[i];
        if ev.Select? && ev.accept.Newcomer? && Progress.Sound(ev.accept.conn)
           && Progress.ReadyCount(evs[i + 1..], ev.accept.fd) > |ev.accept.conn.input| {
          Progress.NewcomerIsHeard(
            Conversations.Japi(codec), w0, evs, i, ev.ready, ev.accept.fd, ev.accept.conn);
        }
      }
    }
  }

  /** 0 if the first report that ends the server is a shutdown, -1 if it is a failure, nothing if there is none. */
  function EndCode(evs: seq<Server.Event>): Option<int> {
    var i := Progress.EndOf(evs);
    if i == |evs| then None else if Progress.Shuts(evs[i]) then Some(0) else Some(-1)
  }

  /**
   * The program: initialise, register, serve. Whatever select() and accept() report and however the clients'
   * bytes are cut, every connection in the kernel, and every one that is gone, was served right, the responses are
   * those of one sequence of requests, only clients are subscribed unless that sequence subscribes one twice, and
   * a server that was shut down has closed every connection. It returns as the first report says that ends it, and
   * as long as there is none nobody is left unheard.
   */
  method Serve(kernel: Kernel, codec: Conversations.Codec, setup: Setup, evs: seq<Server.Event>)
    returns (code: Option<int>, ghost gone: seq<Server.Gone>, ghost app: App)
    requires kernel.conns == map[] && setup.cap < Server.UINT16
    requires Server.PlausibleRun(Conversations.Japi(codec), Server.Initial(setup.cap, AppOf(setup)), evs)
    modifies kernel
    ensures ServedRight(kernel.conns, gone) && Explained(codec, AppOf(setup), kernel.conns, gone, app)
    ensures OnlyClientsSubscribed(codec, AppOf(setup), kernel.conns, gone, app)
    ensures EveryoneIsHeard(setup.cap, evs, gone)
    ensures code == EndCode(evs) && (code == Some(0) ==> kernel.conns == map[])
  {
    var core := Initialise(codec, setup);
    var ctx := new ServerLoop.Context(kernel, core, setup.cap);
    ghost var w := Server.Initial(setup.cap, AppOf(setup));
    RunIsServedRight(codec, setup.cap, AppOf(setup), evs);
    RunIsExplained(codec, setup.cap, AppOf(setup), evs);
    RunSubscribesOnlyClients(codec, setup, evs);
    RunHearsEveryone(codec, setup.cap, AppOf(setup), evs);
    Progress.RunEndsIff(Conversations.Japi(codec), w, evs);
    code := ctx.StartServer(evs, w);
    gone, app := ctx.gone, core.app;
  }

  /** japi_init and the registrations. */
  method Initialise(codec: Conversations.Codec, setup: Setup) returns (core: Application.Core)
    ensures fresh(core) && fresh(core.api) && fresh(core.api.services) && fresh(core.lists) && core.nodes == {}
    ensures core.Valid() == true && core.app == AppOf(setup) && core.calls == Conversations.Japi(codec)
  {
    var api := new Api.Context();
    RegisterRequests(api, setup.requests);
    RegisterServices(api, setup.services);
    api.includeArgs := setup.includeArgs;
    core := new Application.Core(api, codec);
  }
}
