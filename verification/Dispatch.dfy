/** japi_process_message: from a parsed request to a handler and a response. */
module Dispatch {
  import opened Names
  import opened System
  import opened Registry
  import Services
  import opened Sockets

  datatype Json =
    | Null
    | Bool(b: bool)
    | Int(n: int)
    | Str(s: string)
    | Arr(elems: seq<Json>)
    | Obj(fields: map<string, Json>)

  type Fields = map<string, Json>

  /** What the model takes from outside: json-c's conversions and the user's handlers. */
  datatype Lib = Lib(show: Json -> string, toInt: Json -> int, user: (int, Json) -> Fields)

  /** The parts of japi_context that requests depend on. */
  datatype App = App(requests: seq<Entry>, services: seq<Services.Service>, includeArgs: bool)

  const SUBSCRIBE := "japi_pushsrv_subscribe"
  const UNSUBSCRIBE := "japi_pushsrv_unsubscribe"
  const FALLBACK := "request_not_found_handler"
  const DEFAULT := "japi_request_not_found_handler"

  /** Lines 143-144: the two requests that are given the client's socket. */
  predicate WantsSocket(name: string) {
    Same(name, SUBSCRIBE) || Same(name, UNSUBSCRIBE)
  }

  /** Requests with a string "japi_request" and, where a socket must be added, an object to add it to. */
  predicate Proper(j: Json) {
    && j.Obj? && "japi_request" in j.fields && j.fields["japi_request"].Str?
    && (WantsSocket(j.fields["japi_request"].s) ==> "args" in j.fields && j.fields["args"].Obj?)
  }

  type ProperRequest = j: Json | Proper(j) witness Obj(map["japi_request" := Str("")])

  function Name(request: ProperRequest): string {
    request.fields["japi_request"].s
  }

  /** Lines 127-146: the arguments the handler gets, NULL for none. */
  function ArgsFor(request: ProperRequest, socket: int): Json {
    if WantsSocket(Name(request)) then Obj(request.fields["args"].fields["socket" := Int(socket)])
    else if "args" in request.fields then request.fields["args"]
    else Null
  }

  /** Lines 149-168: the match, else the user's fallback, else the default. */
  function Select(requests: seq<Entry>, name: string): Option<Handler> {
    if Lookup(requests, name).Some? then Lookup(requests, name)
    else if Lookup(requests, FALLBACK).Some? then Lookup(requests, FALLBACK)
    else Lookup(requests, DEFAULT)
  }

  function Text(j: Json, lib: Lib): string {
    if j.Str? then j.s else (lib.show)(j)
  }

  function Number(j: Json, lib: Lib): int {
    if j.Int? then j.n else (lib.toInt)(j)
  }

  function Refused(message: string): Fields {
    map["success" := Bool(false), "message" := Str(message)]
  }

  function HasService(args: Json): bool {
    args.Obj? && "service" in args.fields && args.fields["service"] != Null
  }

  function HasSocket(args: Json, lib: Lib): bool {
    args.Obj? && "socket" in args.fields && Number(args.fields["socket"], lib) >= 0
  }

  const NOT_FOUND := "Push service not found."

  /** japi_pushsrv_subscribe */
  function SubscribeRequest(svcs: seq<Services.Service>, args: Json, lib: Lib): (seq<Services.Service>, Fields) {
    if !HasService(args) then (svcs, Refused(NOT_FOUND))
    else if !HasSocket(args, lib) then (svcs, Refused("Subscribing push service to non-existing socket"))
    else
      var name := Text(args.fields["service"], lib);
      var (svcs', ok) := Services.Subscribe(svcs, name, Number(args.fields["socket"], lib));
      (svcs', map["service" := Str(name)] + if ok then map["success" := Bool(true)] else Refused(NOT_FOUND))
  }

  /** What an unsubscribe request is told, given whether the service and the subscription were found. */
  function UnsubscribeReply(name: string, registered: bool, unsubscribed: bool): Fields {
    map["service" := Str(name)] +
    if registered && unsubscribed then map["success" := Bool(true)]
    else if registered then Refused("Can't unsubscribe a service that wasn't subscribed before.")
    else Refused(NOT_FOUND)
  }

  /** japi_pushsrv_unsubscribe */
  function UnsubscribeRequest(svcs: seq<Services.Service>, args: Json, lib: Lib): (seq<Services.Service>, Fields) {
    if !HasService(args) then (svcs, Refused(NOT_FOUND))
    else if !HasSocket(args, lib) then (svcs, Refused("Unsubscribing push service from non-existing socket"))
    else
      var name := Text(args.fields["service"], lib);
      var u := Services.Unsubscribe(svcs, name, Number(args.fields["socket"], lib));
      (u.svcs, UnsubscribeReply(name, u.registered, u.done))
  }

  function ServiceNames(svcs: seq<Services.Service>): seq<Json> {
    if svcs == [] then [] else [Str(svcs[0].name)] + ServiceNames(svcs[1..])
  }

  function RequestNames(requests: seq<Entry>): seq<Json> {
    if requests == [] then [] else [Str(requests[0].name)] + RequestNames(requests[1..])
  }

  /** Calling a handler: the services afterwards, and the response data. */
  function Call(handler: Handler, app: App, args: Json, lib: Lib): (seq<Services.Service>, Fields) {
    match handler
    case NotFound => (app.services, map["error" := Str("no request handler found")])
    case Subscribe => SubscribeRequest(app.services, args, lib)
    case Unsubscribe => UnsubscribeRequest(app.services, args, lib)
    case ListServices => (app.services, map["services" := Arr(ServiceNames(app.services))])
    case ListCommands => (app.services, map["commands" := Arr(RequestNames(app.requests))])
    case User(id) => (app.services, (lib.user)(id, args))
  }

  /**
   * The response object. The arguments it may include are the very object the handler got, so they show
   * the socket that was put in.
   */
  function Response(app: App, request: ProperRequest, args: Json, data: Fields): Json {
    Obj(map["japi_response" := request.fields["japi_request"]]
        + (if "japi_request_no" in request.fields
           then map["japi_request_no" := request.fields["japi_request_no"]] else map[])
        + (if "args" in request.fields && app.includeArgs then map["args" := args] else map[])
        + map["data" := Obj(data)])
  }

  /** japi_process_message on the outcome of parsing; no response for what did not parse. */
  function Process(app: App, lib: Lib, request: Option<ProperRequest>, socket: int): (r: (App, Option<Json>))
    requires Lookup(app.requests, DEFAULT).Some?
  {
    if request == None then (app, None)
    else
      var args := ArgsFor(request.value, socket);
      var handler := Select(app.requests, Name(request.value)).value;
      var (services, data) := Call(handler, app, args, lib);
      (app.(services := services), Some(Response(app, request.value, args, data)))
  }

  // ---- What dispatch guarantees in every context reachable from japi_init

  lemma DefaultIsBuiltin()
    ensures |BUILTINS| == 5 && BUILTINS[4] == Entry(DEFAULT, NotFound)
    ensures BUILTINS[3] == Entry(SUBSCRIBE, Subscribe) && BUILTINS[2] == Entry(UNSUBSCRIBE, Unsubscribe)
  {
  }

  /** Whatever was registered, some handler is called: the match, else the user's fallback, else the default. */
  lemma DispatchIsTotal(attempts: seq<Attempt>, name: string)
    ensures var requests := Run(BUILTINS, attempts);
            && Lookup(requests, DEFAULT) == Some(NotFound)
            && Select(requests, name).Some?
            && (Lookup(requests, name).Some? ==> Select(requests, name) == Lookup(requests, name))
            && (Lookup(requests, name).None? ==>
                  Select(requests, name) ==
                  if Lookup(requests, FALLBACK).Some? then Lookup(requests, FALLBACK) else Some(NotFound))
            && (Lookup(requests, FALLBACK).Some? ==> Lookup(requests, FALLBACK).value.User?)
  {
    DefaultIsBuiltin();
    SameIsAnEquivalence(DEFAULT, DEFAULT, DEFAULT);
    BuiltinsStand(attempts, DEFAULT, 4);
    FallbackIsTheUsers(attempts);
  }

  /** No built-in request has a name of the fallback's length. */
  lemma FallbackIsTheUsers(attempts: seq<Attempt>)
    ensures var h := Lookup(Run(BUILTINS, attempts), FALLBACK);
            h.Some? ==> h.value.User?
  {
    BuiltinLengths();
    assert |FALLBACK| == 25;
    forall b: nat | b < 5 ensures Lookup(Run(BUILTINS, attempts), FALLBACK) != Some(BUILTINS[b].handler) {
      BuiltinsStand(attempts, FALLBACK, b);
    }
    BuiltinHandlers();
  }

  lemma BuiltinHandlers()
    ensures forall h: Handler :: h.User? || exists b: nat :: b < |BUILTINS| && BUILTINS[b].handler == h
  {
    assert BUILTINS[0].handler == ListCommands && BUILTINS[1].handler == ListServices;
    assert BUILTINS[2].handler == Unsubscribe && BUILTINS[3].handler == Subscribe && BUILTINS[4].handler == NotFound;
  }

  /**
   * A request reaches the built-in subscribe or unsubscribe handler if and only if it is one of the two
   * requests whose arguments are given a socket, and the socket it is given is the requesting connection,
   * whatever the client sent. Every other request gets its arguments as sent.
   */
  lemma SocketIsTheRequester(attempts: seq<Attempt>, request: ProperRequest, socket: int)
    ensures var h := Select(Run(BUILTINS, attempts), Name(request));
            && h.Some?
            && (h.value.Subscribe? || h.value.Unsubscribe? <==> WantsSocket(Name(request)))
            && (WantsSocket(Name(request)) ==>
                  && ArgsFor(request, socket).Obj?
                  && ArgsFor(request, socket).fields == request.fields["args"].fields["socket" := Int(socket)])
            && (!WantsSocket(Name(request)) ==>
                  ArgsFor(request, socket) == if "args" in request.fields then request.fields["args"] else Null)
  {
    DefaultIsBuiltin();
    DispatchIsTotal(attempts, Name(request));
    BuiltinsStand(attempts, Name(request), 3);
    BuiltinsStand(attempts, Name(request), 2);
  }

  /** Whether a response reports success exactly if the subscriptions changed, and else says why. */
  predicate ReportsChange(data: Fields, before: seq<Services.Service>, after: seq<Services.Service>) {
    && "success" in data && data["success"] == Bool(after != before)
    && ("message" in data <==> after == before)
  }

  /** The response to a subscribe request reports success if and only if a subscription was made. */
  lemma SubscribeReportsTheTruth(svcs: seq<Services.Service>, args: Json, lib: Lib)
    ensures ReportsChange(SubscribeRequest(svcs, args, lib).1, svcs, SubscribeRequest(svcs, args, lib).0)
  {
    if HasService(args) && HasSocket(args, lib) {
      var name := Text(args.fields["service"], lib);
      Services.SubscribeChangesIff(svcs, name, Number(args.fields["socket"], lib));
    }
  }

  /** The response to an unsubscribe request reports success if and only if a subscription was ended. */
  lemma UnsubscribeReportsTheTruth(svcs: seq<Services.Service>, args: Json, lib: Lib)
    ensures ReportsChange(UnsubscribeRequest(svcs, args, lib).1, svcs, UnsubscribeRequest(svcs, args, lib).0)
  {
    if HasService(args) && HasSocket(args, lib) {
      var name := Text(args.fields["service"], lib);
      Services.UnsubscribeChangesIff(svcs, name, Number(args.fields["socket"], lib));
    }
  }

  /** The two listings show every name, newest first. */
  lemma {:induction false} ListingsAreComplete(svcs: seq<Services.Service>, requests: seq<Entry>)
    ensures |ServiceNames(svcs)| == |svcs| && |RequestNames(requests)| == |requests|
    ensures forall i :: 0 <= i < |svcs| ==> ServiceNames(svcs)[i] == Str(svcs[i].name)
    ensures forall i :: 0 <= i < |requests| ==> RequestNames(requests)[i] == Str(requests[i].name)
    decreases |svcs| + |requests|
  {
    if svcs != [] {
      ListingsAreComplete(svcs[1..], requests);
    } else if requests != [] {
      ListingsAreComplete(svcs, requests[1..]);
    }
  }

  /**
   * What a client can rely on in a response: it names the request, repeats its number if there is one, and
   * carries what the selected handler returned; anything else in it is the arguments the handler got, and
   * only on demand.
   */
  lemma ResponseEchoesTheRequest(app: App, lib: Lib, request: ProperRequest, socket: int)
    requires Lookup(app.requests, DEFAULT).Some?
    ensures var response := Process(app, lib, Some(request), socket).1;
            var data := Call(Select(app.requests, Name(request)).value, app, ArgsFor(request, socket), lib).1;
            && response.Some? && response.value.Obj?
            && var fields := response.value.fields;
               && "japi_response" in fields && fields["japi_response"] == Str(Name(request))
               && ("japi_request_no" in fields <==> "japi_request_no" in request.fields)
               && ("japi_request_no" in fields ==> fields["japi_request_no"] == request.fields["japi_request_no"])
               && "data" in fields && fields["data"] == Obj(data)
               && ("args" in fields <==> app.includeArgs && "args" in request.fields)
               && ("args" in fields ==> fields["args"] == ArgsFor(request, socket))
               && fields.Keys <= {"japi_response", "japi_request_no", "data", "args"}
  {
    var args := ArgsFor(request, socket);
    ResponseFields(app, request, args, Call(Select(app.requests, Name(request)).value, app, args, lib).1);
  }

  lemma ResponseFields(app: App, request: ProperRequest, args: Json, data: Fields)
    ensures Response(app, request, args, data).Obj?
    ensures var fields := Response(app, request, args, data).fields;
            && "japi_response" in fields && fields["japi_response"] == Str(Name(request))
            && ("japi_request_no" in fields <==> "japi_request_no" in request.fields)
            && ("japi_request_no" in fields ==> fields["japi_request_no"] == request.fields["japi_request_no"])
            && "data" in fields && fields["data"] == Obj(data)
            && ("args" in fields <==> app.includeArgs && "args" in request.fields)
            && ("args" in fields ==> fields["args"] == args)
            && fields.Keys <= {"japi_response", "japi_request_no", "data", "args"}
  {
  }

  /** A client's request to subscribe to a service called "s". */
  const SUBSCRIBE_TO_S: Json := Obj(map["japi_request" := Str(SUBSCRIBE), "args" := Obj(map["service" := Str("s")])])

  /** The arguments the response shows, if it shows any. */
  function EchoedArgs(app: App, lib: Lib, request: ProperRequest, socket: int): Option<Json>
    requires Lookup(app.requests, DEFAULT).Some?
  {
    var response := Process(app, lib, Some(request), socket).1;
    if response.Some? && response.value.Obj? && "args" in response.value.fields
    then Some(response.value.fields["args"]) else None
  }

  /**
   * Exactly when a response that is to include the arguments given in the request does: unless the request is
   * one of the two that are given a socket, and it did not bring that very socket along.
   */
  lemma ArgsAreEchoedIff(app: App, lib: Lib, request: ProperRequest, socket: int)
    requires Lookup(app.requests, DEFAULT).Some? && app.includeArgs && "args" in request.fields
    ensures EchoedArgs(app, lib, request, socket) == Some(request.fields["args"])
       <==> (WantsSocket(Name(request)) ==>
               var given := request.fields["args"].fields; "socket" in given && given["socket"] == Int(socket))
  {
    ResponseEchoesTheRequest(app, lib, request, socket);
    if WantsSocket(Name(request)) {
      var given := request.fields["args"].fields;
      assert given["socket" := Int(socket)] == given <==> "socket" in given && given["socket"] == Int(socket);
    }
  }

  /** Client 4, which subscribes as the documentation shows, is sent back arguments it never gave. */
  lemma SubscribeEchoesTheSocket(lib: Lib, services: seq<Services.Service>)
    ensures Lookup(BUILTINS, DEFAULT).Some?
    ensures var app := App(BUILTINS, services, true);
            && EchoedArgs(app, lib, SUBSCRIBE_TO_S, 4) == Some(Obj(map["service" := Str("s"), "socket" := Int(4)]))
            && EchoedArgs(app, lib, SUBSCRIBE_TO_S, 4) != Some(SUBSCRIBE_TO_S.fields["args"])
  {
    DispatchIsTotal([], DEFAULT);
    SameIsAnEquivalence(SUBSCRIBE, SUBSCRIBE, SUBSCRIBE);
    var given: Fields := map["service" := Str("s")];
    assert SUBSCRIBE_TO_S.fields["args"] == Obj(given);
    assert given["socket" := Int(4)] == map["service" := Str("s"), "socket" := Int(4)];
    ResponseEchoesTheRequest(App(BUILTINS, services, true), lib, SUBSCRIBE_TO_S, 4);
    ArgsAreEchoedIff(App(BUILTINS, services, true), lib, SUBSCRIBE_TO_S, 4);
  }

  /** A request changes nobody's subscriptions but the requester's, by at most one, in at most one service. */
  lemma OthersKeepTheirSubscriptions(
    attempts: seq<Attempt>, app: App, lib: Lib, request: Option<ProperRequest>, socket: int, i: nat, fd: int)
    requires app.requests == Run(BUILTINS, attempts) && Lookup(app.requests, DEFAULT).Some?
    requires i < |app.services| && fd != socket
    ensures |Process(app, lib, request, socket).0.services| == |app.services|
    ensures Process(app, lib, request, socket).0.requests == app.requests
    ensures Count(Process(app, lib, request, socket).0.services[i].subs, fd) == Count(app.services[i].subs, fd)
  {
    if request.Some? {
      SocketIsTheRequester(attempts, request.value, socket);
      if WantsSocket(Name(request.value)) {
        RequestCounts(app.services, ArgsFor(request.value, socket), lib, socket, i, fd);
      }
    }
  }

  lemma RequestCounts(svcs: seq<Services.Service>, args: Json, lib: Lib, socket: int, i: nat, fd: int)
    requires i < |svcs| && fd != socket && args.Obj? && "socket" in args.fields && args.fields["socket"] == Int(socket)
    ensures var r := SubscribeRequest(svcs, args, lib).0;
            |r| == |svcs| && Count(r[i].subs, fd) == Count(svcs[i].subs, fd)
    ensures var r := UnsubscribeRequest(svcs, args, lib).0;
            |r| == |svcs| && Count(r[i].subs, fd) == Count(svcs[i].subs, fd)
  {
    if HasService(args) && HasSocket(args, lib) {
      var name := Text(args.fields["service"], lib);
      SubscribeCounts(svcs, name, socket, i, fd);
      UnsubscribeCounts(svcs, name, socket, i, fd);
    }
  }

  lemma {:induction false} SubscribeCounts(svcs: seq<Services.Service>, name: string, socket: int, i: nat, fd: int)
    requires i < |svcs| && fd != socket
    ensures Count(Services.Subscribe(svcs, name, socket).0[i].subs, fd) == Count(svcs[i].subs, fd)
  {
    if i > 0 && !Same(name, svcs[0].name) {
      SubscribeCounts(svcs[1..], name, socket, i - 1, fd);
    }
  }

  lemma {:induction false} UnsubscribeCounts(svcs: seq<Services.Service>, name: string, socket: int, i: nat, fd: int)
    requires i < |svcs| && fd != socket
    ensures Count(Services.Unsubscribe(svcs, name, socket).svcs[i].subs, fd) == Count(svcs[i].subs, fd)
  {
    if Services.Lists(svcs[0], name, socket) {
      if i == 0 {
        RemoveFirstMultiset(svcs[0].subs, socket);
      }
    } else if i > 0 {
      UnsubscribeCounts(svcs[1..], name, socket, i - 1, fd);
    }
  }
}
