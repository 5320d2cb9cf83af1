/**
 * What each kind of request does and is answered, in every context that japi_init and registrations can make:
 * the handlers' promises, stated on the whole of japi_process_message.
 */
module Requests {
  import opened Names
  import opened System
  import opened Sockets
  import opened Registry
  import opened Dispatch
  import Services
  import Subscriptions

  /** The request leaves this context and is answered with this data. */
  ghost predicate Answered(app: App, lib: Lib, request: ProperRequest, fd: int, app': App, data: Fields) {
    Lookup(app.requests, DEFAULT).Some? &&
    var (after, response) := Process(app, lib, Some(request), fd);
    && after == app' && response.Some? && response.value.Obj?
    && "data" in response.value.fields && response.value.fields["data"] == Obj(data)
  }

  /** The arguments a request brings, JSON null if it brings none. */
  function ArgsGiven(request: ProperRequest): Json {
    if "args" in request.fields then request.fields["args"] else Null
  }

  /** The name of the service a request is about. */
  function ServiceNamed(args: Fields, lib: Lib): string
    requires "service" in args
  {
    if args["service"].Str? then args["service"].s else (lib.show)(args["service"])
  }

  predicate NamesService(args: Fields) {
    "service" in args && args["service"] != Null
  }

  lemma CalledWith(attempts: seq<Attempt>, app: App, lib: Lib, request: ProperRequest, fd: int, h: Handler)
    requires app.requests == Run(BUILTINS, attempts) && Select(app.requests, Name(request)) == Some(h)
    ensures var (services, data) := Call(h, app, ArgsFor(request, fd), lib);
            Answered(app, lib, request, fd, app.(services := services), data)
  {
    DispatchIsTotal(attempts, Name(request));
    ResponseEchoesTheRequest(app, lib, request, fd);
  }

  /** Text that is not JSON is not answered and changes nothing. */
  lemma UnparsedIsDropped(attempts: seq<Attempt>, app: App, lib: Lib, fd: int)
    requires app.requests == Run(BUILTINS, attempts)
    ensures Lookup(app.requests, DEFAULT).Some? && Process(app, lib, None, fd) == (app, None)
  {
    DispatchIsTotal(attempts, DEFAULT);
  }

  /**
   * A user's handler, found by its name or as the fallback for unknown names, is given the request's own
   * arguments, and its answer is the response's data; no subscription changes.
   */
  lemma UserHandlerIsGivenTheArgs(
    attempts: seq<Attempt>, app: App, lib: Lib, request: ProperRequest, fd: int, id: int)
    requires app.requests == Run(BUILTINS, attempts)
    requires || Lookup(app.requests, Name(request)) == Some(User(id))
             || (Lookup(app.requests, Name(request)) == None && Lookup(app.requests, FALLBACK) == Some(User(id)))
    ensures Answered(app, lib, request, fd, app, (lib.user)(id, ArgsGiven(request)))
  {
    DispatchIsTotal(attempts, Name(request));
    SocketIsTheRequester(attempts, request, fd);
    CalledWith(attempts, app, lib, request, fd, User(id));
  }

  /** Without a match and without a fallback the client is told so. */
  lemma UnknownRequestIsToldSo(attempts: seq<Attempt>, app: App, lib: Lib, request: ProperRequest, fd: int)
    requires app.requests == Run(BUILTINS, attempts)
    requires Lookup(app.requests, Name(request)) == None && Lookup(app.requests, FALLBACK) == None
    ensures Answered(app, lib, request, fd, app, map["error" := Str("no request handler found")])
  {
    DispatchIsTotal(attempts, Name(request));
    CalledWith(attempts, app, lib, request, fd, NotFound);
  }

  lemma BuiltinIsSelected(attempts: seq<Attempt>, name: string, b: nat)
    requires b < |BUILTINS| && Same(name, BUILTINS[b].name)
    ensures Select(Run(BUILTINS, attempts), name) == Some(BUILTINS[b].handler)
  {
    BuiltinsStand(attempts, name, b);
  }

  /** japi_cmd_list, in any spelling, lists the registered requests, newest first. */
  lemma CommandsAreListed(attempts: seq<Attempt>, app: App, lib: Lib, request: ProperRequest, fd: int)
    requires app.requests == Run(BUILTINS, attempts) && Same(Name(request), "japi_cmd_list")
    ensures Answered(app, lib, request, fd, app, map["commands" := Arr(RequestNames(app.requests))])
    ensures |RequestNames(app.requests)| == |app.requests|
    ensures forall i :: 0 <= i < |app.requests| ==> RequestNames(app.requests)[i] == Str(app.requests[i].name)
  {
    BuiltinIsSelected(attempts, Name(request), 0);
    assert BUILTINS[0].handler == ListCommands;
    CalledWith(attempts, app, lib, request, fd, ListCommands);
    ListingsAreComplete(app.services, app.requests);
  }

  /** japi_pushsrv_list, in any spelling, lists the registered services, newest first. */
  lemma ServicesAreListed(attempts: seq<Attempt>, app: App, lib: Lib, request: ProperRequest, fd: int)
    requires app.requests == Run(BUILTINS, attempts) && Same(Name(request), "japi_pushsrv_list")
    ensures Answered(app, lib, request, fd, app, map["services" := Arr(ServiceNames(app.services))])
    ensures |ServiceNames(app.services)| == |app.services|
    ensures forall i :: 0 <= i < |app.services| ==> ServiceNames(app.services)[i] == Str(app.services[i].name)
  {
    BuiltinIsSelected(attempts, Name(request), 1);
    CalledWith(attempts, app, lib, request, fd, ListServices);
    ListingsAreComplete(app.services, app.requests);
  }

  // ---- Subscribe and unsubscribe

  lemma SubscribeIsCalled(attempts: seq<Attempt>, app: App, lib: Lib, request: ProperRequest, fd: int)
    requires app.requests == Run(BUILTINS, attempts) && Same(Name(request), SUBSCRIBE)
    ensures var args := WithSocket(request.fields["args"].fields, fd);
            var (services, data) := SubscribeRequest(app.services, args, lib);
            Answered(app, lib, request, fd, app.(services := services), data)
  {
    Subscriptions.SubscribersAreNamed(attempts, Name(request));
    CalledWith(attempts, app, lib, request, fd, Subscribe);
  }

  lemma UnsubscribeIsCalled(attempts: seq<Attempt>, app: App, lib: Lib, request: ProperRequest, fd: int)
    requires app.requests == Run(BUILTINS, attempts) && Same(Name(request), UNSUBSCRIBE)
    ensures var args := WithSocket(request.fields["args"].fields, fd);
            var (services, data) := UnsubscribeRequest(app.services, args, lib);
            Answered(app, lib, request, fd, app.(services := services), data)
  {
    Subscriptions.SubscribersAreNamed(attempts, Name(request));
    CalledWith(attempts, app, lib, request, fd, Unsubscribe);
  }

  lemma ReplyFields(name: string, message: string)
    ensures map["service" := Str(name)] + map["success" := Bool(true)]
         == map["service" := Str(name), "success" := Bool(true)]
    ensures map["service" := Str(name)] + Refused(message)
         == map["service" := Str(name), "success" := Bool(false), "message" := Str(message)]
  {
  }

  /** The arguments the handler gets: those given, with the requester's socket. */
  function WithSocket(args: Fields, fd: int): Json {
    Obj(args["socket" := Int(fd)])
  }

  lemma NamedWithSocket(args: Fields, fd: int, lib: Lib)
    requires NamesService(args) && fd >= 0
    ensures HasService(WithSocket(args, fd)) && HasSocket(WithSocket(args, fd), lib)
    ensures Text(WithSocket(args, fd).fields["service"], lib) == ServiceNamed(args, lib)
    ensures Number(WithSocket(args, fd).fields["socket"], lib) == fd
  {
  }

  lemma SubscribeMeans(svcs: seq<Services.Service>, args: Fields, lib: Lib, fd: int, k: nat)
    requires NamesService(args) && fd >= 0 && k <= |svcs|
    requires var n := ServiceNamed(args, lib);
             && (k < |svcs| ==> Same(n, svcs[k].name)) && forall j :: 0 <= j < k ==> !Same(n, svcs[j].name)
    ensures SubscribeRequest(svcs, WithSocket(args, fd), lib) ==
            if k < |svcs| then
              (svcs[k := svcs[k].(subs := [fd] + svcs[k].subs)],
               map["service" := Str(ServiceNamed(args, lib)), "success" := Bool(true)])
            else
              (svcs, map["service" := Str(ServiceNamed(args, lib)), "success" := Bool(false),
                         "message" := Str(NOT_FOUND)])
  {
    var n := ServiceNamed(args, lib);
    NamedWithSocket(args, fd, lib);
    ReplyFields(n, NOT_FOUND);
    if k < |svcs| {
      Services.SubscribeAt(svcs, n, fd, k);
    } else {
      Services.SubscribeNowhere(svcs, n, fd);
    }
  }

  const NOT_SUBSCRIBED := "Can't unsubscribe a service that wasn't subscribed before."

  lemma UnsubscribeMeans(svcs: seq<Services.Service>, args: Fields, lib: Lib, fd: int, k: nat, named: bool)
    requires NamesService(args) && fd >= 0 && k <= |svcs|
    requires var n := ServiceNamed(args, lib);
             && (k < |svcs| ==> Same(n, svcs[k].name) && fd in svcs[k].subs)
             && (forall j :: 0 <= j < k ==> !(Same(n, svcs[j].name) && fd in svcs[j].subs))
             && (named <==> exists j :: 0 <= j < |svcs| && Same(n, svcs[j].name))
    ensures UnsubscribeRequest(svcs, WithSocket(args, fd), lib) ==
            if k < |svcs| then
              (svcs[k := svcs[k].(subs := RemoveFirst(svcs[k].subs, fd))],
               map["service" := Str(ServiceNamed(args, lib)), "success" := Bool(true)])
            else
              (svcs, map["service" := Str(ServiceNamed(args, lib)), "success" := Bool(false),
                         "message" := Str(if named then NOT_SUBSCRIBED else NOT_FOUND)])
  {
    var n := ServiceNamed(args, lib);
    NamedWithSocket(args, fd, lib);
    ReplyFields(n, if named then NOT_SUBSCRIBED else NOT_FOUND);
    if k < |svcs| {
      Services.UnsubscribeAt(svcs, n, fd, k);
    } else {
      Services.UnsubscribeNowhere(svcs, n, fd);
    }
  }

  /** Neither request does anything if it names no service. */
  lemma NamelessIsRefused(attempts: seq<Attempt>, app: App, lib: Lib, request: ProperRequest, fd: int)
    requires app.requests == Run(BUILTINS, attempts) && WantsSocket(Name(request))
    requires !NamesService(request.fields["args"].fields)
    ensures Answered(app, lib, request, fd, app,
                     map["success" := Bool(false), "message" := Str("Push service not found.")])
  {
    if Same(Name(request), SUBSCRIBE) {
      SubscribeIsCalled(attempts, app, lib, request, fd);
    } else {
      UnsubscribeIsCalled(attempts, app, lib, request, fd);
    }
  }

  /**
   * A subscribe request, in any spelling, for the service of a name, in any spelling: the first service of the name
   * gets the requester in front of its list, nothing else changes, and the client is told; without one nothing
   * changes, and the client is told that. `k` is the first service of the name, or past the end.
   */
  lemma SubscribeAnswered(attempts: seq<Attempt>, app: App, lib: Lib, request: ProperRequest, fd: int, k: nat)
    requires app.requests == Run(BUILTINS, attempts) && Same(Name(request), SUBSCRIBE) && fd >= 0
    requires NamesService(request.fields["args"].fields)
    requires var n := ServiceNamed(request.fields["args"].fields, lib);
             && k <= |app.services| && (k < |app.services| ==> Same(n, app.services[k].name))
             && forall j :: 0 <= j < k ==> !Same(n, app.services[j].name)
    ensures var n := ServiceNamed(request.fields["args"].fields, lib);
            if k < |app.services| then
              var v := app.services[k];
              Answered(app, lib, request, fd, app.(services := app.services[k := v.(subs := [fd] + v.subs)]),
                       map["service" := Str(n), "success" := Bool(true)])
            else
              Answered(app, lib, request, fd, app,
                       map["service" := Str(n), "success" := Bool(false),
                           "message" := Str("Push service not found.")])
  {
    SubscribeIsCalled(attempts, app, lib, request, fd);
    SubscribeMeans(app.services, request.fields["args"].fields, lib, fd, k);
    assert app.(services := app.services) == app;
  }

  /**
   * An unsubscribe request: the requester's first subscription leaves the first service of the name that lists it,
   * nothing else changes, and the client is told; if none lists it nothing changes, and the client is told whether
   * there is a service of the name at all. `k` is that service, or past the end.
   */
  lemma UnsubscribeAnswered(attempts: seq<Attempt>, app: App, lib: Lib, request: ProperRequest, fd: int, k: nat)
    requires app.requests == Run(BUILTINS, attempts) && Same(Name(request), UNSUBSCRIBE) && fd >= 0
    requires NamesService(request.fields["args"].fields)
    requires var n := ServiceNamed(request.fields["args"].fields, lib);
             && k <= |app.services|
             && (k < |app.services| ==> Same(n, app.services[k].name) && fd in app.services[k].subs)
             && forall j :: 0 <= j < k ==> !(Same(n, app.services[j].name) && fd in app.services[j].subs)
    ensures var n := ServiceNamed(request.fields["args"].fields, lib);
            if k < |app.services| then
              var v := app.services[k];
              Answered(app, lib, request, fd, app.(services := app.services[k := v.(subs := RemoveFirst(v.subs, fd))]),
                       map["service" := Str(n), "success" := Bool(true)])
            else if exists j :: 0 <= j < |app.services| && Same(n, app.services[j].name) then
              Answered(app, lib, request, fd, app,
                       map["service" := Str(n), "success" := Bool(false),
                           "message" := Str("Can't unsubscribe a service that wasn't subscribed before.")])
            else
              Answered(app, lib, request, fd, app,
                       map["service" := Str(n), "success" := Bool(false),
                           "message" := Str("Push service not found.")])
  {
    var named := exists j :: 0 <= j < |app.services| &&
                   Same(ServiceNamed(request.fields["args"].fields, lib), app.services[j].name);
    UnsubscribeIsCalled(attempts, app, lib, request, fd);
    UnsubscribeMeans(app.services, request.fields["args"].fields, lib, fd, k, named);
    assert app.(services := app.services) == app;
  }

  /** The first service of a name, in any spelling. */
  function FirstNamed(svcs: seq<Services.Service>, name: string): (k: nat)
    ensures k <= |svcs| && (k < |svcs| ==> Same(name, svcs[k].name))
    ensures forall j :: 0 <= j < k ==> !Same(name, svcs[j].name)
  {
    if svcs == [] || Same(name, svcs[0].name) then 0 else 1 + FirstNamed(svcs[1..], name)
  }

  /** A subscribe request succeeds if and only if there is a service of the name. */
  lemma SubscribeSucceedsIff(attempts: seq<Attempt>, app: App, lib: Lib, request: ProperRequest, fd: int)
    requires app.requests == Run(BUILTINS, attempts) && Same(Name(request), SUBSCRIBE) && fd >= 0
    requires NamesService(request.fields["args"].fields)
    ensures exists after, data :: Answered(app, lib, request, fd, after, data) && "success" in data
              && (data["success"] == Bool(true) <==>
                    exists s :: s in app.services && Same(ServiceNamed(request.fields["args"].fields, lib), s.name))
  {
    var k := FirstNamed(app.services, ServiceNamed(request.fields["args"].fields, lib));
    SubscribeAnswered(attempts, app, lib, request, fd, k);
    assert k < |app.services| ==> app.services[k] in app.services;
  }

  lemma ListedIff(svcs: seq<Services.Service>, name: string, fd: int, k: nat)
    requires k == Services.FirstLister(svcs, name, fd)
    ensures k < |svcs| <==> exists s :: s in svcs && Same(name, s.name) && fd in s.subs
  {
    assert k < |svcs| ==> svcs[k] in svcs;
  }

  /** An unsubscribe request succeeds if and only if some service of the name lists the requester. */
  lemma UnsubscribeSucceedsIff(attempts: seq<Attempt>, app: App, lib: Lib, request: ProperRequest, fd: int)
    requires app.requests == Run(BUILTINS, attempts) && Same(Name(request), UNSUBSCRIBE) && fd >= 0
    requires NamesService(request.fields["args"].fields)
    ensures var n := ServiceNamed(request.fields["args"].fields, lib);
            exists after, data :: Answered(app, lib, request, fd, after, data) && "success" in data
              && (data["success"] == Bool(true) <==> exists s :: s in app.services && Same(n, s.name) && fd in s.subs)
  {
    var n := ServiceNamed(request.fields["args"].fields, lib);
    var k := Services.FirstLister(app.services, n, fd);
    ListedIff(app.services, n, fd, k);
    var named := exists j :: 0 <= j < |app.services| && Same(n, app.services[j].name);
    UnsubscribeIsCalled(attempts, app, lib, request, fd);
    UnsubscribeMeans(app.services, request.fields["args"].fields, lib, fd, k, named);
  }

  /**
   * A subscribe request and then an unsubscribe request of the same client, each in any spelling and for the same
   * service in any spelling, both succeed and leave every list as it was, if there is such a service at all.
   */
  lemma RequestsUndoEachOther(
    attempts: seq<Attempt>, app: App, lib: Lib, sub: ProperRequest, unsub: ProperRequest, fd: int, k: nat)
    requires app.requests == Run(BUILTINS, attempts) && fd >= 0
    requires Same(Name(sub), SUBSCRIBE) && Same(Name(unsub), UNSUBSCRIBE)
    requires NamesService(sub.fields["args"].fields) && NamesService(unsub.fields["args"].fields)
    requires var n, m := ServiceNamed(sub.fields["args"].fields, lib), ServiceNamed(unsub.fields["args"].fields, lib);
             Same(n, m) && k == FirstNamed(app.services, n) < |app.services|
    ensures var n, m := ServiceNamed(sub.fields["args"].fields, lib), ServiceNamed(unsub.fields["args"].fields, lib);
            exists between ::
              && Answered(app, lib, sub, fd, between, map["service" := Str(n), "success" := Bool(true)])
              && Answered(between, lib, unsub, fd, app, map["service" := Str(m), "success" := Bool(true)])
  {
    var n, m := ServiceNamed(sub.fields["args"].fields, lib), ServiceNamed(unsub.fields["args"].fields, lib);
    var v := app.services[k];
    var between := app.(services := app.services[k := v.(subs := [fd] + v.subs)]);
    SubscribeAnswered(attempts, app, lib, sub, fd, k);
    SameIsAnEquivalence(n, m, v.name);
    SameIsAnEquivalence(m, n, v.name);
    forall j | 0 <= j < k ensures !Same(m, between.services[j].name) {
      SameIsAnEquivalence(n, m, app.services[j].name);
    }
    assert between.services[k := v] == app.services;
    UndoIsAnswered(attempts, between, lib, unsub, fd, k, v);
  }

  lemma UndoIsAnswered(
    attempts: seq<Attempt>, app: App, lib: Lib, unsub: ProperRequest, fd: int, k: nat, v: Services.Service)
    requires app.requests == Run(BUILTINS, attempts) && Same(Name(unsub), UNSUBSCRIBE) && fd >= 0
    requires NamesService(unsub.fields["args"].fields)
    requires k < |app.services| && app.services[k] == v.(subs := [fd] + v.subs)
    requires var m := ServiceNamed(unsub.fields["args"].fields, lib);
             Same(m, v.name) && forall j :: 0 <= j < k ==> !Same(m, app.services[j].name)
    ensures var m := ServiceNamed(unsub.fields["args"].fields, lib);
            Answered(app, lib, unsub, fd, app.(services := app.services[k := v]),
                     map["service" := Str(m), "success" := Bool(true)])
  {
    RemoveFirstHead(v.subs, fd);
    assert fd in app.services[k].subs;
    UnsubscribeAnswered(attempts, app, lib, unsub, fd, k);
    assert app.services[k].(subs := RemoveFirst(app.services[k].subs, fd)) == v;
  }
}
