/** japi_process_message over the context in the heap. */
module Api {
  import opened Names
  import opened System
  import opened Registry
  import opened Dispatch
  import opened PushSend
  import opened ServiceTables

  /** The parts of japi_context that requests depend on. */
  class Context {
    const requests: RequestList
    const services: ServiceTable
    var includeArgs: bool

    ghost predicate Valid()
      reads this, requests, requests.nodes
      reads services, services.chain, services.chain.services, services.lists, services.owner.Keys
    {
      requests.Valid() && services.Valid() && Lookup(requests.entries, DEFAULT).Some?
    }

    ghost function Value(): App
      reads this, requests, services
    {
      App(requests.entries, services.model, includeArgs)
    }

    /** No subscriber list came or went, and subscriber nodes were only added. */
    twostate predicate Grew()
      reads services
    {
      services.lists == old(services.lists) && fresh(services.owner.Keys - old(services.owner.Keys))
    }

    /** japi_init */
    constructor ()
      ensures Valid() && Value() == App(BUILTINS, [], false)
      ensures fresh(requests) && fresh(services) && fresh(services.chain) && requests.init
      ensures services.lists == {} && services.owner == map[]
    {
      requests := new RequestList.Empty();
      services := new ServiceTable();
      includeArgs := false;
      new;
      requests.Initialise();
      DispatchIsTotal([], DEFAULT);
    }

    /** japi_cmd_list */
    method ListCommands() returns (names: seq<Json>)
      requires Valid()
      ensures names == RequestNames(requests.entries)
    {
      names := [];
      var req := requests.head;
      ghost var k := 0;
      ghost var entries := requests.entries;
      assert entries[0..] == entries;
      while req != null
        invariant k <= |requests.nodes| == |entries| && req == RequestAt(requests.nodes, k)
        invariant RequestNames(entries) == names + RequestNames(entries[k..])
        decreases |requests.nodes| - k
      {
        assert entries[k..][0] == entries[k] && entries[k..][1..] == entries[k + 1..];
        names := names + [Str(req.name)];
        req := req.next;
        k := k + 1;
      }
    }

    /** japi_pushsrv_list */
    method ListServices() returns (names: seq<Json>)
      requires Valid()
      ensures names == ServiceNames(services.model)
    {
      names := [];
      var psc := services.chain.head;
      ghost var k := 0;
      ghost var model := services.model;
      assert model[0..] == model;
      while psc != null
        invariant k <= |services.chain.services| == |model| && psc == ServiceAt(services.chain.services, k)
        invariant ServiceNames(model) == names + ServiceNames(model[k..])
        decreases |services.chain.services| - k
      {
        assert Holds(psc, model[k]);
        assert model[k..][0] == model[k] && model[k..][1..] == model[k + 1..];
        names := names + [Str(psc.name)];
        psc := psc.next;
        k := k + 1;
      }
    }

    method Subscribe(args: Json, lib: Lib) returns (data: Fields)
      requires Valid()
      modifies services, services.lists
      ensures Valid() && Grew()
      ensures (services.model, data) == SubscribeRequest(old(services.model), args, lib)
    {
      if !HasService(args) {
        return Refused(NOT_FOUND);
      }
      if !HasSocket(args, lib) {
        return Refused("Subscribing push service to non-existing socket");
      }
      var name := Text(args.fields["service"], lib);
      var ok := services.Subscribe(name, Number(args.fields["socket"], lib));
      data := map["service" := Str(name)];
      data := data + if ok then map["success" := Bool(true)] else Refused(NOT_FOUND);
    }

    method Unsubscribe(args: Json, lib: Lib) returns (data: Fields)
      requires Valid()
      modifies services, services.lists, services.owner.Keys`next
      ensures Valid() && Grew()
      ensures (services.model, data) == UnsubscribeRequest(old(services.model), args, lib)
    {
      if !HasService(args) {
        return Refused(NOT_FOUND);
      }
      if !HasSocket(args, lib) {
        return Refused("Unsubscribing push service from non-existing socket");
      }
      var name := Text(args.fields["service"], lib);
      var registered, unsubscribed := services.Unsubscribe(name, Number(args.fields["socket"], lib));
      data := Reply(name, registered, unsubscribed);
    }

    /** Lines 262-277. */
    method Reply(name: string, registered: bool, unsubscribed: bool) returns (data: Fields)
      ensures data == UnsubscribeReply(name, registered, unsubscribed)
    {
      data := map["service" := Str(name)];
      if registered && unsubscribed {
        data := data + map["success" := Bool(true)];
      } else if registered && !unsubscribed {
        data := data + Refused("Can't unsubscribe a service that wasn't subscribed before.");
      } else {
        data := data + Refused(NOT_FOUND);
      }
    }

    /** Lines 149-168. */
    method SelectHandler(name: string) returns (handler: Handler)
      requires Valid()
      ensures Select(requests.entries, name) == Some(handler)
    {
      var h := requests.GetHandler(name);
      if h == None {
        h := requests.GetHandler(FALLBACK);
        if h == None {
          h := requests.GetHandler(DEFAULT);
        }
      }
      handler := h.value;
    }

    method CallHandler(handler: Handler, args: Json, lib: Lib) returns (data: Fields)
      requires Valid()
      modifies services, services.lists, services.owner.Keys`next
      ensures Valid() && Grew()
      ensures (services.model, data) == Call(handler, old(Value()), args, lib)
    {
      match handler
      case NotFound => data := map["error" := Str("no request handler found")];
      case Subscribe => data := Subscribe(args, lib);
      case Unsubscribe => data := Unsubscribe(args, lib);
      case ListServices =>
        var names := ListServices();
        data := map["services" := Arr(names)];
      case ListCommands =>
        var names := ListCommands();
        data := map["commands" := Arr(names)];
      case User(id) => data := (lib.user)(id, args);
    }

    /** The response object, lines 117-140 and 182. */
    method Respond(jreq: ProperRequest, args: Json, data: Fields) returns (response: Json)
      ensures response == Response(Value(), jreq, args, data)
    {
      var fields := map["japi_response" := jreq.fields["japi_request"]];
      fields := fields + if "japi_request_no" in jreq.fields
                         then map["japi_request_no" := jreq.fields["japi_request_no"]] else map[];
      fields := fields + if "args" in jreq.fields && includeArgs then map["args" := args] else map[];
      response := Obj(fields + map["data" := Obj(data)]);
    }

    /** Lines 111-185, for a request that parsed. */
    method Answer(jreq: ProperRequest, socket: int, lib: Lib) returns (response: Json)
      requires Valid()
      modifies services, services.lists, services.owner.Keys`next
      ensures Valid() && Grew()
      ensures (Value(), Some(response)) == Process(old(Value()), lib, Some(jreq), socket)
    {
      ghost var app := Value();
      var args := ArgsFor(jreq, socket);
      var handler := SelectHandler(Name(jreq));
      var data := CallHandler(handler, args, lib);
      response := Respond(jreq, args, data);
      ProcessParts(app, Value(), lib, jreq, socket, handler, args, data);
      assert Valid() == true;
    }

    /** japi_process_message, given what the parser made of the line. */
    method ProcessMessage(request: Option<ProperRequest>, socket: int, lib: Lib)
      returns (ret: int, response: Option<Json>)
      requires Valid()
      modifies services, services.lists, services.owner.Keys`next
      ensures Valid() && Grew()
      ensures (Value(), response) == Process(old(Value()), lib, request, socket)
      ensures ret == if request == None then -1 else 0
    {
      ret, response := -1, None;
      if request.Some? {
        var jresp := Answer(request.value, socket, lib);
        ret, response := 0, Some(jresp);
      }
      assert Valid() == true;
    }
  }

  lemma ProcessParts(
    app: App, app': App, lib: Lib, jreq: ProperRequest, socket: int, handler: Handler, args: Json, data: Fields)
    requires Lookup(app.requests, DEFAULT).Some? && Select(app.requests, Name(jreq)) == Some(handler)
    requires args == ArgsFor(jreq, socket) && app' == app.(services := app'.services)
    requires (app'.services, data) == Call(handler, app, args, lib)
    ensures Process(app, lib, Some(jreq), socket) == (app', Some(Response(app', jreq, args, data)))
  {
  }
}
