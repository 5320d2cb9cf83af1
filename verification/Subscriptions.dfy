/**
 * Subscriptions against connections, as a system of critical sections: the server thread connects clients, serves
 * a request and takes a leaving client out of one service after the other; push threads send between any two of
 * these steps. That a section is one step is what PushThreads.RunIsAtomic proves of additions, removals and sends
 * under the service's lock. It is an assumption for unsubscribe requests: their removal is taken as inside the
 * lock, which japi_pushsrv_unsubscribe does not take (line 254); PushThreads.UnlockedUnsubscribeIsUnsafeIff shows
 * what can happen without. A request is one step although an unsubscribe may search several services: it changes
 * one of them at most.
 */
module Subscriptions {
  import opened Names
  import opened System
  import opened Sockets
  import opened Registry
  import opened Dispatch
  import Bytes
  import PushSend
  import RwN
  import Services

  /** A client on its way out, with the services from `next` on still to be cleared of it. */
  datatype Leaving = Leaving(fd: int, next: nat)

  datatype State = State(connected: set<int>, app: App, leaving: Option<Leaving>)

  datatype Step =
    | Connect(fd: int)
    | Serve(fd: int, request: Option<ProperRequest>)
    | Leave(fd: int)                       // japi_remove_client begins
    | ClearNext                            // one pass of lines 148-153 of japi_pushsrv.c
    | LeaveDone                            // the client is unlisted and its descriptor closed
    | Send(k: nat, ok: seq<bool>)          // japi_pushsrv_sendmsg on the k-th service
    | RegisterService(name: string)
    | DestroyService(k: nat)

  function SetSubs(app: App, k: nat, subs: seq<int>): App
    requires k < |app.services|
  {
    app.(services := app.services[k := app.services[k].(subs := subs)])
  }

  predicate Enabled(s: State, step: Step) {
    match step
    case Connect(fd) => s.leaving.None? && fd >= 0 && fd !in s.connected
    case Serve(fd, request) => s.leaving.None? && fd in s.connected && Lookup(s.app.requests, DEFAULT).Some?
    case Leave(fd) => s.leaving.None? && fd in s.connected
    case ClearNext => s.leaving.Some? && s.leaving.value.next < |s.app.services|
    case LeaveDone => s.leaving.Some? && s.leaving.value.next >= |s.app.services|
    case Send(k, ok) => k < |s.app.services| && |ok| == |s.app.services[k].subs|
    case RegisterService(name) => s.leaving.None?
    case DestroyService(k) => s.leaving.None? && k < |s.app.services|
  }

  function Next(s: State, lib: Lib, step: Step): State
    requires Enabled(s, step)
  {
    match step
    case Connect(fd) => s.(connected := s.connected + {fd})
    case Serve(fd, request) => s.(app := Process(s.app, lib, request, fd).0)
    case Leave(fd) => s.(leaving := Some(Leaving(fd, 0)))
    case ClearNext =>
      var Leaving(fd, k) := s.leaving.value;
      s.(app := SetSubs(s.app, k, RemoveFirst(s.app.services[k].subs, fd)), leaving := Some(Leaving(fd, k + 1)))
    case LeaveDone => s.(connected := s.connected - {s.leaving.value.fd}, leaving := None)
    case Send(k, ok) => s.(app := SetSubs(s.app, k, AfterSend([], s.app.services[k].subs, ok)))
    case RegisterService(name) =>
      if Services.CanRegister(s.app.services, name)
      then s.(app := s.app.(services := [Services.Service(name, [])] + s.app.services)) else s
    case DestroyService(k) => s.(app := s.app.(services := RemoveAt(s.app.services, k)))
  }

  predicate Possible(s: State, lib: Lib, steps: seq<Step>)
    decreases |steps|
  {
    steps != [] ==> Enabled(s, steps[0]) && Possible(Next(s, lib, steps[0]), lib, steps[1..])
  }

  function Run(s: State, lib: Lib, steps: seq<Step>): State
    requires Possible(s, lib, steps)
    decreases |steps|
  {
    if steps == [] then s else Run(Next(s, lib, steps[0]), lib, steps[1..])
  }

  /** The step is a request to subscribe to a service that already lists the client. */
  predicate SubscribesAgain(s: State, lib: Lib, step: Step) {
    step.Serve? && step.request.Some? && Same(Name(step.request.value), SUBSCRIBE) &&
    var args := ArgsFor(step.request.value, step.fd);
    HasService(args) && AlreadyListed(s.app.services, Text(args.fields["service"], lib), step.fd)
  }

  /** The service that a subscription by this name would go to lists the descriptor. */
  predicate AlreadyListed(svcs: seq<Services.Service>, name: string, fd: int) {
    svcs != [] && if Same(name, svcs[0].name) then fd in svcs[0].subs else AlreadyListed(svcs[1..], name, fd)
  }

  predicate NeverSubscribesAgain(s: State, lib: Lib, steps: seq<Step>)
    requires Possible(s, lib, steps)
    decreases |steps|
  {
    steps != [] ==>
      !SubscribesAgain(s, lib, steps[0]) && NeverSubscribesAgain(Next(s, lib, steps[0]), lib, steps[1..])
  }

  /** No duplicates, no subscriber without a connection, and none of the leaving client behind its sweep. */
  ghost predicate Tidy(s: State) {
    && TidyLists(s.app.services, s.connected)
    && (s.leaving.Some? ==>
          && s.leaving.value.fd in s.connected
          && forall k :: 0 <= k < |s.app.services| && k < s.leaving.value.next ==>
               s.leaving.value.fd !in s.app.services[k].subs)
  }

  ghost predicate TidyLists(svcs: seq<Services.Service>, connected: set<int>) {
    forall k :: 0 <= k < |svcs| ==> TidyList(svcs[k].subs, connected)
  }

  ghost predicate TidyList(subs: seq<int>, connected: set<int>) {
    Distinct(subs) && forall fd :: fd in subs ==> fd in connected
  }

  // ---- A send keeps lists tidy, and is what the walk does

  lemma {:induction false} AfterSendShrinks(kept: seq<int>, todo: seq<int>, ok: seq<bool>)
    requires |ok| == |todo| && Distinct(kept + todo)
    ensures Distinct(AfterSend(kept, todo, ok))
    ensures forall fd :: fd in AfterSend(kept, todo, ok) ==> fd in kept + todo
    decreases |todo|
  {
    if todo == [] {
      assert kept + todo == kept;
    } else {
      var kept1 := kept + [todo[0]];
      assert kept1 + todo[1..] == kept + todo;
      if ok[0] {
        AfterSendShrinks(kept1, todo[1..], ok[1..]);
      } else {
        assert (kept + todo)[|kept|] == todo[0] && forall j :: 0 <= j < |kept| ==> (kept + todo)[j] == kept[j];
        DropLast(kept, todo[0]);
        var rest := kept + todo[1..];
        assert rest == RemoveAt(kept + todo, |kept|);
        RemoveAtDistinct(kept + todo, |kept|);
        AfterSendShrinks(kept, todo[1..], ok[1..]);
      }
    }
  }

  /** Without duplicates the node removed is the current one. */
  lemma DropLast(kept: seq<int>, fd: int)
    requires fd !in kept
    ensures RemoveFirst(kept + [fd], fd) == kept
  {
    assert (kept + [fd])[|kept|] == fd;
    IndexUnique(kept + [fd], fd, |kept|);
  }

  /** Which writes of a walk succeed. */
  function Outcomes(conns: map<int, Conn>, todo: seq<int>, frame: seq<Bytes.byte>): (ok: seq<bool>)
    ensures |ok| == |todo|
    decreases |todo|
  {
    if todo == [] then []
    else [RwN.WriteRet(conns, todo[0], |frame|) > 0]
         + Outcomes(RwN.ConnsAfterWrite(conns, todo[0], frame), todo[1..], frame)
  }

  /** A Send step with these outcomes is the sendmsg walk. */
  lemma {:induction false} SendIsTheWalk(conns: map<int, Conn>, kept: seq<int>, todo: seq<int>, frame: seq<Bytes.byte>)
    ensures PushSend.SendWalk(conns, kept, todo, frame).left == AfterSend(kept, todo, Outcomes(conns, todo, frame))
    decreases |todo|
  {
    if todo != [] {
      var conns' := RwN.ConnsAfterWrite(conns, todo[0], frame);
      SendIsTheWalk(conns', PushSend.Passed(conns, kept, todo[0], |frame|), todo[1..], frame);
      assert Outcomes(conns, todo, frame)[1..] == Outcomes(conns', todo[1..], frame);
    }
  }

  /** A push thread can send at any moment, and what it does to the list is what the walk does. */
  lemma SendStepIsTheWalk(s: State, lib: Lib, conns: map<int, Conn>, k: nat, frame: seq<Bytes.byte>)
    requires k < |s.app.services|
    ensures var subs := s.app.services[k].subs;
            var step := Send(k, Outcomes(conns, subs, frame));
            && Enabled(s, step)
            && Next(s, lib, step) == s.(app := SetSubs(s.app, k, PushSend.SendWalk(conns, [], subs, frame).left))
  {
    SendIsTheWalk(conns, [], s.app.services[k].subs, frame);
  }

  /** Services come in front and go from where they are; one that comes and goes leaves no trace. */
  lemma ServicesComeAndGo(s: State, lib: Lib, name: string)
    requires s.leaving.None?
    ensures Enabled(s, RegisterService(name))
    ensures var s1 := Next(s, lib, RegisterService(name));
            && s1 == s.(app := s.app.(services := Services.Entered(s.app.services, name)))
            && (Services.CanRegister(s.app.services, name) ==>
                  Enabled(s1, DestroyService(0)) && Next(s1, lib, DestroyService(0)) == s)
  {
    if Services.CanRegister(s.app.services, name) {
      assert RemoveAt([Services.Service(name, [])] + s.app.services, 0) == s.app.services;
    }
  }

  // ---- Tidiness over runs

  lemma TidyCons(svc: Services.Service, svcs: seq<Services.Service>, connected: set<int>)
    ensures TidyLists([svc] + svcs, connected) <==> TidyList(svc.subs, connected) && TidyLists(svcs, connected)
  {
    var all := [svc] + svcs;
    assert all[0] == svc;
    assert forall k :: 0 <= k < |svcs| ==> svcs[k] == all[k + 1];
  }

  lemma {:induction false} SubscribeKeepsTidy(svcs: seq<Services.Service>, name: string, fd: int, connected: set<int>)
    requires TidyLists(svcs, connected) && fd in connected && !AlreadyListed(svcs, name, fd)
    ensures TidyLists(Services.Subscribe(svcs, name, fd).0, connected)
  {
    if svcs != [] {
      assert svcs == [svcs[0]] + svcs[1..];
      TidyCons(svcs[0], svcs[1..], connected);
      if Same(name, svcs[0].name) {
        var v := svcs[0].(subs := [fd] + svcs[0].subs);
        TidyCons(v, svcs[1..], connected);
      } else {
        SubscribeKeepsTidy(svcs[1..], name, fd, connected);
        TidyCons(svcs[0], Services.Subscribe(svcs[1..], name, fd).0, connected);
      }
    }
  }

  lemma {:induction false} UnsubscribeKeepsTidy(svcs: seq<Services.Service>, name: string, fd: int, connected: set<int>)
    requires TidyLists(svcs, connected)
    ensures TidyLists(Services.Unsubscribe(svcs, name, fd).svcs, connected)
  {
    if svcs != [] {
      assert svcs == [svcs[0]] + svcs[1..];
      TidyCons(svcs[0], svcs[1..], connected);
      if Services.Lists(svcs[0], name, fd) {
        RemoveFirstDistinct(svcs[0].subs, fd);
        TidyCons(svcs[0].(subs := RemoveFirst(svcs[0].subs, fd)), svcs[1..], connected);
      } else {
        UnsubscribeKeepsTidy(svcs[1..], name, fd, connected);
        TidyCons(svcs[0], Services.Unsubscribe(svcs[1..], name, fd).svcs, connected);
      }
    }
  }

  lemma ServeKeepsTidy(s: State, lib: Lib, attempts: seq<Attempt>, fd: int, request: Option<ProperRequest>)
    requires s.app.requests == Registry.Run(BUILTINS, attempts) && Enabled(s, Serve(fd, request))
    requires TidyLists(s.app.services, s.connected) && !SubscribesAgain(s, lib, Serve(fd, request))
    ensures TidyLists(Process(s.app, lib, request, fd).0.services, s.connected)
  {
    if request.Some? {
      SocketIsTheRequester(attempts, request.value, fd);
      SubscribersAreNamed(attempts, Name(request.value));
      var args := ArgsFor(request.value, fd);
      if WantsSocket(Name(request.value)) && HasService(args) && HasSocket(args, lib) {
        var name := Text(args.fields["service"], lib);
        if Same(Name(request.value), SUBSCRIBE) {
          SubscribeKeepsTidy(s.app.services, name, fd, s.connected);
        } else {
          UnsubscribeKeepsTidy(s.app.services, name, fd, s.connected);
        }
      }
    }
  }

  lemma SubscribersAreNamed(attempts: seq<Attempt>, name: string)
    ensures Select(Registry.Run(BUILTINS, attempts), name) == Some(Subscribe) <==> Same(name, SUBSCRIBE)
    ensures Select(Registry.Run(BUILTINS, attempts), name) == Some(Unsubscribe) <==> Same(name, UNSUBSCRIBE)
  {
    DefaultIsBuiltin();
    DispatchIsTotal(attempts, name);
    BuiltinsStand(attempts, name, 3);
    BuiltinsStand(attempts, name, 2);
  }

  lemma SetKeepsTidy(svcs: seq<Services.Service>, connected: set<int>, k: nat, subs: seq<int>)
    requires TidyLists(svcs, connected) && k < |svcs| && TidyList(subs, connected)
    ensures TidyLists(svcs[k := svcs[k].(subs := subs)], connected)
  {
  }

  /** Each step keeps it so; an unsubscribe's removal is assumed to be inside the service's lock. */
  lemma NextKeepsTidy(s: State, lib: Lib, attempts: seq<Attempt>, step: Step)
    requires s.app.requests == Registry.Run(BUILTINS, attempts)
    requires Tidy(s) && Enabled(s, step) && !SubscribesAgain(s, lib, step)
    ensures Tidy(Next(s, lib, step))
    ensures Next(s, lib, step).app.requests == s.app.requests
  {
    var svcs := s.app.services;
    match step
    case Connect(fd) =>
    case Serve(fd, request) => ServeKeepsTidy(s, lib, attempts, fd, request);
    case Leave(fd) =>
    case ClearNext =>
      var Leaving(fd, k) := s.leaving.value;
      RemoveFirstDistinct(svcs[k].subs, fd);
      SetKeepsTidy(svcs, s.connected, k, RemoveFirst(svcs[k].subs, fd));
    case LeaveDone =>
    case Send(k, ok) =>
      assert [] + svcs[k].subs == svcs[k].subs;
      AfterSendShrinks([], svcs[k].subs, ok);
      SetKeepsTidy(svcs, s.connected, k, AfterSend([], svcs[k].subs, ok));
    case RegisterService(name) => TidyCons(Services.Service(name, []), svcs, s.connected);
    case DestroyService(k) => RemoveAtElements(svcs, k);
  }

  /**
   * In every run in which no client subscribes to a service that already lists it, with push threads sending
   * between any two steps, every subscriber is a connected client and is listed once; so no subscription survives
   * its client's removal. An unsubscribe's removal is assumed to be inside the service's lock.
   */
  lemma {:induction false} SubscribersAreConnected(s: State, lib: Lib, attempts: seq<Attempt>, steps: seq<Step>)
    requires s.app.requests == Registry.Run(BUILTINS, attempts)
    requires Tidy(s) && Possible(s, lib, steps) && NeverSubscribesAgain(s, lib, steps)
    ensures Tidy(Run(s, lib, steps))
    ensures var r := Run(s, lib, steps);
            forall k, fd :: 0 <= k < |r.app.services| && fd in r.app.services[k].subs ==> fd in r.connected
    decreases |steps|
  {
    if steps != [] {
      NextKeepsTidy(s, lib, attempts, steps[0]);
      SubscribersAreConnected(Next(s, lib, steps[0]), lib, attempts, steps[1..]);
    } else {
      forall k, fd | 0 <= k < |s.app.services| && fd in s.app.services[k].subs ensures fd in s.connected {
        assert TidyList(s.app.services[k].subs, s.connected);
      }
    }
  }

  // ---- Without that restriction

  lemma {:induction false} RunThenRun(s: State, lib: Lib, a: seq<Step>, b: seq<Step>)
    requires Possible(s, lib, a + b)
    ensures Possible(s, lib, a) && Possible(Run(s, lib, a), lib, b)
    ensures Run(s, lib, a + b) == Run(Run(s, lib, a), lib, b)
    decreases |a|
  {
    if a == [] {
      assert a + b == b;
    } else {
      assert (a + b)[0] == a[0] && (a + b)[1..] == a[1..] + b;
      RunThenRun(Next(s, lib, a[0]), lib, a[1..], b);
    }
  }

  /** A client's removal, with whatever else happens between its first and its last step. */
  ghost predicate Removal(s: State, lib: Lib, fd: int, during: seq<Step>) {
    LeaveDone !in during && Possible(s, lib, [Leave(fd)] + during + [LeaveDone])
  }

  function AfterRemoval(s: State, lib: Lib, fd: int, during: seq<Step>): State
    requires Removal(s, lib, fd, during)
  {
    Run(s, lib, [Leave(fd)] + during + [LeaveDone])
  }

  predicate Unlisted(svcs: seq<Services.Service>, fd: int) {
    forall k :: 0 <= k < |svcs| ==> fd !in svcs[k].subs
  }

  predicate ListedOnceAtMost(svcs: seq<Services.Service>, fd: int) {
    forall k :: 0 <= k < |svcs| ==> Count(svcs[k].subs, fd) <= 1
  }

  // ---- No removal leaves a client behind that was listed once

  /** A send never adds a subscription. */
  lemma {:induction false} AfterSendCounts(kept: seq<int>, todo: seq<int>, ok: seq<bool>, fd: int)
    requires |ok| == |todo|
    ensures Count(AfterSend(kept, todo, ok), fd) <= Count(kept, fd) + Count(todo, fd)
    decreases |todo|
  {
    if todo != [] {
      var kept1 := kept + [todo[0]];
      PushSend.CountTail(todo, fd);
      RemoveFirstMultiset(kept1, todo[0]);
      AfterSendCounts(if ok[0] then kept1 else RemoveFirst(kept1, todo[0]), todo[1..], ok[1..], fd);
    }
  }

  /** The sweep has cleared the services behind it, and none lists the client twice. */
  ghost predicate Clearing(s: State, fd: int) {
    && s.leaving.Some? && s.leaving.value.fd == fd && ListedOnceAtMost(s.app.services, fd)
    && forall k :: 0 <= k < s.leaving.value.next && k < |s.app.services| ==> Count(s.app.services[k].subs, fd) == 0
  }

  lemma StepKeepsClearing(s: State, lib: Lib, fd: int, step: Step)
    requires Clearing(s, fd) && Enabled(s, step) && step != LeaveDone
    ensures Clearing(Next(s, lib, step), fd)
  {
    var k := if step.Send? then step.k else s.leaving.value.next;
    var subs := s.app.services[k].subs;
    if step.Send? {
      AfterSendCounts([], subs, step.ok, fd);
      CountsAfter(s.app.services, k, AfterSend([], subs, step.ok), fd);
    } else {
      RemoveFirstMultiset(subs, fd);
      CountsAfter(s.app.services, k, RemoveFirst(subs, fd), fd);
    }
  }

  lemma CountsAfter(svcs: seq<Services.Service>, k: nat, subs: seq<int>, fd: int)
    requires k < |svcs| && Count(subs, fd) <= Count(svcs[k].subs, fd)
    ensures var r := svcs[k := svcs[k].(subs := subs)];
            |r| == |svcs| && forall i :: 0 <= i < |svcs| ==> Count(r[i].subs, fd) <= Count(svcs[i].subs, fd)
  {
  }

  lemma {:induction false} RunKeepsClearing(s: State, lib: Lib, fd: int, during: seq<Step>)
    requires Clearing(s, fd) && LeaveDone !in during && Possible(s, lib, during)
    ensures Clearing(Run(s, lib, during), fd)
    decreases |during|
  {
    if during != [] {
      assert during[0] in during;
      StepKeepsClearing(s, lib, fd, during[0]);
      RunKeepsClearing(Next(s, lib, during[0]), lib, fd, during[1..]);
    }
  }

  lemma RemovalClears(s: State, lib: Lib, fd: int, during: seq<Step>)
    requires Removal(s, lib, fd, during) && ListedOnceAtMost(s.app.services, fd)
    ensures Unlisted(AfterRemoval(s, lib, fd, during).app.services, fd)
  {
    RunThenRun(s, lib, [Leave(fd)] + during, [LeaveDone]);
    RunThenRun(s, lib, [Leave(fd)], during);
    var s1 := Run(s, lib, [Leave(fd)]);
    assert s1 == Run(Next(s, lib, Leave(fd)), lib, []) == Next(s, lib, Leave(fd));
    RunKeepsClearing(s1, lib, fd, during);
    var s2 := Run(s, lib, [Leave(fd)] + during);
    assert Run(s2, lib, [LeaveDone]) == Next(s2, lib, LeaveDone);
    assert Clearing(s2, fd) && s2.leaving.value.next >= |s2.app.services|;
    forall k | 0 <= k < |s2.app.services| ensures fd !in s2.app.services[k].subs {
      assert Count(s2.app.services[k].subs, fd) == 0;
    }
  }

  // ---- The removal in which nothing is sent leaves behind what was listed twice

  function Clears(n: nat): (r: seq<Step>)
    ensures LeaveDone !in r
  {
    if n == 0 then [] else [ClearNext] + Clears(n - 1)
  }

  lemma {:induction false} SweepRemoves(s: State, lib: Lib, n: nat)
    requires s.leaving.Some? && s.leaving.value.next + n == |s.app.services|
    ensures Possible(s, lib, Clears(n) + [LeaveDone])
    ensures var r := Run(s, lib, Clears(n) + [LeaveDone]);
            var Leaving(fd, j) := s.leaving.value;
            && r.leaving.None? && r.connected == s.connected - {fd} && |r.app.services| == |s.app.services|
            && forall k :: 0 <= k < |s.app.services| ==>
                 r.app.services[k].subs ==
                 if k < j then s.app.services[k].subs else RemoveFirst(s.app.services[k].subs, fd)
    decreases n
  {
    if n > 0 {
      assert (Clears(n) + [LeaveDone])[1..] == Clears(n - 1) + [LeaveDone];
      SweepRemoves(Next(s, lib, ClearNext), lib, n - 1);
    } else {
      assert Clears(0) + [LeaveDone] == [LeaveDone] && [LeaveDone][1..] == [];
    }
  }

  lemma SweepClearsIff(s: State, lib: Lib, fd: int)
    requires Enabled(s, Leave(fd))
    ensures Removal(s, lib, fd, Clears(|s.app.services|))
    ensures Unlisted(AfterRemoval(s, lib, fd, Clears(|s.app.services|)).app.services, fd)
       <==> ListedOnceAtMost(s.app.services, fd)
  {
    var n := |s.app.services|;
    var s1 := Next(s, lib, Leave(fd));
    var steps := [Leave(fd)] + Clears(n) + [LeaveDone];
    assert steps[1..] == Clears(n) + [LeaveDone];
    SweepRemoves(s1, lib, n);
    Services.RemovedFromAllIff(s.app.services, fd);
    forall k | 0 <= k < n
      ensures Run(s, lib, steps).app.services[k].subs == Services.RemoveFromAll(s.app.services, fd)[k].subs
    {
    }
  }

  /**
   * Exactly when disconnecting clears a client out: every course its removal can take, with sends to any service
   * at any moment in between, leaves it unsubscribed everywhere if and only if no service listed it twice before.
   */
  lemma DisconnectClearsIff(s: State, lib: Lib, fd: int)
    requires Enabled(s, Leave(fd))
    ensures (forall during :: Removal(s, lib, fd, during) ==>
               Unlisted(AfterRemoval(s, lib, fd, during).app.services, fd))
       <==> ListedOnceAtMost(s.app.services, fd)
  {
    SweepClearsIff(s, lib, fd);
    if ListedOnceAtMost(s.app.services, fd) {
      forall during | Removal(s, lib, fd, during)
        ensures Unlisted(AfterRemoval(s, lib, fd, during).app.services, fd)
      {
        RemovalClears(s, lib, fd, during);
      }
    }
  }

  // ---- A subscription that outlives its connection

  /** Client 4 subscribes twice and leaves, and another client is given its descriptor. */
  function Twice(): seq<Step> {
    [Connect(4), Serve(4, Some(SUBSCRIBE_TO_S)), Serve(4, Some(SUBSCRIBE_TO_S))]
    + [Leave(4), ClearNext, LeaveDone, Connect(4)]
  }

  lemma ProcessSubscribes(app: App, lib: Lib, subs: seq<int>)
    requires app == App(BUILTINS, [Services.Service("s", subs)], false)
    ensures Lookup(BUILTINS, DEFAULT).Some?
    ensures Process(app, lib, Some(SUBSCRIBE_TO_S), 4).0 == App(BUILTINS, [Services.Service("s", [4] + subs)], false)
  {
    DispatchIsTotal([], SUBSCRIBE);
    SubscribersAreNamed([], SUBSCRIBE);
    SameIsAnEquivalence(SUBSCRIBE, SUBSCRIBE, SUBSCRIBE);
    assert Select(BUILTINS, Name(SUBSCRIBE_TO_S)) == Some(Subscribe);
    RequestSubscribes(app.services, lib, subs);
  }

  lemma RequestSubscribes(svcs: seq<Services.Service>, lib: Lib, subs: seq<int>)
    requires svcs == [Services.Service("s", subs)]
    ensures SubscribeRequest(svcs, ArgsFor(SUBSCRIBE_TO_S, 4), lib).0 == [Services.Service("s", [4] + subs)]
  {
    SameIsAnEquivalence(SUBSCRIBE, SUBSCRIBE, SUBSCRIBE);
    var args := ArgsFor(SUBSCRIBE_TO_S, 4);
    assert args.fields["service"] == Str("s") && args.fields["socket"] == Int(4);
    SubscribesOne(subs);
  }

  lemma SubscribesOne(subs: seq<int>)
    ensures Services.Subscribe([Services.Service("s", subs)], "s", 4).0 == [Services.Service("s", [4] + subs)]
  {
    SameIsAnEquivalence("s", "s", "s");
    assert [Services.Service("s", subs)][1..] == [];
  }

  /** The state once client 4 has connected and subscribed, given who is subscribed. */
  function Subscribed(subs: seq<int>): State {
    State({4}, App(BUILTINS, [Services.Service("s", subs)], false), None)
  }

  lemma ServeTwice(lib: Lib, subs: seq<int>)
    ensures Enabled(Subscribed(subs), Serve(4, Some(SUBSCRIBE_TO_S)))
    ensures Next(Subscribed(subs), lib, Serve(4, Some(SUBSCRIBE_TO_S))) == Subscribed([4] + subs)
  {
    ProcessSubscribes(Subscribed(subs).app, lib, subs);
  }

  lemma OneStep(s: State, lib: Lib, step: Step, rest: seq<Step>)
    requires Enabled(s, step) && Possible(Next(s, lib, step), lib, rest)
    ensures Possible(s, lib, [step] + rest)
    ensures Run(s, lib, [step] + rest) == Run(Next(s, lib, step), lib, rest)
  {
    assert ([step] + rest)[1..] == rest;
  }

  lemma ThreeSteps(s: State, s1: State, s2: State, s3: State, lib: Lib, a: Step, b: Step, c: Step, rest: seq<Step>)
    requires Enabled(s, a) && Next(s, lib, a) == s1
    requires Enabled(s1, b) && Next(s1, lib, b) == s2
    requires Enabled(s2, c) && Next(s2, lib, c) == s3 && Possible(s3, lib, rest)
    ensures Possible(s, lib, [a, b, c] + rest) && Run(s, lib, [a, b, c] + rest) == Run(s3, lib, rest)
  {
    OneStep(s2, lib, c, rest);
    OneStep(s1, lib, b, [c] + rest);
    OneStep(s, lib, a, [b] + ([c] + rest));
    assert [a, b, c] + rest == [a] + ([b] + ([c] + rest));
  }

  lemma OutlivesBy(lib: Lib, serve: Step)
    requires Enabled(Subscribed([]), serve) && Next(Subscribed([]), lib, serve) == Subscribed([4])
    requires Enabled(Subscribed([4]), serve) && Next(Subscribed([4]), lib, serve) == Subscribed([4, 4])
    ensures var s := Subscribed([]).(connected := {});
            var steps := [Connect(4), serve, serve] + [Leave(4), ClearNext, LeaveDone, Connect(4)];
            Tidy(s) && Possible(s, lib, steps) && Run(s, lib, steps) == Subscribed([4])
  {
    var s := Subscribed([]).(connected := {});
    LeavesOne(lib);
    ThreeSteps(s, Subscribed([]), Subscribed([4]), Subscribed([4, 4]), lib, Connect(4), serve, serve,
               [Leave(4), ClearNext, LeaveDone, Connect(4)]);
  }

  /**
   * The restriction is needed: a subscription made twice outlives its connection, and the next client to be
   * given the descriptor finds itself subscribed without having asked for anything.
   */
  lemma SubscribedTwiceOutlives(lib: Lib)
    ensures var s := Subscribed([]).(connected := {});
            && Tidy(s) && Possible(s, lib, Twice())
            && Run(s, lib, Twice()).connected == {4}
            && Run(s, lib, Twice()).app.services == [Services.Service("s", [4])]
  {
    assert [4] + [] == [4] && [4] + [4] == [4, 4];
    ServeTwice(lib, []);
    ServeTwice(lib, [4]);
    OutlivesBy(lib, Serve(4, Some(SUBSCRIBE_TO_S)));
  }

  lemma LeavesOne(lib: Lib)
    ensures var last := [Leave(4), ClearNext, LeaveDone, Connect(4)];
            Possible(Subscribed([4, 4]), lib, last) && Run(Subscribed([4, 4]), lib, last) == Subscribed([4])
  {
    var s, left := Subscribed([4, 4]), Subscribed([4]);
    var s1, s2 := s.(leaving := Some(Leaving(4, 0))), left.(leaving := Some(Leaving(4, 1)));
    var s3 := left.(connected := {});
    ClearsOne(lib, s, s1, s2, left);
    OneStep(s3, lib, Connect(4), []);
    ThreeSteps(s, s1, s2, s3, lib, Leave(4), ClearNext, LeaveDone, [Connect(4)]);
    assert [Connect(4)] + [] == [Connect(4)];
    assert [Leave(4), ClearNext, LeaveDone] + [Connect(4)] == [Leave(4), ClearNext, LeaveDone, Connect(4)];
  }

  /** The sweep of a client that is subscribed twice to the one service. */
  lemma ClearsOne(lib: Lib, s: State, s1: State, s2: State, left: State)
    requires left.connected == {4} && left.leaving.None? && left.app.services == [Services.Service("s", [4])]
    requires s == left.(app := left.app.(services := [Services.Service("s", [4, 4])]))
    requires s1 == s.(leaving := Some(Leaving(4, 0))) && s2 == left.(leaving := Some(Leaving(4, 1)))
    ensures Enabled(s, Leave(4)) && Next(s, lib, Leave(4)) == s1
    ensures Enabled(s1, ClearNext) && Next(s1, lib, ClearNext) == s2
    ensures Enabled(s2, LeaveDone) && Next(s2, lib, LeaveDone) == left.(connected := {})
    ensures Enabled(left.(connected := {}), Connect(4)) && Next(left.(connected := {}), lib, Connect(4)) == left
  {
    RemoveFirstHead([4], 4);
    assert [4] + [4] == [4, 4];
    assert {4} - {4} == {};
  }
}
