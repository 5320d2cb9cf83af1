/**
 * The life of push services: register, start, stop and destroy by the server thread, step by step, among
 * the service threads they create. Allocated services and threads not yet joined are maps by address and
 * by thread id; both may be handed out again.
 */
module Lifecycle {
  import opened System
  import opened Sockets
  import Services

  type Addr = nat
  type Tid = nat

  datatype Holder = Nobody | Server | Routine(tid: Tid)

  /** japi_pushsrv_context; `born` is history: how many services had been registered before it. */
  datatype Service = Service(
    name: string, enabled: bool, thread: Option<Tid>, clients: seq<int>, lock: Holder, born: nat)

  /** A thread created and not joined. */
  datatype Thread = Thread(service: Addr, running: bool)

  /** Where the server thread stands inside japi_pushsrv_stop and japi_pushsrv_destroy. */
  datatype Pc =
    | Idle
    | Locking(id: Addr)                  // unlinked, at line 401
    | Draining(id: Addr)                 // lines 402-406
    | Stopping(id: Addr)                 // at line 409
    | Joining(id: Addr, destroy: bool)   // at line 576
    | Freeing(id: Addr)                  // at line 411

  datatype State = State(
    services: seq<Addr>, heap: map<Addr, Service>, threads: map<Tid, Thread>, pc: Pc, clock: nat)

  datatype Step =
    | Register(id: Addr, name: string)              // malloc returns any address not in use
    | Start(id: Addr, tid: Tid, created: bool)      // created: whether pthread_create succeeds
    | Stop(id: Addr)
    | Destroy(id: Addr)
    | Subscribe(id: Addr, socket: int)
    | Disconnect(id: Addr, socket: int)
    | Proceed                                       // the server thread goes on inside stop or destroy
    | Take(tid: Tid)                                // a routine enters sendmsg's critical section
    | FailWrite(tid: Tid, socket: int)              // and drops a subscriber there
    | Leave(tid: Tid)
    | End(tid: Tid)                                 // a routine returns

  const EMPTY: State := State([], map[], map[], Idle, 0)

  predicate Running(s: State, tid: Tid) {
    tid in s.threads && s.threads[tid].running
  }

  predicate Redundant(s: State, name: string) {
    exists i :: 0 <= i < |s.services| && s.services[i] in s.heap && s.heap[s.services[i]].name == name
  }

  predicate Enabled(s: State, step: Step) {
    match step
    case Register(id, _) => s.pc.Idle? && id !in s.heap
    case Start(id, tid, _) => s.pc.Idle? && id in s.services && id in s.heap && tid !in s.threads
    case Stop(id) => s.pc.Idle? && id in s.services && id in s.heap
    case Destroy(id) => s.pc.Idle? && id in s.services && id in s.heap
    case Subscribe(id, _) => s.pc.Idle? && id in s.services && id in s.heap && s.heap[id].lock.Nobody?
    case Disconnect(id, _) => s.pc.Idle? && id in s.services && id in s.heap && s.heap[id].lock.Nobody?
    case Proceed => CanProceed(s)
    case Take(tid) => Running(s, tid) && Touches(s, tid) in s.heap && s.heap[Touches(s, tid)].lock.Nobody?
    case FailWrite(tid, _) => Running(s, tid) && Holds(s, tid)
    case Leave(tid) => Running(s, tid) && Holds(s, tid)
    case End(tid) => Running(s, tid) && !Holds(s, tid)
  }

  /** The service a thread works for, and reads and locks as long as it runs. */
  function Touches(s: State, tid: Tid): Addr
    requires tid in s.threads
  {
    s.threads[tid].service
  }

  predicate Holds(s: State, tid: Tid)
    requires tid in s.threads
  {
    Touches(s, tid) in s.heap && s.heap[Touches(s, tid)].lock == Routine(tid)
  }

  /** Whether the mutex or the join the server thread is at lets it go on. */
  predicate CanProceed(s: State) {
    match s.pc
    case Idle => false
    case Locking(id) => id in s.heap && s.heap[id].lock.Nobody?
    case Joining(id, _) => id in s.heap && (s.heap[id].thread.Some? ==> !Running(s, s.heap[id].thread.value))
    case Draining(id) => id in s.heap
    case Stopping(id) => id in s.heap
    case Freeing(id) => id in s.heap
  }

  function Put(s: State, id: Addr, service: Service): State {
    s.(heap := s.heap[id := service])
  }

  function Next(s: State, step: Step): State
    requires Enabled(s, step)
  {
    match step
    case Register(id, name) =>
      if name == "" || Redundant(s, name) then s
      else
        var service := Service(name, false, None, [], Nobody, s.clock);
        Put(s, id, service).(services := [id] + s.services, clock := s.clock + 1)
    case Start(id, tid, created) => Started(s, id, tid, created)
    case Stop(id) =>
      if s.heap[id].enabled then Put(s, id, s.heap[id].(enabled := false)).(pc := Joining(id, false)) else s
    case Destroy(id) => s.(services := RemoveFirst(s.services, id), pc := Locking(id))
    case Subscribe(id, socket) => Put(s, id, s.heap[id].(clients := [socket] + s.heap[id].clients))
    case Disconnect(id, socket) => Put(s, id, s.heap[id].(clients := RemoveFirst(s.heap[id].clients, socket)))
    case Proceed => Proceeded(s)
    case Take(tid) => Put(s, Touches(s, tid), s.heap[Touches(s, tid)].(lock := Routine(tid)))
    case FailWrite(tid, socket) =>
      var service := s.heap[Touches(s, tid)];
      Put(s, Touches(s, tid), service.(clients := RemoveFirst(service.clients, socket)))
    case Leave(tid) => Put(s, Touches(s, tid), s.heap[Touches(s, tid)].(lock := Nobody))
    case End(tid) => s.(threads := s.threads[tid := s.threads[tid].(running := false)])
  }

  /** japi_pushsrv_start overwrites the thread id whatever it held; a failure leaves the service disabled. */
  function Started(s: State, id: Addr, tid: Tid, created: bool): State
    requires id in s.heap
  {
    if created then
      Put(s, id, s.heap[id].(enabled := true, thread := Some(tid))).(threads := s.threads[tid := Thread(id, true)])
    else Put(s, id, s.heap[id].(enabled := false))
  }

  function Proceeded(s: State): State
    requires CanProceed(s)
  {
    var id := s.pc.id;
    var service := s.heap[id];
    match s.pc
    case Locking(_) => Put(s, id, service.(lock := Server)).(pc := Draining(id))
    case Draining(_) =>
      if service.clients == [] then Put(s, id, service.(lock := Nobody)).(pc := Stopping(id))
      else Put(s, id, service.(clients := RemoveFirst(service.clients, service.clients[0])))
    case Stopping(_) =>
      if service.enabled then Put(s, id, service.(enabled := false)).(pc := Joining(id, true))
      else s.(pc := Freeing(id))
    case Joining(_, destroy) =>
      var joined := if service.thread.Some? then s.(threads := s.threads - {service.thread.value}) else s;
      joined.(pc := if destroy then Freeing(id) else Idle)
    case Freeing(_) => s.(heap := s.heap - {id}, pc := Idle)
  }

  // ---- Runs

  predicate Possible(s: State, steps: seq<Step>)
    decreases |steps|
  {
    steps != [] ==> Enabled(s, steps[0]) && Possible(Next(s, steps[0]), steps[1..])
  }

  function Run(s: State, steps: seq<Step>): State
    requires Possible(s, steps)
    decreases |steps|
  {
    if steps == [] then s else Run(Next(s, steps[0]), steps[1..])
  }

  /** Whether some thread created for the service has not returned. */
  predicate Busy(s: State, id: Addr) {
    exists tid :: tid in s.threads && s.threads[tid].running && s.threads[tid].service == id
  }

  /** start is never called on a service whose thread still runs. */
  predicate StartsOnlyResting(s: State, steps: seq<Step>)
    requires Possible(s, steps)
    decreases |steps|
  {
    steps != [] ==>
      && (steps[0].Start? ==> !Busy(s, steps[0].id))
      && StartsOnlyResting(Next(s, steps[0]), steps[1..])
  }

  // ---- The invariant

  /** The service the server thread is destroying: allocated, but no longer listed. */
  function Leaving(pc: Pc): set<Addr> {
    match pc
    case Idle => {}
    case Joining(id, destroy) => if destroy then {id} else {}
    case Locking(id) => {id}
    case Draining(id) => {id}
    case Stopping(id) => {id}
    case Freeing(id) => {id}
  }

  /** Newest first, names pairwise distinct. */
  ghost predicate Ordered(services: seq<Addr>, heap: map<Addr, Service>)
    requires forall i :: 0 <= i < |services| ==> services[i] in heap
  {
    forall i, j :: 0 <= i < j < |services| ==>
      heap[services[i]].born > heap[services[j]].born && heap[services[i]].name != heap[services[j]].name
  }

  ghost predicate Listing(services: seq<Addr>, heap: map<Addr, Service>, leaving: set<Addr>, clock: nat) {
    && (forall id :: id in heap <==> id in services || id in leaving)
    && (forall id :: id in services ==> id !in leaving)
    && (forall id :: id in heap ==> heap[id].born < clock)
    && (forall i :: 0 <= i < |services| ==> services[i] in heap)
    && Ordered(services, heap)
  }

  ghost predicate ListOk(s: State) {
    Listing(s.services, s.heap, Leaving(s.pc), s.clock)
  }

  /** The thread id of a service to be joined is that of its own thread. */
  ghost predicate Joinable(s: State, id: Addr)
    requires id in s.heap
  {
    s.heap[id].thread.Some? && s.heap[id].thread.value in s.threads && s.threads[s.heap[id].thread.value].service == id
  }

  ghost predicate ServiceOk(s: State, id: Addr)
    requires id in s.heap
  {
    var service := s.heap[id];
    && (service.enabled ==> Joinable(s, id))
    && (service.lock.Server? <==> s.pc == Draining(id))
    && (service.lock.Routine? ==> service.lock.tid in s.threads && s.threads[service.lock.tid] == Thread(id, true))
  }

  /** A running thread is its service's current one, and the service knows: enabled, or being joined. */
  ghost predicate ThreadOk(s: State, tid: Tid)
    requires tid in s.threads
  {
    s.threads[tid].running ==>
      var id := s.threads[tid].service;
      && id in s.heap && s.heap[id].thread == Some(tid)
      && (s.heap[id].enabled || (s.pc.Joining? && s.pc.id == id))
  }

  ghost predicate PcOk(s: State) {
    match s.pc
    case Joining(id, destroy) =>
      id in s.heap && !s.heap[id].enabled && Joinable(s, id) && (destroy ==> s.heap[id].clients == [])
    case Stopping(id) => id in s.heap && s.heap[id].clients == []
    case Freeing(id) => id in s.heap && !s.heap[id].enabled && s.heap[id].clients == []
    case _ => true
  }

  ghost predicate Inv(s: State) {
    && ListOk(s) && PcOk(s)
    && (forall id :: id in s.heap ==> ServiceOk(s, id))
    && (forall tid :: tid in s.threads ==> ThreadOk(s, tid))
  }

  // ---- Every step keeps it

  lemma OneServiceKeepsList(s: State, s': State, id: Addr)
    requires ListOk(s) && id in s.heap && s'.heap.Keys == s.heap.Keys && s'.services == s.services
    requires Leaving(s'.pc) == Leaving(s.pc) && s'.clock == s.clock
    requires forall n :: n in s.heap ==> s'.heap[n].name == s.heap[n].name && s'.heap[n].born == s.heap[n].born
    ensures ListOk(s')
  {
  }

  lemma RegisterKeepsInv(s: State, id: Addr, name: string)
    requires Inv(s) && Enabled(s, Register(id, name))
    ensures Inv(Next(s, Register(id, name)))
  {
    var s' := Next(s, Register(id, name));
    if s' != s {
      RegisterKeepsList(s, id, name);
      forall n | n in s'.heap ensures ServiceOk(s', n) == true {
        if n != id {
          assert ServiceOk(s, n);
        }
      }
      forall tid | tid in s'.threads ensures ThreadOk(s', tid) {
        assert ThreadOk(s, tid);
      }
    }
  }

  /** A new service goes in front of older ones, none of them of its name. */
  lemma OrderedCons(services: seq<Addr>, heap: map<Addr, Service>, id: Addr, service: Service)
    requires (forall i :: 0 <= i < |services| ==> services[i] in heap) && Ordered(services, heap) && id !in heap
    requires forall i :: 0 <= i < |services| ==>
               heap[services[i]].born < service.born && heap[services[i]].name != service.name
    ensures var l := [id] + services;
            var h := heap[id := service];
            (forall i :: 0 <= i < |l| ==> l[i] in h) && Ordered(l, h)
  {
    var l := [id] + services;
    var h := heap[id := service];
    assert forall i {:trigger services[i]} :: 0 <= i < |services| ==> h[services[i]] == heap[services[i]];
    assert forall i {:trigger l[i]} :: 0 < i < |l| ==> l[i] == services[i - 1];
  }

  lemma RegisterKeepsList(s: State, id: Addr, name: string)
    requires ListOk(s) && Enabled(s, Register(id, name)) && name != "" && !Redundant(s, name)
    ensures ListOk(Next(s, Register(id, name)))
  {
    OrderedCons(s.services, s.heap, id, Service(name, false, None, [], Nobody, s.clock));
  }

  lemma StartKeepsInv(s: State, id: Addr, tid: Tid)
    requires Inv(s) && Enabled(s, Start(id, tid, true)) && !Busy(s, id)
    ensures Inv(Next(s, Start(id, tid, true)))
  {
    var s' := Next(s, Start(id, tid, true));
    OneServiceKeepsList(s, s', id);
    forall n | n in s'.heap ensures ServiceOk(s', n) == true {
      assert ServiceOk(s, n);
    }
    forall t | t in s'.threads ensures ThreadOk(s', t) == true {
      if t != tid {
        assert ThreadOk(s, t);
      }
    }
  }

  /** A step that leaves one service disabled. */
  lemma DisableKeepsInv(s: State, s': State, id: Addr)
    requires Inv(s) && id in s.heap && s' == Put(s, id, s.heap[id].(enabled := false)).(pc := s'.pc)
    requires !Busy(s, id) || (s'.pc.Joining? && s'.pc.id == id)
    requires Leaving(s'.pc) == Leaving(s.pc) && !s.pc.Joining? && !s.pc.Draining? && !s'.pc.Draining? && PcOk(s')
    ensures Inv(s')
  {
    OneServiceKeepsList(s, s', id);
    forall n | n in s'.heap ensures ServiceOk(s', n) == true {
      DisableKeepsService(s, s', id, n);
    }
    forall t | t in s'.threads ensures ThreadOk(s', t) == true {
      DisableKeepsThread(s, s', id, t);
    }
  }

  lemma DisableKeepsService(s: State, s': State, id: Addr, n: Addr)
    requires id in s.heap && s' == Put(s, id, s.heap[id].(enabled := false)).(pc := s'.pc)
    requires !s.pc.Draining? && !s'.pc.Draining? && n in s.heap && ServiceOk(s, n)
    ensures ServiceOk(s', n)
  {
  }

  lemma DisableKeepsThread(s: State, s': State, id: Addr, tid: Tid)
    requires id in s.heap && s' == Put(s, id, s.heap[id].(enabled := false)).(pc := s'.pc) && !s.pc.Joining?
    requires !Busy(s, id) || (s'.pc.Joining? && s'.pc.id == id)
    requires tid in s.threads && ThreadOk(s, tid)
    ensures ThreadOk(s', tid)
  {
  }

  lemma DestroyKeepsInv(s: State, id: Addr)
    requires Inv(s) && Enabled(s, Destroy(id))
    ensures Inv(Next(s, Destroy(id)))
  {
    var s' := Next(s, Destroy(id));
    UnlistKeepsList(s.services, s.heap, s.clock, id);
    forall n | n in s'.heap ensures ServiceOk(s', n) == true {
      assert ServiceOk(s, n);
    }
    forall t | t in s'.threads ensures ThreadOk(s', t) == true {
      assert ThreadOk(s, t);
    }
  }

  lemma UnlistKeepsList(services: seq<Addr>, heap: map<Addr, Service>, clock: nat, id: Addr)
    requires Listing(services, heap, {}, clock) && id in services
    ensures Listing(RemoveFirst(services, id), heap, {id}, clock)
  {
    var l := RemoveFirst(services, id);
    OrderedRemove(services, heap, id);
    assert forall x {:trigger x in l} {:trigger x in services} :: x in l <==> x in services && x != id by {
      OrderedIsDistinct(services, heap);
      RemoveFirstDistinct(services, id);
    }
  }

  lemma OrderedRemove(services: seq<Addr>, heap: map<Addr, Service>, id: Addr)
    requires (forall i :: 0 <= i < |services| ==> services[i] in heap) && Ordered(services, heap) && id in services
    ensures var l := RemoveFirst(services, id);
            (forall i :: 0 <= i < |l| ==> l[i] in heap) && Ordered(l, heap)
  {
    var k := Index(services, id);
    var l := RemoveAt(services, k);
    RemoveAtElements(services, k);
    forall i, j | 0 <= i < j < |l|
      ensures heap[l[i]].born > heap[l[j]].born && heap[l[i]].name != heap[l[j]].name
    {
      assert l[i] == services[if i < k then i else i + 1] && l[j] == services[if j < k then j else j + 1];
    }
  }

  lemma OrderedIsDistinct(services: seq<Addr>, heap: map<Addr, Service>)
    requires (forall i :: 0 <= i < |services| ==> services[i] in heap) && Ordered(services, heap)
    ensures Distinct(services)
  {
  }

  /** A step that touches the subscribers or the lock of one service only. */
  lemma TouchKeepsInv(s: State, s': State, id: Addr, clients: seq<int>, lock: Holder)
    requires Inv(s) && id in s.heap && s' == Put(s, id, s.heap[id].(clients := clients, lock := lock))
    requires lock.Server? <==> s.pc == Draining(id)
    requires lock.Routine? ==> lock.tid in s.threads && s.threads[lock.tid] == Thread(id, true)
    requires s.heap[id].clients == [] ==> clients == [] || s.pc.Idle? || s.pc.Locking? || s.pc.Draining?
                                                         || s.pc.id != id
    ensures Inv(s')
  {
    OneServiceKeepsList(s, s', id);
    forall n | n in s'.heap ensures ServiceOk(s', n) == true {
      assert ServiceOk(s, n);
    }
    forall t | t in s'.threads ensures ThreadOk(s', t) == true {
      assert ThreadOk(s, t);
    }
  }

  lemma ClientStepKeepsInv(s: State, step: Step)
    requires Inv(s) && Enabled(s, step)
    requires step.Subscribe? || step.Disconnect? || step.Take? || step.FailWrite? || step.Leave?
    ensures Inv(Next(s, step))
  {
    var s' := Next(s, step);
    match step
    case Subscribe(id, socket) => TouchKeepsInv(s, s', id, s'.heap[id].clients, Nobody);
    case Disconnect(id, socket) => TouchKeepsInv(s, s', id, s'.heap[id].clients, Nobody);
    case Take(tid) => TouchKeepsInv(s, s', Touches(s, tid), s.heap[Touches(s, tid)].clients, Routine(tid));
    case FailWrite(tid, socket) =>
      TouchKeepsInv(s, s', Touches(s, tid), s'.heap[Touches(s, tid)].clients, Routine(tid));
    case Leave(tid) => TouchKeepsInv(s, s', Touches(s, tid), s.heap[Touches(s, tid)].clients, Nobody);
  }

  lemma EndKeepsInv(s: State, tid: Tid)
    requires Inv(s) && Enabled(s, End(tid))
    ensures Inv(Next(s, End(tid)))
  {
    var s' := Next(s, End(tid));
    assert ThreadOk(s, tid);
    forall n | n in s'.heap ensures ServiceOk(s', n) == true {
      assert ServiceOk(s, n);
    }
    forall t | t in s'.threads ensures ThreadOk(s', t) == true {
      assert ThreadOk(s, t);
    }
  }

  lemma JoinKeepsInv(s: State)
    requires Inv(s) && Enabled(s, Proceed) && s.pc.Joining?
    ensures Inv(Next(s, Proceed))
  {
    var s' := Next(s, Proceed);
    var tid := s.heap[s.pc.id].thread.value;
    assert ListOk(s');
    forall n | n in s'.heap ensures ServiceOk(s', n) == true {
      assert ServiceOk(s, n);
      if s.heap[n].enabled {
        assert Joinable(s, n);
      }
    }
    forall t | t in s'.threads ensures ThreadOk(s', t) == true {
      assert ThreadOk(s, t);
    }
  }

  lemma FreeKeepsInv(s: State)
    requires Inv(s) && Enabled(s, Proceed) && s.pc.Freeing?
    ensures Inv(Next(s, Proceed))
  {
    var s' := Next(s, Proceed);
    forall n | n in s'.heap ensures ServiceOk(s', n) == true {
      assert ServiceOk(s, n);
    }
    forall t | t in s'.threads ensures ThreadOk(s', t) == true {
      assert ThreadOk(s, t);
    }
  }

  /** The steps of destroy up to the join. */
  lemma DestroyingKeepsInv(s: State)
    requires Inv(s) && Enabled(s, Proceed) && (s.pc.Locking? || s.pc.Draining? || s.pc.Stopping?)
    ensures Inv(Next(s, Proceed))
  {
    var s' := Next(s, Proceed);
    var id := s.pc.id;
    assert ServiceOk(s, id);
    if s.pc.Stopping? && s.heap[id].enabled {
      DisableKeepsInv(s, s', id);
    } else {
      OneServiceKeepsList(s, s', id);
      forall n | n in s'.heap ensures ServiceOk(s', n) == true {
        assert ServiceOk(s, n);
      }
      forall t | t in s'.threads ensures ThreadOk(s', t) == true {
        assert ThreadOk(s, t);
      }
    }
  }

  lemma StepKeepsInv(s: State, step: Step)
    requires Inv(s) && Enabled(s, step) && (step.Start? ==> !Busy(s, step.id))
    ensures Inv(Next(s, step))
  {
    match step
    case Register(id, name) => RegisterKeepsInv(s, id, name);
    case Start(id, tid, created) =>
      if created { StartKeepsInv(s, id, tid); } else { DisableKeepsInv(s, Next(s, step), id); }
    case Stop(id) =>
      if s.heap[id].enabled {
        assert ServiceOk(s, id);
        DisableKeepsInv(s, Next(s, step), id);
      }
    case Destroy(id) => DestroyKeepsInv(s, id);
    case End(tid) => EndKeepsInv(s, tid);
    case Proceed =>
      if s.pc.Joining? { JoinKeepsInv(s); } else if s.pc.Freeing? { FreeKeepsInv(s); } else { DestroyingKeepsInv(s); }
    case _ => ClientStepKeepsInv(s, step);
  }

  lemma {:induction false} RunKeepsInv(s: State, steps: seq<Step>)
    requires Inv(s) && Possible(s, steps) && StartsOnlyResting(s, steps)
    ensures Inv(Run(s, steps))
    decreases |steps|
  {
    if steps != [] {
      StepKeepsInv(s, steps[0]);
      RunKeepsInv(Next(s, steps[0]), steps[1..]);
    }
  }

  // ---- What it gives

  /** In every reachable state at rest the list is exactly the live services, newest first, no name twice. */
  lemma ListIsTheLiveServices(steps: seq<Step>)
    requires Possible(EMPTY, steps) && StartsOnlyResting(EMPTY, steps)
    ensures var s := Run(EMPTY, steps);
            && (forall i :: 0 <= i < |s.services| ==> s.services[i] in s.heap)
            && (s.pc.Idle? ==> forall id :: id in s.heap <==> id in s.services)
            && (forall i, j :: 0 <= i < j < |s.services| ==>
                  && s.heap[s.services[i]].born > s.heap[s.services[j]].born
                  && s.heap[s.services[i]].name != s.heap[s.services[j]].name)
  {
    RunKeepsInv(EMPTY, steps);
  }

  /** A service is freed only after its threads have returned, its list is empty and its mutex is free. */
  lemma FreedOnlyAtRest(steps: seq<Step>)
    requires Possible(EMPTY, steps) && StartsOnlyResting(EMPTY, steps) && Run(EMPTY, steps).pc.Freeing?
    ensures var s := Run(EMPTY, steps);
            var id := s.pc.id;
            && id in s.heap && id !in s.services
            && !Busy(s, id) && s.heap[id].clients == [] && s.heap[id].lock == Nobody
  {
    RunKeepsInv(EMPTY, steps);
    var s := Run(EMPTY, steps);
    assert ServiceOk(s, s.pc.id);
    forall tid | tid in s.threads && s.threads[tid].running ensures s.threads[tid].service != s.pc.id {
      assert ThreadOk(s, tid);
    }
  }

  /** No thread runs on a freed service, and each service has one thread at most. */
  lemma ThreadsStandOnLiveServices(steps: seq<Step>, t: Tid, u: Tid)
    requires Possible(EMPTY, steps) && StartsOnlyResting(EMPTY, steps) && Running(Run(EMPTY, steps), t)
    ensures var s := Run(EMPTY, steps);
            && Touches(s, t) in s.heap
            && (Running(s, u) && Touches(s, u) == Touches(s, t) ==> u == t)
  {
    RunKeepsInv(EMPTY, steps);
    var s := Run(EMPTY, steps);
    assert ThreadOk(s, t) && (u in s.threads ==> ThreadOk(s, u));
  }

  /** pthread_join is called on a thread of the service that exists and has not been joined. */
  lemma JoinsSucceed(steps: seq<Step>)
    requires Possible(EMPTY, steps) && StartsOnlyResting(EMPTY, steps) && Run(EMPTY, steps).pc.Joining?
    ensures var s := Run(EMPTY, steps);
            s.pc.id in s.heap && Joinable(s, s.pc.id)
  {
    RunKeepsInv(EMPTY, steps);
  }

  /**
   * Stop and destroy never wait for ever, if routines leave the critical section and return: whenever the
   * server thread cannot go on, the thread it waits for can.
   */
  lemma NobodyWaitsForEver(steps: seq<Step>)
    requires Possible(EMPTY, steps) && StartsOnlyResting(EMPTY, steps) && !Run(EMPTY, steps).pc.Idle?
    ensures var s := Run(EMPTY, steps);
            Enabled(s, Proceed) ||
            exists tid :: tid in s.threads && Touches(s, tid) == s.pc.id
                          && (Enabled(s, Leave(tid)) || Enabled(s, End(tid)))
  {
    RunKeepsInv(EMPTY, steps);
    var s := Run(EMPTY, steps);
    assert ServiceOk(s, s.pc.id);
    if s.pc.Locking? && s.heap[s.pc.id].lock.Routine? {
      assert Enabled(s, Leave(s.heap[s.pc.id].lock.tid));
    } else if s.pc.Joining? && !CanProceed(s) {
      var tid := s.heap[s.pc.id].thread.value;
      assert Enabled(s, if Holds(s, tid) then Leave(tid) else End(tid));
    }
  }

  // ---- What the calls achieve

  /** The server thread is still inside the call: it comes back with the last step at the earliest. */
  predicate Inside(s: State, steps: seq<Step>)
    requires Possible(s, steps)
    decreases |steps|
  {
    steps != [] ==> !s.pc.Idle? && Inside(Next(s, steps[0]), steps[1..])
  }

  /** Stop refuses a service that does not run; else it disables it and goes to wait for the thread. */
  lemma StopDisables(s: State, id: Addr)
    requires Enabled(s, Stop(id))
    ensures var s' := Next(s, Stop(id));
            if s.heap[id].enabled then
              s'.pc == Joining(id, false) && id in s'.heap && !s'.heap[id].enabled && s'.services == s.services
            else
              s' == s
  {
  }

  /** The thread of the service is waited for, or has been joined. */
  predicate Awaited(s: State, id: Addr, tid: Tid) {
    if s.pc.Idle? || s.pc.Freeing? then tid !in s.threads
    else id in s.heap && s.heap[id].thread == Some(tid) && (s.heap[id].enabled || s.pc.Joining?)
  }

  lemma JoinedIsIdle(s: State, id: Addr)
    requires Inv(s) && CanProceed(s) && s.pc == Joining(id, false)
    ensures var r := Next(s, Proceed);
            && r.pc.Idle? && r.services == s.services
            && id in r.heap && !r.heap[id].enabled && !Busy(r, id)
  {
    var r := Next(s, Proceed);
    forall tid | tid in r.threads && r.threads[tid].running ensures r.threads[tid].service != id {
      assert ThreadOk(s, tid);
    }
  }

  lemma {:induction false} WaitEnds(s: State, id: Addr, tid: Tid, steps: seq<Step>)
    requires Inv(s) && s.pc == Joining(id, false) && Possible(s, steps) && Inside(s, steps) && Awaited(s, id, tid)
    requires Run(s, steps).pc.Idle?
    ensures var r := Run(s, steps);
            && r.services == s.services && id in r.heap && !r.heap[id].enabled
            && !Busy(r, id) && tid !in r.threads
    decreases |steps|
  {
    var step := steps[0];
    StepKeepsInv(s, step);
    if step.Proceed? {
      JoinedIsIdle(s, id);
      assert steps[1..] == [];
    } else {
      WaitEnds(Next(s, step), id, tid, steps[1..]);
    }
  }

  /** When japi_pushsrv_stop returns the service is disabled and its thread joined; it stays in the list. */
  lemma StopEndsTheThread(s: State, id: Addr, steps: seq<Step>)
    requires Inv(s) && Enabled(s, Stop(id)) && s.heap[id].enabled
    requires Possible(Next(s, Stop(id)), steps) && Inside(Next(s, Stop(id)), steps)
    requires Run(Next(s, Stop(id)), steps).pc.Idle?
    ensures var r := Run(Next(s, Stop(id)), steps);
            && r.services == s.services && id in r.heap && !r.heap[id].enabled
            && !Busy(r, id) && s.heap[id].thread.Some? && s.heap[id].thread.value !in r.threads
  {
    StopDisables(s, id);
    StepKeepsInv(s, Stop(id));
    assert ServiceOk(s, id);
    WaitEnds(Next(s, Stop(id)), id, s.heap[id].thread.value, steps);
  }

  /** Every other service is as it was, but for subscribers its own thread has dropped. */
  ghost predicate OthersStay(s: State, r: State, id: Addr) {
    forall o :: o in s.heap && o != id ==>
      o in r.heap && r.heap[o] == s.heap[o].(clients := r.heap[o].clients, lock := r.heap[o].lock)
  }

  lemma InsideDestroy(s: State, id: Addr, step: Step)
    requires Inv(s) && Enabled(s, step) && Leaving(s.pc) == {id}
    ensures var r := Next(s, step);
            && r.services == s.services && OthersStay(s, r, id)
            && (if r.pc.Idle? then id !in r.heap && !Busy(r, id) else Leaving(r.pc) == {id})
  {
    var r := Next(s, step);
    assert s.pc.id == id;
    if r.pc.Idle? {
      forall tid | tid in r.threads && r.threads[tid].running ensures r.threads[tid].service != id {
        assert ThreadOk(s, tid);
      }
    }
  }

  lemma {:induction false} DestroyEnds(s: State, id: Addr, steps: seq<Step>)
    requires Inv(s) && Leaving(s.pc) == {id} && Possible(s, steps) && Inside(s, steps) && Run(s, steps).pc.Idle?
    ensures var r := Run(s, steps);
            r.services == s.services && id !in r.heap && !Busy(r, id) && OthersStay(s, r, id)
    decreases |steps|
  {
    var r := Next(s, steps[0]);
    StepKeepsInv(s, steps[0]);
    InsideDestroy(s, id, steps[0]);
    if r.pc.Idle? {
      assert steps[1..] == [];
    } else {
      DestroyEnds(r, id, steps[1..]);
    }
  }

  lemma InsideAwaits(s: State, id: Addr, step: Step, tid: Tid)
    requires Inv(s) && Enabled(s, step) && Leaving(s.pc) == {id} && Awaited(s, id, tid)
    ensures Awaited(Next(s, step), id, tid)
  {
    assert s.pc.id == id;
  }

  lemma {:induction false} DestroyJoins(s: State, id: Addr, tid: Tid, steps: seq<Step>)
    requires Inv(s) && Leaving(s.pc) == {id} && Possible(s, steps) && Inside(s, steps) && Run(s, steps).pc.Idle?
    requires Awaited(s, id, tid)
    ensures tid !in Run(s, steps).threads
    decreases |steps|
  {
    var r := Next(s, steps[0]);
    StepKeepsInv(s, steps[0]);
    InsideDestroy(s, id, steps[0]);
    InsideAwaits(s, id, steps[0], tid);
    if r.pc.Idle? {
      assert steps[1..] == [];
    } else {
      DestroyJoins(r, id, tid, steps[1..]);
    }
  }

  /**
   * When japi_pushsrv_destroy returns the service is freed, unlisted and without a thread, and if it was running
   * its thread has been joined; the others stay.
   */
  lemma DestroyFrees(s: State, id: Addr, steps: seq<Step>)
    requires Inv(s) && Enabled(s, Destroy(id))
    requires Possible(Next(s, Destroy(id)), steps) && Inside(Next(s, Destroy(id)), steps)
    requires Run(Next(s, Destroy(id)), steps).pc.Idle?
    ensures var r := Run(Next(s, Destroy(id)), steps);
            && r.services == RemoveFirst(s.services, id) && id !in r.services && id !in r.heap
            && !Busy(r, id) && OthersStay(s, r, id)
            && (s.heap[id].enabled ==> s.heap[id].thread.Some? && s.heap[id].thread.value !in r.threads)
  {
    StepKeepsInv(s, Destroy(id));
    OrderedIsDistinct(s.services, s.heap);
    RemoveFirstDistinct(s.services, id);
    DestroyEnds(Next(s, Destroy(id)), id, steps);
    if s.heap[id].enabled {
      assert ServiceOk(s, id);
      DestroyJoins(Next(s, Destroy(id)), id, s.heap[id].thread.value, steps);
    }
  }

  /** A thread that has been started runs, can take its service's lock, give it back, and return. */
  lemma ThreadRuns(s: State, id: Addr, tid: Tid)
    requires Enabled(s, Start(id, tid, true)) && s.heap[id].lock.Nobody?
    ensures var s1 := Next(s, Start(id, tid, true));
            && Running(s1, tid) && Touches(s1, tid) == id && id in s1.heap && s1.heap[id].enabled
            && Enabled(s1, Take(tid))
            && var s2 := Next(s1, Take(tid));
               && Running(s2, tid) && Holds(s2, tid) && Enabled(s2, Leave(tid)) && !Enabled(s2, End(tid))
               && var s3 := Next(s2, Leave(tid));
                  && s3 == s1 && Enabled(s3, End(tid)) && !Running(Next(s3, End(tid)), tid)
  {
    var s1 := Next(s, Start(id, tid, true));
    var s2 := Next(s1, Take(tid));
    assert s1.heap[id := s1.heap[id].(lock := Routine(tid))][id := s1.heap[id]] == s1.heap;
  }

  // ---- The list, as push services are listed elsewhere

  /** The services as values, newest first. */
  function ShownOf(services: seq<Addr>, heap: map<Addr, Service>): (r: seq<Services.Service>)
    requires forall i :: 0 <= i < |services| ==> services[i] in heap
    ensures |r| == |services|
  {
    seq(|services|, i requires 0 <= i < |services| =>
      Services.Service(heap[services[i]].name, heap[services[i]].clients))
  }

  function Shown(s: State): (r: seq<Services.Service>)
    requires forall i :: 0 <= i < |s.services| ==> s.services[i] in s.heap
    ensures |r| == |s.services|
  {
    ShownOf(s.services, s.heap)
  }

  lemma ShownCons(services: seq<Addr>, heap: map<Addr, Service>, id: Addr, service: Service)
    requires id !in heap && forall i :: 0 <= i < |services| ==> services[i] in heap
    ensures var l, h := [id] + services, heap[id := service];
            && (forall i :: 0 <= i < |l| ==> l[i] in h)
            && ShownOf(l, h) == [Services.Service(service.name, service.clients)] + ShownOf(services, heap)
  {
  }

  lemma RedundantIsTaken(s: State, name: string)
    requires forall i :: 0 <= i < |s.services| ==> s.services[i] in s.heap
    ensures Redundant(s, name) <==> Services.Taken(Shown(s), name)
  {
    var svcs := Shown(s);
    assert forall i {:trigger svcs[i]} {:trigger s.services[i]} :: 0 <= i < |svcs| ==>
             svcs[i].name == s.heap[s.services[i]].name;
  }

  /** Registering is what it is on values: in front, unless the name is empty or taken. */
  lemma RegisterIsShown(s: State, id: Addr, name: string)
    requires Inv(s) && Enabled(s, Register(id, name))
    ensures Inv(Next(s, Register(id, name))) == true
    ensures Shown(Next(s, Register(id, name))) == Services.Entered(Shown(s), name)
  {
    RegisterKeepsInv(s, id, name);
    RedundantIsTaken(s, name);
    ShownCons(s.services, s.heap, id, Service(name, false, None, [], Nobody, s.clock));
  }

  /** The subscribers of the service after a step, given those before. */
  function Changed(step: Step, clients: seq<int>): seq<int> {
    match step
    case Subscribe(_, socket) => [socket] + clients
    case Disconnect(_, socket) => RemoveFirst(clients, socket)
    case FailWrite(_, socket) => RemoveFirst(clients, socket)
    case _ => clients
  }

  /** Subscribing and disconnecting change the one list, and so does a failed write. */
  lemma ListsAreShown(s: State, step: Step, k: nat)
    requires Inv(s) && Enabled(s, step) && k < |s.services|
    requires match step
             case Subscribe(id, _) => s.services[k] == id
             case Disconnect(id, _) => s.services[k] == id
             case FailWrite(tid, _) => s.services[k] == Touches(s, tid)
             case _ => false
    ensures Inv(Next(s, step))
    ensures Shown(Next(s, step)) == Shown(s)[k := Shown(s)[k].(subs := Changed(step, Shown(s)[k].subs))]
  {
    ClientStepKeepsInv(s, step);
    OrderedIsDistinct(s.services, s.heap);
  }

  // ---- Starting a running service

  /** A thread runs on a service that has been freed. */
  predicate Dangles(s: State) {
    exists tid :: tid in s.threads && s.threads[tid].running && s.threads[tid].service !in s.heap
  }

  /** Such a state can be reached without any further start on a running service. */
  ghost predicate CanDangle(s: State) {
    exists steps :: Possible(s, steps) && StartsOnlyResting(s, steps) && Dangles(Run(s, steps))
  }

  lemma DangleLater(s: State, step: Step)
    requires Enabled(s, step) && !step.Start? && CanDangle(Next(s, step))
    ensures CanDangle(s)
  {
    var steps :| && Possible(Next(s, step), steps) && StartsOnlyResting(Next(s, step), steps)
                 && Dangles(Run(Next(s, step), steps));
    assert ([step] + steps)[1..] == steps;
    assert Possible(s, [step] + steps) && Run(s, [step] + steps) == Run(Next(s, step), steps);
  }

  /**
   * Thread t is running for `id` and destroy would not wait for it: the service has no thread to join, or
   * another one. That is what a second start leaves, failed or not.
   */
  ghost predicate Forgotten(s: State, id: Addr, t: Tid) {
    && t in s.threads && s.threads[t] == Thread(id, true) && id in s.heap
    && (s.heap[id].enabled ==>
          && s.heap[id].thread.Some? && s.heap[id].thread.value != t
          && s.heap[id].thread.value in s.threads && s.threads[s.heap[id].thread.value] == Thread(id, true))
  }

  lemma DanglesWhenFreed(s: State, id: Addr, t: Tid)
    requires s.pc == Freeing(id) && id in s.heap && t in s.threads && s.threads[t] == Thread(id, true)
    ensures CanDangle(s)
  {
    var s' := Next(s, Proceed);
    assert s'.threads[t].service !in s'.heap;
    assert Possible(s', []) && StartsOnlyResting(s', []) && Run(s', []) == s';
    DangleLater(s, Proceed);
  }

  lemma DanglesWhenJoined(s: State, id: Addr, t: Tid, u: Tid)
    requires s.pc == Joining(id, true) && id in s.heap && s.heap[id].thread == Some(u) && s.heap[id].lock.Nobody?
    requires t != u && t in s.threads && s.threads[t] == Thread(id, true)
    requires u in s.threads && s.threads[u] == Thread(id, true)
    ensures CanDangle(s)
  {
    var s1 := Next(s, End(u));
    DanglesWhenFreed(Next(s1, Proceed), id, t);
    DangleLater(s1, Proceed);
    DangleLater(s, End(u));
  }

  lemma DanglesWhenStopped(s: State, id: Addr, t: Tid)
    requires s.pc == Stopping(id) && Forgotten(s, id, t) && s.heap[id].lock.Nobody?
    ensures CanDangle(s)
  {
    if s.heap[id].enabled {
      DanglesWhenJoined(Next(s, Proceed), id, t, s.heap[id].thread.value);
    } else {
      DanglesWhenFreed(Next(s, Proceed), id, t);
    }
    DangleLater(s, Proceed);
  }

  lemma {:induction false} DanglesWhenDrained(s: State, id: Addr, t: Tid)
    requires s.pc == Draining(id) && Forgotten(s, id, t)
    ensures CanDangle(s)
    decreases if id in s.heap then |s.heap[id].clients| else 0
  {
    if s.heap[id].clients == [] {
      DanglesWhenStopped(Next(s, Proceed), id, t);
    } else {
      DanglesWhenDrained(Next(s, Proceed), id, t);
    }
    DangleLater(s, Proceed);
  }

  lemma DanglesWhenDestroyed(s: State, id: Addr, t: Tid)
    requires Forgotten(s, id, t) && s.heap[id].lock.Nobody? && Enabled(s, Destroy(id))
    ensures CanDangle(s)
  {
    var s1 := Next(s, Destroy(id));
    DanglesWhenDrained(Next(s1, Proceed), id, t);
    DangleLater(s1, Proceed);
    DangleLater(s, Destroy(id));
  }

  lemma SecondStartDangles(s: State, id: Addr, t: Tid, u: Tid, created: bool)
    requires Inv(s) && Enabled(s, Start(id, u, created)) && t in s.threads && s.threads[t] == Thread(id, true)
    ensures CanDangle(Next(s, Start(id, u, created)))
  {
    var s1 := Next(s, Start(id, u, created));
    assert ServiceOk(s, id) && ThreadOk(s, t);
    if s.heap[id].lock.Routine? {
      var h := s.heap[id].lock.tid;
      DanglesWhenDestroyed(Next(s1, Leave(h)), id, t);
      DangleLater(s1, Leave(h));
    } else {
      DanglesWhenDestroyed(s1, id, t);
    }
  }

  lemma NeverDangles(s: State)
    requires Inv(s)
    ensures !CanDangle(s)
  {
    forall steps | Possible(s, steps) && StartsOnlyResting(s, steps) ensures !Dangles(Run(s, steps)) {
      RunKeepsInv(s, steps);
      var r := Run(s, steps);
      assert forall tid :: tid in r.threads ==> ThreadOk(r, tid);
    }
  }

  /**
   * Exactly when a start is safe, whether or not pthread_create succeeds: after it some run, itself without
   * another start on a running service, leaves a thread on a freed service if and only if the service's thread
   * was still running. A failed start clears `enabled`, so that destroy does not join at all.
   */
  lemma StartIsUnsafeIff(s: State, id: Addr, tid: Tid, created: bool)
    requires Inv(s) && Enabled(s, Start(id, tid, created))
    ensures CanDangle(Next(s, Start(id, tid, created))) <==> Busy(s, id)
  {
    if Busy(s, id) {
      var t :| t in s.threads && s.threads[t].running && s.threads[t].service == id;
      SecondStartDangles(s, id, t, tid, created);
    } else {
      StepKeepsInv(s, Start(id, tid, created));
      NeverDangles(Next(s, Start(id, tid, created)));
    }
  }

  /** Two starts in a row are enough, from a server on which nothing has been registered yet. */
  lemma SecondStartIsReachable(id: Addr, name: string, t: Tid, u: Tid, created: bool)
    requires name != "" && t != u
    ensures var steps := [Register(id, name), Start(id, t, true), Start(id, u, created)];
            Possible(EMPTY, steps) && CanDangle(Run(EMPTY, steps))
  {
    var s1 := Next(EMPTY, Register(id, name));
    var s2 := Next(s1, Start(id, t, true));
    var s3 := Next(s2, Start(id, u, created));
    StepKeepsInv(EMPTY, Register(id, name));
    StepKeepsInv(s1, Start(id, t, true));
    assert s2.threads[t] == Thread(id, true);
    StartIsUnsafeIff(s2, id, u, created);
    ThreeSteps(EMPTY, Register(id, name), Start(id, t, true), Start(id, u, created));
  }

  lemma StepThen(s: State, step: Step, rest: seq<Step>)
    requires Enabled(s, step) && Possible(Next(s, step), rest)
    ensures Possible(s, [step] + rest) && Run(s, [step] + rest) == Run(Next(s, step), rest)
  {
    assert ([step] + rest)[1..] == rest;
  }

  lemma ThreeSteps(s: State, a: Step, b: Step, c: Step)
    requires Enabled(s, a) && Enabled(Next(s, a), b) && Enabled(Next(Next(s, a), b), c)
    ensures Possible(s, [a, b, c]) && Run(s, [a, b, c]) == Next(Next(Next(s, a), b), c)
  {
    StepThen(Next(Next(s, a), b), c, []);
    StepThen(Next(s, a), b, [c] + []);
    StepThen(s, a, [b] + ([c] + []));
    assert [a] + ([b] + ([c] + [])) == [a, b, c];
  }
}
