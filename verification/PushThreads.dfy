/**
 * One push service under several threads, one pointer operation at a time: adding, removing on disconnect
 * and sending each take psc->lock, and freed nodes are gone from the heap (and may be handed out again).
 */
module PushThreads {
  import opened System
  import opened Sockets

  type Addr = nat
  const NULL: Addr := 0

  datatype Node = Node(socket: int, next: Addr)

  type Heap = map<Addr, Node>

  datatype Try = Try(socket: int, ok: bool)

  /** A sendmsg walk: position in the list, the subscribers when the lock was taken, the writes so far. */
  datatype Sending = Sending(pos: nat, snapshot: seq<int>, tries: seq<Try>)

  /** What a removal loop returns to: the unlock of its caller, the walk, or (unsubscribe) nothing at all. */
  datatype After = Unlock | Resume(following: Addr, sending: Sending) | Nothing

  /** Where a thread stands. Positions in the list and the Sending record are history, not program state. */
  datatype Pc =
    | Idle
    | AddWait(node: Addr)                                          // japi_pushsrv_add_client, before line 74
    | AddHold(node: Addr)                                          // at line 76
    | AddLink(node: Addr)                                          // at line 77
    | RemoveWait(socket: int)                                      // at line 149
    | Scan(socket: int, client: Addr, prev: Addr, k: nat, after: After)  // lines 99-129
    | SendWait                                                     // at line 481
    | Walk(client: Addr, sending: Sending)                         // at line 484
    | Saved(client: Addr, following: Addr, sending: Sending)       // at line 489
    | Release

  type Thread = nat

  datatype State = State(heap: Heap, head: Addr, lock: Option<Thread>, pcs: map<Thread, Pc>, list: seq<Addr>)

  datatype Step =
    | StartAdd(t: Thread, node: Addr, socket: int)  // malloc returns any address not in use
    | StartRemove(t: Thread, socket: int)           // disconnect
    | StartUnsubscribe(t: Thread, socket: int)      // line 254: the removal loop without the lock
    | StartSend(t: Thread)
    | Acquire(t: Thread)
    | Advance(t: Thread, ok: bool)                  // ok: how a write ends, if the step writes

  function PcOf(s: State, t: Thread): Pc {
    if t in s.pcs then s.pcs[t] else Idle
  }

  function AddrAt(list: seq<Addr>, i: nat): Addr {
    if i < |list| then list[i] else NULL
  }

  /** The nodes the thread's next operation looks into. */
  function Derefs(s: State, t: Thread): set<Addr> {
    match PcOf(s, t)
    case AddHold(node) => {node}
    case Scan(socket, client, prev, k, after) =>
      if client == NULL then {}
      else {client} + if prev != NULL && client in s.heap && s.heap[client].socket == socket then {prev} else {}
    case Walk(client, _) => if client == NULL then {} else {client}
    case Saved(client, _, _) => {client}
    case _ => {}
  }

  /** No dangling pointer is about to be followed. */
  predicate Safe(s: State, t: Thread) {
    Derefs(s, t) <= s.heap.Keys
  }

  predicate Enabled(s: State, step: Step) {
    match step
    case StartAdd(t, node, socket) => PcOf(s, t).Idle? && node != NULL && node !in s.heap
    case StartRemove(t, _) => PcOf(s, t).Idle?
    case StartUnsubscribe(t, _) => PcOf(s, t).Idle?
    case StartSend(t) => PcOf(s, t).Idle?
    case Acquire(t) => s.lock.None? && (PcOf(s, t).AddWait? || PcOf(s, t).RemoveWait? || PcOf(s, t).SendWait?)
    case Advance(t, _) =>
      var pc := PcOf(s, t);
      && Safe(s, t)
      && (pc.AddHold? || pc.AddLink? || pc.Scan? || pc.Walk? || pc.Saved? || pc.Release?)
  }

  function SocketsOf(heap: Heap, list: seq<Addr>): seq<int>
    requires forall i :: 0 <= i < |list| ==> list[i] in heap
  {
    seq(|list|, i requires 0 <= i < |list| => heap[list[i]].socket)
  }

  /** The descriptors of the listed nodes that are live; all of them are, by the invariant. */
  function Listed(s: State): seq<int> {
    if forall i :: 0 <= i < |s.list| ==> s.list[i] in s.heap then SocketsOf(s.heap, s.list) else []
  }

  function Goto(s: State, t: Thread, pc: Pc): State {
    s.(pcs := s.pcs[t := pc])
  }

  function Returned(after: After): Pc {
    match after
    case Unlock => Release
    case Resume(following, sending) => Walk(following, sending)
    case Nothing => Idle
  }

  /** Unlink and free `client`, lines 101-125. */
  function Unlinked(s: State, client: Addr, prev: Addr, k: nat): State
    requires client in s.heap && (prev != NULL ==> prev in s.heap)
  {
    var next := s.heap[client].next;
    var s' := if prev == NULL then s.(head := next) else s.(heap := s.heap[prev := s.heap[prev].(next := next)]);
    s'.(heap := s'.heap - {client}, list := if k < |s.list| then RemoveAt(s.list, k) else s.list)
  }

  function Next(s: State, step: Step): State
    requires Enabled(s, step)
  {
    match step
    case StartAdd(t, node, socket) => Goto(s.(heap := s.heap[node := Node(socket, NULL)]), t, AddWait(node))
    case StartRemove(t, socket) => Goto(s, t, RemoveWait(socket))
    case StartUnsubscribe(t, socket) => Goto(s, t, Scan(socket, s.head, NULL, 0, Nothing))
    case StartSend(t) => Goto(s, t, SendWait)
    case Acquire(t) =>
      var s' := s.(lock := Some(t));
      (match PcOf(s, t)
       case AddWait(node) => Goto(s', t, AddHold(node))
       case RemoveWait(socket) => Goto(s', t, Scan(socket, s.head, NULL, 0, Unlock))
       case _ => Goto(s', t, Walk(s.head, Sending(0, Listed(s), []))))
    case Advance(t, ok) => Advanced(s, t, ok)
  }

  function Advanced(s: State, t: Thread, ok: bool): State
    requires Enabled(s, Advance(t, ok))
  {
    match PcOf(s, t)
    case AddHold(node) => Goto(s.(heap := s.heap[node := s.heap[node].(next := s.head)]), t, AddLink(node))
    case AddLink(node) => Goto(s.(head := node, list := [node] + s.list), t, Release)
    case Scan(socket, client, prev, k, after) =>
      if client == NULL then Goto(s, t, Returned(after))
      else if s.heap[client].socket == socket then Goto(Unlinked(s, client, prev, k), t, Returned(after))
      else Goto(s, t, Scan(socket, s.heap[client].next, client, k + 1, after))
    case Walk(client, sending) =>
      if client == NULL then Goto(s, t, Release)
      else Goto(s, t, Saved(client, s.heap[client].next, sending))
    case Saved(client, following, sending) =>
      var socket := s.heap[client].socket;
      var tried := sending.(tries := sending.tries + [Try(socket, ok)]);
      if ok then Goto(s, t, Walk(following, tried.(pos := sending.pos + 1)))
      else Goto(s, t, Scan(socket, s.head, NULL, 0, Resume(following, tried)))
    case _ => Goto(s.(lock := None), t, Idle)
  }

  predicate Possible(s: State, steps: seq<Step>)
    decreases |steps|
  {
    steps != [] ==> Enabled(s, steps[0]) && Possible(Next(s, steps[0]), steps[1..])
  }

  function Run(s: State, steps: seq<Step>): State
    requires Possible(s, steps)
    decreases |steps|
  {
    if steps == [] then s else Run(Next(s, steps[0]), steps[1..])
  }

  predicate TakesTheLock(steps: seq<Step>) {
    forall i :: 0 <= i < |steps| ==> !steps[i].StartUnsubscribe?
  }

  // ---- The invariant

  /** The heap holds the list from head, acyclic, every node live. */
  ghost predicate Chain(heap: Heap, head: Addr, list: seq<Addr>) {
    && head == AddrAt(list, 0) && Distinct(list)
    && (forall i {:trigger list[i]} :: 0 <= i < |list| ==> list[i] != NULL && list[i] in heap)
    && forall i {:trigger heap[list[i]]} :: 0 <= i < |list| ==> heap[list[i]].next == AddrAt(list, i + 1)
  }

  predicate InCritical(pc: Pc) {
    pc.AddHold? || pc.AddLink? || pc.Scan? || pc.Walk? || pc.Saved? || pc.Release?
  }

  /** The node a thread has allocated and not linked yet, or NULL. */
  function Pending(pc: Pc): Addr {
    match pc
    case AddWait(node) => node
    case AddHold(node) => node
    case AddLink(node) => node
    case _ => NULL
  }

  function Wins(tries: seq<Try>): seq<int> {
    if tries == [] then []
    else Wins(tries[..|tries| - 1]) + if tries[|tries| - 1].ok then [tries[|tries| - 1].socket] else []
  }

  /** The subscribers these writes leave, in list order: a failed one takes the first of its descriptor away. */
  function Kept(tries: seq<Try>): seq<int> {
    if tries == [] then []
    else
      var last := tries[|tries| - 1];
      var kept := Kept(tries[..|tries| - 1]) + [last.socket];
      if last.ok then kept else RemoveFirst(kept, last.socket)
  }

  function TriedSockets(tries: seq<Try>): seq<int> {
    seq(|tries|, i requires 0 <= i < |tries| => tries[i].socket)
  }

  /**
   * A walk in progress: `behind` are the subscribers kept so far, `ahead` those still to come. One write per
   * subscriber of the snapshot, in its order; what is behind is what those writes leave.
   */
  ghost predicate WalkOk(sending: Sending, behind: seq<int>, ahead: seq<int>) {
    TriedSockets(sending.tries) + ahead == sending.snapshot && behind == Kept(sending.tries)
  }

  /** The same while the loop searches the descriptor of the current node, whose write has just failed. */
  ghost predicate FailedOk(sending: Sending, behind: seq<int>, socket: int, ahead: seq<int>) {
    && sending.tries != [] && sending.tries[|sending.tries| - 1] == Try(socket, false)
    && TriedSockets(sending.tries) + ahead == sending.snapshot
    && behind == Kept(sending.tries[..|sending.tries| - 1])
  }

  /** A removal loop has passed k nodes without a match; one inside a walk will find the current node at most. */
  ghost predicate ScanOk(
    list: seq<Addr>, socks: seq<int>, socket: int, client: Addr, prev: Addr, k: nat, after: After)
    requires |list| == |socks|
  {
    && k <= |list| && client == AddrAt(list, k) && prev == (if k == 0 then NULL else list[k - 1])
    && (forall j :: 0 <= j < k ==> socks[j] != socket)
    && !after.Nothing?
    && (after.Resume? ==>
          var p := after.sending.pos;
          && k <= p < |list| && socks[p] == socket && after.following == AddrAt(list, p + 1)
          && FailedOk(after.sending, socks[..p], socket, socks[p + 1..]))
  }

  ghost predicate WalkAt(list: seq<Addr>, socks: seq<int>, client: Addr, sending: Sending)
    requires |list| == |socks|
  {
    && sending.pos <= |list| && client == AddrAt(list, sending.pos)
    && WalkOk(sending, socks[..sending.pos], socks[sending.pos..])
  }

  /** What a thread inside the critical section knows about the list. */
  ghost predicate PcOk(heap: Heap, head: Addr, list: seq<Addr>, pc: Pc)
    requires Chain(heap, head, list)
  {
    var socks := SocketsOf(heap, list);
    match pc
    case AddWait(node) => node != NULL
    case AddHold(node) => node != NULL
    case AddLink(node) => node != NULL && node in heap && heap[node].next == head
    case Scan(socket, client, prev, k, after) => ScanOk(list, socks, socket, client, prev, k, after)
    case Walk(client, sending) => WalkAt(list, socks, client, sending)
    case Saved(client, following, sending) =>
      client != NULL && WalkAt(list, socks, client, sending) && following == AddrAt(list, sending.pos + 1)
    case _ => true
  }

  ghost predicate Inv(s: State) {
    && Chain(s.heap, s.head, s.list)
    && (forall t :: t in s.pcs && InCritical(s.pcs[t]) ==> s.lock == Some(t))
    && (forall t :: t in s.pcs ==> PcOk(s.heap, s.head, s.list, s.pcs[t]))
    && (forall t :: t in s.pcs && Pending(s.pcs[t]) != NULL ==>
          Pending(s.pcs[t]) in s.heap && Pending(s.pcs[t]) !in s.list)
    && (forall t, u :: t in s.pcs && u in s.pcs && t != u && Pending(s.pcs[t]) != NULL ==>
          Pending(s.pcs[t]) != Pending(s.pcs[u]))
  }

  // ---- The list under each kind of write

  /** A write outside the list leaves it as it was. */
  lemma OutsideKeepsChain(heap: Heap, head: Addr, list: seq<Addr>, n: Addr, node: Node)
    requires Chain(heap, head, list) && n !in list
    ensures Chain(heap[n := node], head, list) && SocketsOf(heap[n := node], list) == SocketsOf(heap, list)
  {
    assert forall i {:trigger list[i]} :: 0 <= i < |list| ==> list[i] in list;
  }

  lemma LinkKeepsChain(heap: Heap, head: Addr, list: seq<Addr>, n: Addr)
    requires Chain(heap, head, list) && n !in list && n != NULL && n in heap && heap[n].next == head
    ensures Chain(heap, n, [n] + list)
  {
    var l := [n] + list;
    forall i {:trigger heap[l[i]]} | 0 <= i < |l| ensures heap[l[i]].next == AddrAt(l, i + 1) {
      if i > 0 {
        assert l[i] == list[i - 1];
      }
    }
  }

  /** Unlinking the k-th node drops it from the list and from the heap, and nothing else. */
  lemma UnlinkKeepsChain(s: State, k: nat)
    requires Chain(s.heap, s.head, s.list) && k < |s.list|
    ensures var prev := if k == 0 then NULL else s.list[k - 1];
            var s' := Unlinked(s, s.list[k], prev, k);
            && s'.list == RemoveAt(s.list, k)
            && Chain(s'.heap, s'.head, s'.list)
            && SocketsOf(s'.heap, s'.list) == RemoveAt(SocketsOf(s.heap, s.list), k)
            && forall n :: n in s.heap && n !in s.list ==> n in s'.heap && n !in s'.list
  {
    var prev := if k == 0 then NULL else s.list[k - 1];
    var s' := Unlinked(s, s.list[k], prev, k);
    var l := s'.list;
    RemoveAtElements(s.list, k);
    RemoveAtDistinct(s.list, k);
    forall i {:trigger l[i]} | 0 <= i < |l| ensures l[i] != NULL && l[i] in s'.heap {
      assert l[i] == s.list[if i < k then i else i + 1];
    }
    forall i {:trigger l[i]} | 0 <= i < |l|
      ensures s'.heap[l[i]].next == AddrAt(l, i + 1) && s'.heap[l[i]].socket == s.heap[l[i]].socket
    {
      UnlinkedNode(s, k, i);
    }
    SameSockets(s.heap, s'.heap, s.list, k);
  }

  lemma UnlinkedNode(s: State, k: nat, i: nat)
    requires Chain(s.heap, s.head, s.list) && k < |s.list| && i < |s.list| - 1
    ensures var prev := if k == 0 then NULL else s.list[k - 1];
            var s' := Unlinked(s, s.list[k], prev, k);
            var n := RemoveAt(s.list, k)[i];
            && n in s'.heap && n in s.heap
            && s'.heap[n].socket == s.heap[n].socket
            && s'.heap[n].next == AddrAt(RemoveAt(s.list, k), i + 1)
  {
    var j := if i < k then i else i + 1;
    RemoveAtElements(s.list, k);
    assert RemoveAt(s.list, k)[i] == s.list[j] && s.heap[s.list[j]].next == AddrAt(s.list, j + 1);
    assert s.heap[s.list[k]].next == AddrAt(s.list, k + 1);
  }

  lemma SameSockets(heap: Heap, heap': Heap, list: seq<Addr>, k: nat)
    requires k < |list| && forall i :: 0 <= i < |list| ==> list[i] in heap
    requires forall i {:trigger RemoveAt(list, k)[i]} :: 0 <= i < |list| - 1 ==>
               var n := RemoveAt(list, k)[i]; n in heap' && n in heap && heap'[n].socket == heap[n].socket
    ensures SocketsOf(heap', RemoveAt(list, k)) == RemoveAt(SocketsOf(heap, list), k)
  {
    RemoveAtElements(list, k);
    RemoveAtElements(SocketsOf(heap, list), k);
  }

  // ---- Every step keeps the invariant

  lemma CriticalOwnsLock(s: State, t: Thread)
    requires Inv(s) && t in s.pcs && InCritical(s.pcs[t])
    ensures s.lock == Some(t)
    ensures forall u :: u in s.pcs && u != t ==> !InCritical(s.pcs[u])
  {
  }

  /** A step by the owner of the lock that leaves the list right and other threads' new nodes alone. */
  lemma OwnerStep(s: State, t: Thread, s': State, pc': Pc)
    requires Inv(s) && t in s.pcs && InCritical(s.pcs[t]) && s'.pcs == s.pcs[t := pc']
    requires Chain(s'.heap, s'.head, s'.list) && PcOk(s'.heap, s'.head, s'.list, pc')
    requires if InCritical(pc') then s'.lock == Some(t) else true
    requires Pending(pc') != NULL ==>
               Pending(pc') == Pending(s.pcs[t]) && Pending(pc') in s'.heap && Pending(pc') !in s'.list
    requires forall n :: n in s.heap && n !in s.list && n != Pending(s.pcs[t]) ==> n in s'.heap && n !in s'.list
    ensures Inv(s')
  {
    CriticalOwnsLock(s, t);
    forall u | u in s'.pcs ensures PcOk(s'.heap, s'.head, s'.list, s'.pcs[u]) == true {
      if u != t {
        assert s'.pcs[u] == s.pcs[u];
        OutsiderOk(s, s', s.pcs[u]);
      }
    }
  }

  /** A thread outside the critical section knows nothing that a change of the list could spoil. */
  lemma OutsiderOk(s: State, s': State, pc: Pc)
    requires Chain(s.heap, s.head, s.list) && Chain(s'.heap, s'.head, s'.list)
    requires PcOk(s.heap, s.head, s.list, pc) && !InCritical(pc)
    ensures PcOk(s'.heap, s'.head, s'.list, pc)
  {
  }

  lemma {:induction false} TriesSnoc(tries: seq<Try>, x: Try)
    ensures Wins(tries + [x]) == Wins(tries) + if x.ok then [x.socket] else []
    ensures Kept(tries + [x]) ==
            if x.ok then Kept(tries) + [x.socket] else RemoveFirst(Kept(tries) + [x.socket], x.socket)
    ensures TriedSockets(tries + [x]) == TriedSockets(tries) + [x.socket]
  {
    assert (tries + [x])[..|tries|] == tries;
  }

  /** One more write: what was just ahead has now been tried. */
  lemma WalkStep(sending: Sending, behind: seq<int>, socket: int, ahead: seq<int>, ok: bool)
    requires WalkOk(sending, behind, [socket] + ahead)
    ensures var tried := sending.(tries := sending.tries + [Try(socket, ok)]);
            if ok then WalkOk(tried, behind + [socket], ahead) == true
            else FailedOk(tried, behind, socket, ahead) == true
  {
    TriesSnoc(sending.tries, Try(socket, ok));
    Snoc(TriedSockets(sending.tries), socket, ahead);
    Snoc(sending.tries, Try(socket, ok), []);
  }

  lemma Snoc<T>(a: seq<T>, x: T, b: seq<T>)
    ensures a + ([x] + b) == a + [x] + b
    ensures (a + [x])[..|a|] == a && (a + [x])[|a|] == x
  {
  }

  lemma CutAt(socks: seq<int>, p: nat)
    requires p < |socks|
    ensures socks[p..] == [socks[p]] + socks[p + 1..] && socks[..p + 1] == socks[..p] + [socks[p]]
  {
  }

  /** The node freed is at or before the current one: what is ahead stays, and behind the descriptor goes. */
  lemma RemoveBehind(socks: seq<int>, k: nat, p: nat)
    requires k <= p < |socks| && socks[k] == socks[p] && forall j :: 0 <= j < k ==> socks[j] != socks[p]
    ensures var r := RemoveAt(socks, k);
            p <= |r| && r[p..] == socks[p + 1..] && r[..p] == RemoveFirst(socks[..p] + [socks[p]], socks[p])
  {
    var r := RemoveAt(socks, k);
    RemoveAtElements(socks, k);
    assert socks[..p + 1] == socks[..p] + [socks[p]];
    assert r[..p] == RemoveAt(socks[..p + 1], k);
    IndexUnique(socks[..p + 1], socks[p], k);
  }

  /** The scan inside a walk ends at the walk's next node, with the list one shorter. */
  lemma HitResumes(list: seq<Addr>, socks: seq<int>, socket: int, client: Addr, prev: Addr, k: nat, after: After)
    requires |list| == |socks| && ScanOk(list, socks, socket, client, prev, k, after)
    requires k < |list| && socks[k] == socket && after.Resume?
    ensures WalkAt(RemoveAt(list, k), RemoveAt(socks, k), after.following, after.sending)
  {
    RemoveBehind(socks, k, after.sending.pos);
    RemoveAtElements(list, k);
  }

  /** Where the removal loop goes on from, once it has unlinked the node it found. */
  lemma HitGoesOn(s: State, socket: int, client: Addr, prev: Addr, k: nat, after: After)
    requires Chain(s.heap, s.head, s.list)
    requires ScanOk(s.list, SocketsOf(s.heap, s.list), socket, client, prev, k, after)
    requires k < |s.list| && s.heap[client].socket == socket
    ensures var s' := Unlinked(s, client, prev, k);
            && Chain(s'.heap, s'.head, s'.list) && PcOk(s'.heap, s'.head, s'.list, Returned(after))
            && forall n :: n in s.heap && n !in s.list ==> n in s'.heap && n !in s'.list
  {
    UnlinkKeepsChain(s, k);
    if after.Resume? {
      HitResumes(s.list, SocketsOf(s.heap, s.list), socket, client, prev, k, after);
    }
  }

  lemma ScanHitKeepsInv(s: State, t: Thread, ok: bool)
    requires Inv(s) && Enabled(s, Advance(t, ok)) && PcOf(s, t).Scan?
    requires PcOf(s, t).client != NULL && s.heap[PcOf(s, t).client].socket == PcOf(s, t).socket
    ensures Inv(Next(s, Advance(t, ok)))
  {
    var Scan(socket, client, prev, k, after) := s.pcs[t];
    assert PcOk(s.heap, s.head, s.list, s.pcs[t]);
    HitGoesOn(s, socket, client, prev, k, after);
    OwnerStep(s, t, Next(s, Advance(t, ok)), Returned(after));
  }

  lemma ScanKeepsInv(s: State, t: Thread, ok: bool)
    requires Inv(s) && Enabled(s, Advance(t, ok)) && PcOf(s, t).Scan?
    ensures Inv(Next(s, Advance(t, ok)))
  {
    var Scan(socket, client, prev, k, after) := s.pcs[t];
    var s' := Next(s, Advance(t, ok));
    if client == NULL {
      OwnerStep(s, t, s', Release);
    } else if s.heap[client].socket == socket {
      ScanHitKeepsInv(s, t, ok);
    } else {
      ScanMisses(s.heap, s.head, s.list, socket, client, prev, k, after);
      OwnerStep(s, t, s', s'.pcs[t]);
    }
  }

  lemma ScanMisses(
    heap: Heap, head: Addr, list: seq<Addr>, socket: int, client: Addr, prev: Addr, k: nat, after: After)
    requires Chain(heap, head, list) && PcOk(heap, head, list, Scan(socket, client, prev, k, after))
    requires client != NULL && client in heap && heap[client].socket != socket
    ensures PcOk(heap, head, list, Scan(socket, heap[client].next, client, k + 1, after))
  {
    assert client == list[k];
  }

  lemma WalkKeepsInv(s: State, t: Thread, ok: bool)
    requires Inv(s) && Enabled(s, Advance(t, ok)) && PcOf(s, t).Walk?
    ensures Inv(Next(s, Advance(t, ok)))
  {
    var s' := Next(s, Advance(t, ok));
    var Walk(client, sending) := s.pcs[t];
    if client == NULL {
      OwnerStep(s, t, s', Release);
    } else {
      assert client == s.list[sending.pos];
      assert s.heap[client].next == AddrAt(s.list, sending.pos + 1);
      assert PcOk(s'.heap, s'.head, s'.list, s'.pcs[t]) == true;
      OwnerStep(s, t, s', Saved(client, s.heap[client].next, sending));
    }
  }

  /** What a write leaves the walk with: on success its next node, on failure a search for the current one. */
  lemma SavedGoesOn(list: seq<Addr>, socks: seq<int>, client: Addr, following: Addr, sending: Sending, ok: bool)
    requires |list| == |socks| && client != NULL && WalkAt(list, socks, client, sending)
    requires following == AddrAt(list, sending.pos + 1)
    ensures sending.pos < |list|
    ensures var tried := sending.(tries := sending.tries + [Try(socks[sending.pos], ok)]);
            if ok then WalkAt(list, socks, following, tried.(pos := sending.pos + 1))
            else ScanOk(list, socks, socks[sending.pos], AddrAt(list, 0), NULL, 0, Resume(following, tried))
  {
    CutAt(socks, sending.pos);
    WalkStep(sending, socks[..sending.pos], socks[sending.pos], socks[sending.pos + 1..], ok);
  }

  lemma SavedKeepsInv(s: State, t: Thread, ok: bool)
    requires Inv(s) && Enabled(s, Advance(t, ok)) && PcOf(s, t).Saved?
    ensures Inv(Next(s, Advance(t, ok)))
  {
    var s' := Next(s, Advance(t, ok));
    var Saved(client, following, sending) := s.pcs[t];
    SavedGoesOn(s.list, SocketsOf(s.heap, s.list), client, following, sending, ok);
    assert s.heap[client].socket == SocketsOf(s.heap, s.list)[sending.pos];
    assert PcOk(s'.heap, s'.head, s'.list, s'.pcs[t]) == true;
    OwnerStep(s, t, s', s'.pcs[t]);
  }

  lemma AddKeepsInv(s: State, t: Thread, ok: bool)
    requires Inv(s) && Enabled(s, Advance(t, ok)) && (PcOf(s, t).AddHold? || PcOf(s, t).AddLink?)
    ensures Inv(Next(s, Advance(t, ok)))
  {
    var s' := Next(s, Advance(t, ok));
    var node := s.pcs[t].node;
    if s.pcs[t].AddHold? {
      OutsideKeepsChain(s.heap, s.head, s.list, node, s.heap[node].(next := s.head));
      OwnerStep(s, t, s', AddLink(node));
    } else {
      LinkKeepsChain(s.heap, s.head, s.list, node);
      OwnerStep(s, t, s', Release);
    }
  }

  lemma AdvanceKeepsInv(s: State, t: Thread, ok: bool)
    requires Inv(s) && Enabled(s, Advance(t, ok))
    ensures Inv(Next(s, Advance(t, ok)))
  {
    var pc := PcOf(s, t);
    if pc.Scan? {
      ScanKeepsInv(s, t, ok);
    } else if pc.Walk? {
      WalkKeepsInv(s, t, ok);
    } else if pc.Saved? {
      SavedKeepsInv(s, t, ok);
    } else if pc.AddHold? || pc.AddLink? {
      AddKeepsInv(s, t, ok);
    } else {
      OwnerStep(s, t, Next(s, Advance(t, ok)), Idle);
    }
  }

  /** A step that only moves a thread between places where it holds the same new node, or none. */
  lemma QuietStep(s: State, t: Thread, s': State, pc': Pc)
    requires Inv(s) && s' == Goto(s, t, pc').(lock := s'.lock)
    requires Pending(pc') == Pending(PcOf(s, t)) && PcOk(s.heap, s.head, s.list, pc')
    requires if InCritical(pc') then s.lock == None && s'.lock == Some(t) else s'.lock == s.lock
    requires !InCritical(PcOf(s, t))
    ensures Inv(s')
  {
  }

  lemma StartAddKeepsInv(s: State, t: Thread, node: Addr, socket: int)
    requires Inv(s) && Enabled(s, StartAdd(t, node, socket))
    ensures Inv(Next(s, StartAdd(t, node, socket)))
  {
    var s' := Next(s, StartAdd(t, node, socket));
    assert node !in s.list;
    OutsideKeepsChain(s.heap, s.head, s.list, node, Node(socket, NULL));
    forall u | u in s'.pcs ensures PcOk(s'.heap, s'.head, s'.list, s'.pcs[u]) == true {
      if u != t {
        assert PcOk(s.heap, s.head, s.list, s.pcs[u]);
      }
    }
  }

  /** A thread that takes the lock sees the list as it is. */
  lemma AcquireKeepsInv(s: State, t: Thread)
    requires Inv(s) && Enabled(s, Acquire(t))
    ensures Inv(Next(s, Acquire(t)))
  {
    var s' := Next(s, Acquire(t));
    var socks := SocketsOf(s.heap, s.list);
    assert socks[..0] == [] && socks[0..] == socks && TriedSockets([]) + socks == socks;
    assert PcOk(s.heap, s.head, s.list, s'.pcs[t]) == true;
    QuietStep(s, t, s', s'.pcs[t]);
  }

  lemma StartKeepsInv(s: State, step: Step)
    requires Inv(s) && Enabled(s, step) && !step.Advance? && !step.StartUnsubscribe?
    ensures Inv(Next(s, step))
  {
    match step
    case StartAdd(t, node, socket) => StartAddKeepsInv(s, t, node, socket);
    case StartRemove(t, socket) => QuietStep(s, t, Next(s, step), RemoveWait(socket));
    case StartSend(t) => QuietStep(s, t, Next(s, step), SendWait);
    case Acquire(t) => AcquireKeepsInv(s, t);
  }

  lemma StepKeepsInv(s: State, step: Step)
    requires Inv(s) && Enabled(s, step) && !step.StartUnsubscribe?
    ensures Inv(Next(s, step))
  {
    if step.Advance? {
      AdvanceKeepsInv(s, step.t, step.ok);
    } else {
      StartKeepsInv(s, step);
    }
  }

  /** With every removal under the lock the invariant holds over every interleaving of every thread's steps. */
  lemma {:induction false} RunKeepsInv(s: State, steps: seq<Step>)
    requires Inv(s) && Possible(s, steps) && TakesTheLock(steps)
    ensures Inv(Run(s, steps))
    decreases |steps|
  {
    if steps != [] {
      assert !steps[0].StartUnsubscribe?;
      StepKeepsInv(s, steps[0]);
      RunKeepsInv(Next(s, steps[0]), steps[1..]);
    }
  }

  /** Steps of the other threads do not see where u stands. */
  lemma OthersStep(s: State, u: Thread, pc: Pc, step: Step)
    requires Enabled(s, step) && step.t != u
    ensures Enabled(Goto(s, u, pc), step) && Next(Goto(s, u, pc), step) == Goto(Next(s, step), u, pc)
  {
    if step.Advance? {
      OthersAdvance(s, u, pc, step.t, step.ok);
    } else {
      PlacesCommute(s, u, pc, step.t, PcOf(Next(s, step), step.t));
    }
  }

  lemma OthersAdvance(s: State, u: Thread, pc: Pc, t: Thread, ok: bool)
    requires Enabled(s, Advance(t, ok)) && t != u
    ensures Enabled(Goto(s, u, pc), Advance(t, ok))
    ensures Advanced(Goto(s, u, pc), t, ok) == Goto(Advanced(s, t, ok), u, pc)
  {
    PlacesCommute(s, u, pc, t, PcOf(Advanced(s, t, ok), t));
  }

  lemma OthersKeepTheirPlace(s: State, u: Thread, step: Step)
    requires Enabled(s, step) && step.t != u
    ensures PcOf(Next(s, step), u) == PcOf(s, u)
  {
  }

  lemma PlacesCommute(s: State, u: Thread, pc: Pc, t: Thread, pc': Pc)
    requires t != u
    ensures s.pcs[u := pc][t := pc'] == s.pcs[t := pc'][u := pc]
  {
  }

  // ---- What it gives

  const EMPTY: State := State(map[], NULL, None, map[], [])

  /** The next node a walk has saved, while it writes and while it removes. */
  function SavedNext(pc: Pc): Addr {
    match pc
    case Saved(_, following, _) => following
    case Scan(_, _, _, _, Resume(following, _)) => following
    case Walk(client, _) => client
    case _ => NULL
  }

  /**
   * In every state any interleaving can reach, no thread is about to follow a dangling pointer, and the node
   * a walk has saved to go on with is still in the list.
   */
  lemma NoDanglingPointers(steps: seq<Step>, t: Thread)
    requires Possible(EMPTY, steps) && TakesTheLock(steps)
    ensures var s := Run(EMPTY, steps);
            && Safe(s, t)
            && (SavedNext(PcOf(s, t)) != NULL ==> SavedNext(PcOf(s, t)) in s.heap && SavedNext(PcOf(s, t)) in s.list)
  {
    RunKeepsInv(EMPTY, steps);
    var s := Run(EMPTY, steps);
    if t in s.pcs {
      assert PcOk(s.heap, s.head, s.list, s.pcs[t]);
      IsSafe(s, s.pcs[t], t);
    }
  }

  lemma InvIsSafe(s: State, t: Thread)
    requires Inv(s)
    ensures Safe(s, t)
  {
    if t in s.pcs {
      assert PcOk(s.heap, s.head, s.list, s.pcs[t]);
      IsSafe(s, s.pcs[t], t);
    }
  }

  lemma IsSafe(s: State, pc: Pc, t: Thread)
    requires Inv(s) && t in s.pcs && s.pcs[t] == pc
    ensures Safe(s, t)
    ensures SavedNext(pc) != NULL ==> SavedNext(pc) in s.heap && SavedNext(pc) in s.list
  {
    assert forall i {:trigger s.list[i]} :: 0 <= i < |s.list| ==> s.list[i] in s.list && s.list[i] in s.heap;
  }

  function Oks(tries: seq<Try>): (ok: seq<bool>)
    ensures |ok| == |tries|
  {
    seq(|tries|, i requires 0 <= i < |tries| => tries[i].ok)
  }

  /** What the writes leave is, as a multiset, the successful ones. */
  lemma {:induction false} KeptAreWins(tries: seq<Try>)
    ensures multiset(Kept(tries)) == multiset(Wins(tries))
  {
    if tries != [] {
      var before, last := tries[..|tries| - 1], tries[|tries| - 1];
      KeptAreWins(before);
      RemoveFirstMultiset(Kept(before) + [last.socket], last.socket);
    }
  }

  lemma {:induction false} AfterSendSnoc(kept: seq<int>, todo: seq<int>, ok: seq<bool>, x: int, xOk: bool)
    requires |todo| == |ok|
    ensures var left := AfterSend(kept, todo, ok) + [x];
            AfterSend(kept, todo + [x], ok + [xOk]) == if xOk then left else RemoveFirst(left, x)
    decreases |todo|
  {
    assert (todo + [x])[1..] == if todo == [] then [] else todo[1..] + [x];
    assert (ok + [xOk])[1..] == if ok == [] then [] else ok[1..] + [xOk];
    if todo != [] {
      var kept1 := kept + [todo[0]];
      AfterSendSnoc(if ok[0] then kept1 else RemoveFirst(kept1, todo[0]), todo[1..], ok[1..], x, xOk);
    }
  }

  lemma OksSnoc(tries: seq<Try>, x: Try)
    ensures Oks(tries + [x]) == Oks(tries) + [x.ok]
  {
  }

  /** And in list order it is what one send with these outcomes leaves. */
  lemma {:induction false} KeptIsAfterSend(tries: seq<Try>)
    ensures Kept(tries) == AfterSend([], TriedSockets(tries), Oks(tries))
  {
    if tries != [] {
      var before, last := tries[..|tries| - 1], tries[|tries| - 1];
      assert tries == before + [last];
      KeptIsAfterSend(before);
      OneMoreSend(before, last);
    }
  }

  lemma OneMoreSend(tries: seq<Try>, x: Try)
    requires Kept(tries) == AfterSend([], TriedSockets(tries), Oks(tries))
    ensures Kept(tries + [x]) == AfterSend([], TriedSockets(tries + [x]), Oks(tries + [x]))
  {
    AfterSendSnoc([], TriedSockets(tries), Oks(tries), x.socket, x.ok);
    TriesSnoc(tries, x);
    OksSnoc(tries, x);
  }

  /** A walk at its end has tried all of its snapshot, and left what one send leaves. */
  lemma FinishedWalk(s: State, t: Thread)
    requires Inv(s) && PcOf(s, t).Walk? && PcOf(s, t).client == NULL
    ensures var sending := PcOf(s, t).sending;
            && TriedSockets(sending.tries) == sending.snapshot && |sending.snapshot| == |Oks(sending.tries)|
            && SocketsOf(s.heap, s.list) == AfterSend([], sending.snapshot, Oks(sending.tries))
            && multiset(SocketsOf(s.heap, s.list)) == multiset(Wins(sending.tries))
  {
    var sending := PcOf(s, t).sending;
    var socks := SocketsOf(s.heap, s.list);
    assert PcOk(s.heap, s.head, s.list, s.pcs[t]);
    assert sending.pos == |s.list|;
    assert socks[..sending.pos] == socks && socks[sending.pos..] == [];
    assert TriedSockets(sending.tries) + [] == TriedSockets(sending.tries);
    KeptAreWins(sending.tries);
    KeptIsAfterSend(sending.tries);
  }

  /** The snapshot a walk starts from is the list at that moment. */
  lemma SnapshotIsTheList(s: State, t: Thread)
    requires Inv(s) && Enabled(s, Acquire(t)) && PcOf(s, t).SendWait?
    ensures Next(s, Acquire(t)).pcs[t] == Walk(s.head, Sending(0, SocketsOf(s.heap, s.list), []))
  {
  }

  /** The walk a thread is in. */
  function WalkOf(pc: Pc): Option<Sending> {
    match pc
    case Walk(_, sending) => Some(sending)
    case Saved(_, _, sending) => Some(sending)
    case Scan(_, _, _, _, Resume(_, sending)) => Some(sending)
    case _ => None
  }

  /** The write a step of thread t is: to whom, and how it ends. */
  function WriteOf(s: State, t: Thread, step: Step): seq<Try>
    requires Enabled(s, step)
  {
    if step.Advance? && step.t == t && PcOf(s, t).Saved? then [Try(s.heap[PcOf(s, t).client].socket, step.ok)] else []
  }

  /** The writes thread t makes in a run, in order. */
  function WritesOf(s: State, t: Thread, steps: seq<Step>): seq<Try>
    requires Possible(s, steps)
    decreases |steps|
  {
    if steps == [] then [] else WriteOf(s, t, steps[0]) + WritesOf(Next(s, steps[0]), t, steps[1..])
  }

  /** A thread in a walk got there by taking the lock; it goes on with its snapshot and records what it writes. */
  lemma StepKeepsSnapshot(s: State, t: Thread, step: Step)
    requires Enabled(s, step) && step != Acquire(t) && WalkOf(PcOf(Next(s, step), t)).Some?
    ensures WalkOf(PcOf(s, t)).Some?
    ensures var before, after := WalkOf(PcOf(s, t)).value, WalkOf(PcOf(Next(s, step), t)).value;
            after.snapshot == before.snapshot && after.tries == before.tries + WriteOf(s, t, step)
  {
    if step.t != t {
      OthersKeepTheirPlace(s, t, step);
    }
  }

  lemma {:induction false} RunKeepsSnapshot(s: State, t: Thread, steps: seq<Step>)
    requires Possible(s, steps) && Acquire(t) !in steps && WalkOf(PcOf(Run(s, steps), t)).Some?
    ensures WalkOf(PcOf(s, t)).Some?
    ensures var before, after := WalkOf(PcOf(s, t)).value, WalkOf(PcOf(Run(s, steps), t)).value;
            after.snapshot == before.snapshot && after.tries == before.tries + WritesOf(s, t, steps)
    decreases |steps|
  {
    if steps != [] {
      assert steps[0] in steps;
      RunKeepsSnapshot(Next(s, steps[0]), t, steps[1..]);
      StepKeepsSnapshot(s, t, steps[0]);
      var tries := WalkOf(PcOf(s, t)).value.tries;
      var one, more := WriteOf(s, t, steps[0]), WritesOf(Next(s, steps[0]), t, steps[1..]);
      assert tries + one + more == tries + (one + more);
    }
  }

  /**
   * When a walk reaches its end its writes were exactly to the subscribers that were there when it took the lock,
   * each once and in list order, and those left in the list are those whose write succeeded: in every run that
   * takes the lock for t between `before` and `after`, whatever the other threads do in either.
   */
  lemma SendIsExact(before: seq<Step>, after: seq<Step>, t: Thread)
    requires Possible(EMPTY, before) && TakesTheLock(before)
    requires Enabled(Run(EMPTY, before), Acquire(t)) && PcOf(Run(EMPTY, before), t).SendWait?
    requires Possible(Next(Run(EMPTY, before), Acquire(t)), after) && TakesTheLock(after) && Acquire(t) !in after
    requires var r := Run(Next(Run(EMPTY, before), Acquire(t)), after);
             PcOf(r, t).Walk? && PcOf(r, t).client == NULL
    ensures var s := Run(EMPTY, before);
            var r := Run(Next(s, Acquire(t)), after);
            var tries := PcOf(r, t).sending.tries;
            && (forall i :: 0 <= i < |s.list| ==> s.list[i] in s.heap)
            && (forall i :: 0 <= i < |r.list| ==> r.list[i] in r.heap)
            && tries == WritesOf(Next(s, Acquire(t)), t, after)
            && TriedSockets(tries) == SocketsOf(s.heap, s.list)
            && SocketsOf(r.heap, r.list) == AfterSend([], SocketsOf(s.heap, s.list), Oks(tries))
            && multiset(SocketsOf(r.heap, r.list)) == multiset(Wins(tries))
  {
    RunKeepsInv(EMPTY, before);
    SendFrom(Run(EMPTY, before), after, t);
  }

  lemma SendFrom(s: State, after: seq<Step>, t: Thread)
    requires Inv(s) && Enabled(s, Acquire(t)) && PcOf(s, t).SendWait?
    requires Possible(Next(s, Acquire(t)), after) && TakesTheLock(after) && Acquire(t) !in after
    requires var r := Run(Next(s, Acquire(t)), after); PcOf(r, t).Walk? && PcOf(r, t).client == NULL
    ensures var r := Run(Next(s, Acquire(t)), after);
            var tries := PcOf(r, t).sending.tries;
            && Inv(r) == true
            && tries == WritesOf(Next(s, Acquire(t)), t, after)
            && TriedSockets(tries) == SocketsOf(s.heap, s.list)
            && SocketsOf(r.heap, r.list) == AfterSend([], SocketsOf(s.heap, s.list), Oks(tries))
            && multiset(SocketsOf(r.heap, r.list)) == multiset(Wins(tries))
  {
    SnapshotIsTheList(s, t);
    StepKeepsInv(s, Acquire(t));
    RunKeepsInv(Next(s, Acquire(t)), after);
    RunKeepsSnapshot(Next(s, Acquire(t)), t, after);
    assert [] + WritesOf(Next(s, Acquire(t)), t, after) == WritesOf(Next(s, Acquire(t)), t, after);
    FinishedWalk(Run(Next(s, Acquire(t)), after), t);
  }

  // ---- Every interleaving amounts to whole operations, one after the other in lock order

  datatype Op = Add(socket: int) | Remove(socket: int) | Send(ok: seq<bool>)

  /** The operations as single steps on the list of descriptors. */
  function DoOp(socks: seq<int>, op: Op): seq<int> {
    match op
    case Add(socket) => [socket] + socks
    case Remove(socket) => RemoveFirst(socks, socket)
    case Send(ok) => if |ok| == |socks| then AfterSend([], socks, ok) else socks
  }

  /** The operation that takes effect with this step of a thread inside its critical section, if one does. */
  function Effect(s: State, step: Step): Option<Op>
    requires Enabled(s, step)
  {
    if !step.Advance? then None else
      match PcOf(s, step.t)
      case AddLink(node) => if node in s.heap then Some(Add(s.heap[node].socket)) else None
      case Scan(socket, client, _, _, Unlock) =>
        if client == NULL || s.heap[client].socket == socket then Some(Remove(socket)) else None
      case Walk(client, sending) => if client == NULL then Some(Send(Oks(sending.tries))) else None
      case _ => None
  }

  function AfterEffect(socks: seq<int>, s: State, step: Step): seq<int>
    requires Enabled(s, step)
  {
    if Effect(s, step).Some? then DoOp(socks, Effect(s, step).value) else socks
  }

  /** The list after the operations of a run, done one at a time in the order in which they take effect. */
  function Atomically(socks: seq<int>, s: State, steps: seq<Step>): seq<int>
    requires Possible(s, steps)
    decreases |steps|
  {
    if steps == [] then socks else Atomically(AfterEffect(socks, s, steps[0]), Next(s, steps[0]), steps[1..])
  }

  /** The list stands for `socks`; while a walk is under way, for what it was when the walk took the lock. */
  ghost predicate StandsFor(s: State, socks: seq<int>) {
    && Inv(s)
    && (forall t :: t in s.pcs && WalkOf(s.pcs[t]).Some? ==> socks == WalkOf(s.pcs[t]).value.snapshot)
    && ((forall t :: t in s.pcs ==> WalkOf(s.pcs[t]).None?) ==> socks == SocketsOf(s.heap, s.list))
  }

  /** The step by which a removal outside a walk ends. */
  lemma RemovalTakesEffect(s: State, t: Thread, ok: bool)
    requires Inv(s) && Enabled(s, Advance(t, ok)) && PcOf(s, t).Scan? && PcOf(s, t).after.Unlock?
    requires Effect(s, Advance(t, ok)).Some?
    ensures var s' := Next(s, Advance(t, ok));
            && Chain(s'.heap, s'.head, s'.list)
            && SocketsOf(s'.heap, s'.list) == RemoveFirst(SocketsOf(s.heap, s.list), PcOf(s, t).socket)
  {
    var Scan(socket, client, prev, k, after) := s.pcs[t];
    var socks := SocketsOf(s.heap, s.list);
    assert PcOk(s.heap, s.head, s.list, s.pcs[t]);
    if k < |socks| {
      UnlinkKeepsChain(s, k);
      IndexUnique(socks, socket, k);
    }
  }

  /** The step that links a new node in. */
  lemma AdditionTakesEffect(s: State, t: Thread, ok: bool)
    requires Inv(s) && Enabled(s, Advance(t, ok)) && PcOf(s, t).AddLink?
    ensures var s' := Next(s, Advance(t, ok));
            var node := PcOf(s, t).node;
            && node in s.heap && Chain(s'.heap, s'.head, s'.list)
            && SocketsOf(s'.heap, s'.list) == [s.heap[node].socket] + SocketsOf(s.heap, s.list)
  {
    LinkKeepsChain(s.heap, s.head, s.list, s.pcs[t].node);
  }

  /** A step outside any walk that leaves the list of descriptors as it is. */
  lemma StandsAsBefore(s: State, s': State, t: Thread, pc': Pc, socks: seq<int>)
    requires StandsFor(s, socks) && Inv(s') && s'.pcs == s.pcs[t := pc']
    requires WalkOf(PcOf(s, t)).None? && WalkOf(pc').None?
    requires SocketsOf(s'.heap, s'.list) == SocketsOf(s.heap, s.list)
    ensures StandsFor(s', socks)
  {
    forall u | u in s'.pcs && WalkOf(s'.pcs[u]).Some? ensures socks == WalkOf(s'.pcs[u]).value.snapshot {
      assert u != t && s'.pcs[u] == s.pcs[u];
    }
    if forall u :: u in s'.pcs ==> WalkOf(s'.pcs[u]).None? {
      forall u | u in s.pcs ensures WalkOf(s.pcs[u]).None? {
        assert u != t ==> s'.pcs[u] == s.pcs[u];
      }
    }
  }

  /** A step by the one thread that can be in a walk. */
  lemma StandsAfter(s: State, s': State, t: Thread, pc': Pc, socks: seq<int>)
    requires Inv(s') && s'.pcs == s.pcs[t := pc']
    requires forall u :: u in s.pcs && u != t ==> WalkOf(s.pcs[u]).None?
    requires if WalkOf(pc').Some? then socks == WalkOf(pc').value.snapshot else socks == SocketsOf(s'.heap, s'.list)
    ensures StandsFor(s', socks)
  {
    assert s'.pcs[t] == pc';
    assert forall u :: u in s'.pcs && u != t ==> s'.pcs[u] == s.pcs[u];
  }

  lemma OthersDoNotWalk(s: State, t: Thread)
    requires Inv(s) && (s.lock.None? || (t in s.pcs && InCritical(s.pcs[t])))
    ensures forall u :: u in s.pcs && u != t ==> WalkOf(s.pcs[u]).None?
  {
    forall u | u in s.pcs && u != t ensures WalkOf(s.pcs[u]).None? {
      WalksAreCritical(s.pcs[u]);
    }
  }

  lemma WalksAreCritical(pc: Pc)
    ensures WalkOf(pc).Some? ==> InCritical(pc)
  {
  }

  lemma StartStands(s: State, step: Step, socks: seq<int>)
    requires StandsFor(s, socks) && Enabled(s, step) && (step.StartAdd? || step.StartRemove? || step.StartSend?)
    ensures StandsFor(Next(s, step), socks)
  {
    var s' := Next(s, step);
    StepKeepsInv(s, step);
    if step.StartAdd? {
      OutsideKeepsChain(s.heap, s.head, s.list, step.node, Node(step.socket, NULL));
    }
    StandsAsBefore(s, s', step.t, s'.pcs[step.t], socks);
  }

  lemma AcquireStands(s: State, t: Thread, socks: seq<int>)
    requires StandsFor(s, socks) && Enabled(s, Acquire(t))
    ensures StandsFor(Next(s, Acquire(t)), socks)
  {
    var s' := Next(s, Acquire(t));
    StepKeepsInv(s, Acquire(t));
    OthersDoNotWalk(s, t);
    assert forall u :: u in s.pcs ==> WalkOf(s.pcs[u]).None?;
    StandsAfter(s, s', t, s'.pcs[t], socks);
  }

  /** A walk that has not ended goes on with its snapshot, and the others see no effect. */
  lemma WalkGoesOn(s: State, t: Thread, ok: bool)
    requires Enabled(s, Advance(t, ok)) && WalkOf(PcOf(s, t)).Some?
    requires PcOf(s, t).Walk? ==> PcOf(s, t).client != NULL
    ensures t in s.pcs && Effect(s, Advance(t, ok)).None?
    ensures var pc' := PcOf(Next(s, Advance(t, ok)), t);
            && Next(s, Advance(t, ok)).pcs == s.pcs[t := pc']
            && WalkOf(pc').Some? && WalkOf(pc').value.snapshot == WalkOf(s.pcs[t]).value.snapshot
  {
  }

  lemma WalkEnds(s: State, t: Thread, ok: bool)
    requires Enabled(s, Advance(t, ok)) && PcOf(s, t).Walk? && PcOf(s, t).client == NULL
    ensures t in s.pcs && Effect(s, Advance(t, ok)) == Some(Send(Oks(PcOf(s, t).sending.tries)))
    ensures Next(s, Advance(t, ok)) == Goto(s, t, Release)
  {
  }

  lemma SendIsDone(socks: seq<int>, ok: seq<bool>, left: seq<int>)
    requires |ok| == |socks| && left == AfterSend([], socks, ok)
    ensures DoOp(socks, Send(ok)) == left
  {
  }

  /** Inside a walk the list it took the lock with stays what the others see. */
  lemma WalkingOnStands(s: State, t: Thread, ok: bool, socks: seq<int>)
    requires StandsFor(s, socks) && Enabled(s, Advance(t, ok)) && WalkOf(PcOf(s, t)).Some?
    requires PcOf(s, t).Walk? ==> PcOf(s, t).client != NULL
    ensures Effect(s, Advance(t, ok)).None? && StandsFor(Next(s, Advance(t, ok)), socks)
  {
    WalkGoesOn(s, t, ok);
    StepKeepsInv(s, Advance(t, ok));
    WalksAreCritical(s.pcs[t]);
    OthersDoNotWalk(s, t);
    StandsAfter(s, Next(s, Advance(t, ok)), t, PcOf(Next(s, Advance(t, ok)), t), socks);
  }

  lemma WalkEndStands(s: State, t: Thread, ok: bool, socks: seq<int>)
    requires StandsFor(s, socks) && Enabled(s, Advance(t, ok)) && PcOf(s, t).Walk? && PcOf(s, t).client == NULL
    ensures StandsFor(Next(s, Advance(t, ok)), SocketsOf(s.heap, s.list))
    ensures t in s.pcs && socks == s.pcs[t].sending.snapshot
  {
    WalkEnds(s, t, ok);
    StepKeepsInv(s, Advance(t, ok));
    OthersDoNotWalk(s, t);
    StandsAfter(s, Next(s, Advance(t, ok)), t, Release, SocketsOf(s.heap, s.list));
  }

  lemma WalkEndEffect(s: State, t: Thread, ok: bool, left: seq<int>)
    requires Enabled(s, Advance(t, ok)) && PcOf(s, t).Walk? && PcOf(s, t).client == NULL
    requires var sending := PcOf(s, t).sending;
             |sending.snapshot| == |Oks(sending.tries)| && left == AfterSend([], sending.snapshot, Oks(sending.tries))
    ensures left == AfterEffect(PcOf(s, t).sending.snapshot, s, Advance(t, ok))
  {
    WalkEnds(s, t, ok);
    SendIsDone(PcOf(s, t).sending.snapshot, Oks(PcOf(s, t).sending.tries), left);
  }

  lemma AdvanceStands(s: State, t: Thread, ok: bool, socks: seq<int>)
    requires StandsFor(s, socks) && Enabled(s, Advance(t, ok)) && WalkOf(PcOf(s, t)).None?
    ensures StandsFor(Next(s, Advance(t, ok)), AfterEffect(socks, s, Advance(t, ok))) == true
  {
    var s' := Next(s, Advance(t, ok));
    OthersDoNotWalk(s, t);
    assert forall u :: u in s.pcs ==> WalkOf(s.pcs[u]).None?;
    AdvanceTakesEffect(s, t, ok, socks);
    MovesOneThread(s, t, ok);
    StandsAfter(s, s', t, s'.pcs[t], AfterEffect(socks, s, Advance(t, ok)));
  }

  lemma MovesOneThread(s: State, t: Thread, ok: bool)
    requires Enabled(s, Advance(t, ok))
    ensures var s' := Next(s, Advance(t, ok)); t in s'.pcs && s'.pcs == s.pcs[t := s'.pcs[t]]
    ensures WalkOf(PcOf(s, t)).None? ==> WalkOf(Next(s, Advance(t, ok)).pcs[t]).None?
  {
  }

  lemma AdvanceTakesEffect(s: State, t: Thread, ok: bool, socks: seq<int>)
    requires Inv(s) && Enabled(s, Advance(t, ok)) && WalkOf(PcOf(s, t)).None? && socks == SocketsOf(s.heap, s.list)
    ensures var s' := Next(s, Advance(t, ok));
            Inv(s') == true && SocketsOf(s'.heap, s'.list) == AfterEffect(socks, s, Advance(t, ok))
  {
    StepKeepsInv(s, Advance(t, ok));
    if PcOf(s, t).AddLink? {
      AdditionTakesEffect(s, t, ok);
    } else if Effect(s, Advance(t, ok)).Some? {
      RemovalTakesEffect(s, t, ok);
    } else {
      AdvanceIsQuiet(s, t, ok);
    }
  }

  lemma AdvanceIsQuiet(s: State, t: Thread, ok: bool)
    requires Inv(s) && Enabled(s, Advance(t, ok)) && WalkOf(PcOf(s, t)).None? && Effect(s, Advance(t, ok)).None?
    requires !PcOf(s, t).AddLink?
    ensures var s' := Next(s, Advance(t, ok));
            Chain(s'.heap, s'.head, s'.list) && SocketsOf(s'.heap, s'.list) == SocketsOf(s.heap, s.list)
  {
    var pc := s.pcs[t];
    assert PcOk(s.heap, s.head, s.list, pc);
    if pc.AddHold? {
      OutsideKeepsChain(s.heap, s.head, s.list, pc.node, s.heap[pc.node].(next := s.head));
    }
  }

  lemma StepStands(s: State, step: Step, socks: seq<int>)
    requires StandsFor(s, socks) && Enabled(s, step) && !step.StartUnsubscribe?
    ensures StandsFor(Next(s, step), AfterEffect(socks, s, step))
  {
    match step
    case Acquire(t) => AcquireStands(s, t, socks);
    case Advance(t, ok) =>
      if WalkOf(PcOf(s, t)).None? {
        AdvanceStands(s, t, ok, socks);
      } else if PcOf(s, t).Walk? && PcOf(s, t).client == NULL {
        WalkEndStands(s, t, ok, socks);
        FinishedWalk(s, t);
        WalkEndEffect(s, t, ok, SocketsOf(s.heap, s.list));
      } else {
        WalkingOnStands(s, t, ok, socks);
      }
    case _ => StartStands(s, step, socks);
  }

  lemma {:induction false} RunStands(s: State, steps: seq<Step>, socks: seq<int>)
    requires StandsFor(s, socks) && Possible(s, steps) && TakesTheLock(steps)
    ensures StandsFor(Run(s, steps), Atomically(socks, s, steps))
    decreases |steps|
  {
    if steps != [] {
      assert !steps[0].StartUnsubscribe?;
      StepStands(s, steps[0], socks);
      RunStands(Next(s, steps[0]), steps[1..], AfterEffect(socks, s, steps[0]));
    }
  }

  /**
   * In every reachable state with the lock free the list is what the operations leave when each is one step, in
   * the order in which their threads held the lock: additions in front, removals of the first occurrence, sends.
   */
  lemma RunIsAtomic(steps: seq<Step>)
    requires Possible(EMPTY, steps) && TakesTheLock(steps) && Run(EMPTY, steps).lock.None?
    ensures var s := Run(EMPTY, steps);
            && (forall i :: 0 <= i < |s.list| ==> s.list[i] in s.heap)
            && SocketsOf(s.heap, s.list) == Atomically([], EMPTY, steps)
  {
    RunStands(EMPTY, steps, []);
    OthersDoNotWalk(Run(EMPTY, steps), 0);
    var s := Run(EMPTY, steps);
    forall u | u in s.pcs ensures WalkOf(s.pcs[u]).None? {
      OthersDoNotWalk(s, u + 1);
    }
  }

  // ---- Every operation takes effect as it was called, and nobody waits for ever

  datatype Call = Adds(socket: int) | Removes(socket: int) | Sends

  /** What a thread has been called to do and has not done yet. */
  function CallOf(s: State, t: Thread): Option<Call> {
    var pc := PcOf(s, t);
    if Pending(pc) != NULL then
      (if Pending(pc) in s.heap then Some(Adds(s.heap[Pending(pc)].socket)) else None)
    else
      match pc
      case RemoveWait(socket) => Some(Removes(socket))
      case Scan(socket, _, _, _, Unlock) => Some(Removes(socket))
      case SendWait => Some(Sends)
      case _ => if WalkOf(pc).Some? then Some(Sends) else None
  }

  predicate Matches(call: Call, op: Op) {
    match op
    case Add(socket) => call == Adds(socket)
    case Remove(socket) => call == Removes(socket)
    case Send(_) => call == Sends
  }

  /** A call begins with what it was called with. */
  lemma CallsBegin(s: State, t: Thread, node: Addr, socket: int)
    requires PcOf(s, t).Idle?
    ensures Enabled(s, StartRemove(t, socket)) && CallOf(Next(s, StartRemove(t, socket)), t) == Some(Removes(socket))
    ensures Enabled(s, StartSend(t)) && CallOf(Next(s, StartSend(t)), t) == Some(Sends)
    ensures node != NULL && node !in s.heap ==>
              Enabled(s, StartAdd(t, node, socket))
              && CallOf(Next(s, StartAdd(t, node, socket)), t) == Some(Adds(socket))
  {
  }

  /** A step keeps the call, or is the effect it is about, and then only unlocking is left. */
  predicate Serves(s: State, t: Thread, step: Step, call: Call)
    requires Enabled(s, step)
  {
    if Effect(s, step).Some? then Matches(call, Effect(s, step).value) && PcOf(Next(s, step), t).Release?
    else CallOf(Next(s, step), t) == Some(call)
  }

  lemma AddingServes(s: State, t: Thread, step: Step)
    requires Inv(s) && Enabled(s, step) && step.t == t && Pending(PcOf(s, t)) != NULL
    ensures CallOf(s, t).Some? && Serves(s, t, step, CallOf(s, t).value)
  {
    assert Pending(s.pcs[t]) in s.heap;
  }

  lemma RemovingServes(s: State, t: Thread, step: Step, socket: int)
    requires Inv(s) && Enabled(s, step) && step.t == t
    requires PcOf(s, t) == RemoveWait(socket) || (PcOf(s, t).Scan? && CallOf(s, t) == Some(Removes(socket)))
    ensures Serves(s, t, step, Removes(socket))
  {
  }

  lemma SendingServes(s: State, t: Thread, step: Step)
    requires Enabled(s, step) && step.t == t && (PcOf(s, t).SendWait? || WalkOf(PcOf(s, t)).Some?)
    ensures Serves(s, t, step, Sends)
  {
  }

  lemma OwnStepKeepsCall(s: State, t: Thread, step: Step)
    requires Inv(s) && Enabled(s, step) && !step.StartUnsubscribe? && step.t == t && CallOf(s, t).Some?
    ensures Serves(s, t, step, CallOf(s, t).value)
  {
    match CallOf(s, t).value
    case Adds(_) => AddingServes(s, t, step);
    case Removes(socket) => RemovingServes(s, t, step, socket);
    case Sends => SendingServes(s, t, step);
  }

  lemma OthersKeepCall(s: State, t: Thread, step: Step)
    requires Inv(s) && Enabled(s, step) && !step.StartUnsubscribe? && step.t != t && CallOf(s, t).Some?
    ensures CallOf(Next(s, step), t) == CallOf(s, t)
  {
    OthersKeepTheirPlace(s, t, step);
    var node := Pending(PcOf(s, t));
    if node != NULL {
      OthersKeepNode(s, t, step, node);
    }
  }

  /** A node that is not linked yet is its own thread's alone. */
  lemma OthersKeepNode(s: State, t: Thread, step: Step, node: Addr)
    requires Inv(s) && Enabled(s, step) && !step.StartUnsubscribe? && step.t != t
    requires t in s.pcs && node == Pending(s.pcs[t]) && node != NULL
    ensures node in s.heap && node in Next(s, step).heap && Next(s, step).heap[node].socket == s.heap[node].socket
  {
    if step.Advance? && PcOf(s, step.t).Scan? {
      ScanKeepsOutside(s, step, node);
    }
  }

  lemma ScanKeepsOutside(s: State, step: Step, node: Addr)
    requires Inv(s) && Enabled(s, step) && step.Advance? && PcOf(s, step.t).Scan? && node in s.heap && node !in s.list
    ensures node in Next(s, step).heap && Next(s, step).heap[node] == s.heap[node]
  {
    var Scan(socket, client, prev, k, after) := s.pcs[step.t];
    assert PcOk(s.heap, s.head, s.list, s.pcs[step.t]);
    assert client != NULL ==> client in s.list;
    assert prev != NULL ==> prev in s.list;
  }

  /** No step of the run is the effect thread t was called for. */
  predicate NotYet(s: State, t: Thread, steps: seq<Step>)
    requires Possible(s, steps)
    decreases |steps|
  {
    steps != [] ==> (steps[0].t == t ==> Effect(s, steps[0]).None?) && NotYet(Next(s, steps[0]), t, steps[1..])
  }

  lemma {:induction false} CallIsKept(s: State, t: Thread, steps: seq<Step>)
    requires Inv(s) && Possible(s, steps) && TakesTheLock(steps) && CallOf(s, t).Some? && NotYet(s, t, steps)
    ensures CallOf(Run(s, steps), t) == CallOf(s, t)
    decreases |steps|
  {
    if steps != [] {
      assert !steps[0].StartUnsubscribe?;
      if steps[0].t == t {
        OwnStepKeepsCall(s, t, steps[0]);
      } else {
        OthersKeepCall(s, t, steps[0]);
      }
      StepKeepsInv(s, steps[0]);
      CallIsKept(Next(s, steps[0]), t, steps[1..]);
    }
  }

  /**
   * The next effect a thread has after it has been called is the effect it was called for: an addition or removal
   * of the descriptor it was given, or a send; whatever the others do meanwhile. After it only unlocking is left.
   */
  lemma CallTakesEffect(s: State, t: Thread, steps: seq<Step>, last: Step)
    requires Inv(s) && Possible(s, steps) && TakesTheLock(steps) && CallOf(s, t).Some? && NotYet(s, t, steps)
    requires Enabled(Run(s, steps), last) && last.t == t && Effect(Run(s, steps), last).Some?
    ensures Matches(CallOf(s, t).value, Effect(Run(s, steps), last).value)
    ensures PcOf(Next(Run(s, steps), last), t).Release?
  {
    CallIsKept(s, t, steps);
    RunKeepsInv(s, steps);
    OwnStepKeepsCall(Run(s, steps), t, last);
  }

  // ---- Nothing leaks

  ghost predicate AwaitsLinking(s: State, n: Addr) {
    exists t :: t in s.pcs && Pending(s.pcs[t]) == n
  }

  /** Every node allocated and not freed is in the list, or on its way there. */
  ghost predicate Accounted(s: State) {
    forall n :: n in s.heap && n != NULL ==> n in s.list || AwaitsLinking(s, n)
  }

  lemma AccountedAfter(s: State, s': State, t: Thread)
    requires Accounted(s) && t in s'.pcs && s'.pcs == s.pcs[t := s'.pcs[t]]
    requires Pending(PcOf(s, t)) in [NULL, Pending(s'.pcs[t])] || Pending(PcOf(s, t)) in s'.list
    requires forall n :: n in s'.heap ==> n in s.heap || n == Pending(s'.pcs[t])
    requires forall n :: n in s.list ==> n in s'.list || n !in s'.heap
    ensures Accounted(s')
  {
    forall n | n in s'.heap && n != NULL && n !in s'.list ensures AwaitsLinking(s', n) {
      assert Pending(s'.pcs[t]) != n ==> n in s.heap && AwaitsLinking(s, n);
      if Pending(s'.pcs[t]) != n {
        var u :| u in s.pcs && Pending(s.pcs[u]) == n;
        assert u != t && Pending(s'.pcs[u]) == n;
      }
    }
  }

  lemma UnlinkingFrees(s: State, t: Thread, ok: bool)
    requires Inv(s) && Enabled(s, Advance(t, ok)) && PcOf(s, t).Scan?
    ensures var s' := Next(s, Advance(t, ok));
            && (forall n :: n in s'.heap ==> n in s.heap)
            && (forall n :: n in s.list ==> n in s'.list || n !in s'.heap)
            && Pending(PcOf(s, t)) == NULL
  {
    var pc := s.pcs[t];
    assert PcOk(s.heap, s.head, s.list, pc);
    if pc.client != NULL && s.heap[pc.client].socket == pc.socket {
      RemoveAtElements(s.list, pc.k);
      forall n | n in s.list && n != pc.client ensures n in RemoveAt(s.list, pc.k) {
        var i :| 0 <= i < |s.list| && s.list[i] == n;
        assert RemoveAt(s.list, pc.k)[if i < pc.k then i else i - 1] == n;
      }
    }
  }

  lemma StepAccounts(s: State, step: Step)
    requires Inv(s) && Enabled(s, step) && Accounted(s)
    ensures Accounted(Next(s, step)) == true
  {
    if step.Advance? {
      AdvanceAccounts(s, step.t, step.ok);
    } else {
      AccountedAfter(s, Next(s, step), step.t);
    }
  }

  lemma AdvanceAccounts(s: State, t: Thread, ok: bool)
    requires Inv(s) && Enabled(s, Advance(t, ok)) && Accounted(s)
    ensures Accounted(Next(s, Advance(t, ok))) == true
  {
    var s' := Next(s, Advance(t, ok));
    MovesOneThread(s, t, ok);
    if PcOf(s, t).Scan? {
      UnlinkingFrees(s, t, ok);
    } else {
      OthersStayAllocated(s, t, ok);
    }
    AccountedAfter(s, s', t);
  }

  lemma OthersStayAllocated(s: State, t: Thread, ok: bool)
    requires Inv(s) && Enabled(s, Advance(t, ok)) && !PcOf(s, t).Scan?
    ensures var s' := Next(s, Advance(t, ok));
            && (forall n :: n in s'.heap ==> n in s.heap) && (forall n :: n in s.list ==> n in s'.list)
            && t in s'.pcs
            && (Pending(PcOf(s, t)) in [NULL, Pending(s'.pcs[t])] || Pending(PcOf(s, t)) in s'.list)
  {
  }

  lemma {:induction false} RunAccounts(s: State, steps: seq<Step>)
    requires Inv(s) && Accounted(s) && Possible(s, steps) && TakesTheLock(steps)
    ensures Accounted(Run(s, steps)) == true
    decreases |steps|
  {
    if steps != [] {
      assert !steps[0].StartUnsubscribe?;
      StepKeepsInv(s, steps[0]);
      StepAccounts(s, steps[0]);
      RunAccounts(Next(s, steps[0]), steps[1..]);
    }
  }

  /** In every reachable state a node is allocated if and only if it is in the list or about to be linked in. */
  lemma NothingLeaks(steps: seq<Step>, n: Addr)
    requires Possible(EMPTY, steps) && TakesTheLock(steps) && n != NULL
    ensures var s := Run(EMPTY, steps); n in s.heap <==> n in s.list || AwaitsLinking(s, n)
  {
    RunKeepsInv(EMPTY, steps);
    RunAccounts(EMPTY, steps);
  }

  /** Whoever holds the lock is in the critical section. */
  ghost predicate LockIsHeld(s: State) {
    s.lock.Some? ==> s.lock.value in s.pcs && InCritical(s.pcs[s.lock.value])
  }

  lemma StepKeepsLockHeld(s: State, step: Step)
    requires Inv(s) && LockIsHeld(s) && Enabled(s, step) && !step.StartUnsubscribe?
    ensures LockIsHeld(Next(s, step))
  {
    if step.Advance? {
      assert step.t in s.pcs && PcOk(s.heap, s.head, s.list, s.pcs[step.t]);
    }
  }

  lemma {:induction false} RunKeepsLockHeld(s: State, steps: seq<Step>)
    requires Inv(s) && LockIsHeld(s) && Possible(s, steps) && TakesTheLock(steps)
    ensures LockIsHeld(Run(s, steps))
    decreases |steps|
  {
    if steps != [] {
      assert !steps[0].StartUnsubscribe?;
      StepKeepsLockHeld(s, steps[0]);
      StepKeepsInv(s, steps[0]);
      RunKeepsLockHeld(Next(s, steps[0]), steps[1..]);
    }
  }

  /** In every reachable state the holder of the lock can go on, and if there is none every waiting thread can. */
  lemma NobodyIsStuck(steps: seq<Step>, t: Thread, ok: bool)
    requires Possible(EMPTY, steps) && TakesTheLock(steps)
    ensures var s := Run(EMPTY, steps);
            && (s.lock == Some(t) ==> Enabled(s, Advance(t, ok)))
            && (s.lock == None && CallOf(s, t).Some? ==> Enabled(s, Acquire(t)))
  {
    var s := Run(EMPTY, steps);
    RunKeepsInv(EMPTY, steps);
    RunKeepsLockHeld(EMPTY, steps);
    InvIsSafe(s, t);
    if t in s.pcs {
      assert PcOk(s.heap, s.head, s.list, s.pcs[t]);
    }
  }

  /** How far a thread in its critical section is from unlocking: walks to go, then steps in this one. */
  function ToGo(s: State, t: Thread): (r: (nat, nat)) {
    var n := |s.list|;
    match PcOf(s, t)
    case AddHold(_) => (0, 2)
    case AddLink(_) => (0, 1)
    case Scan(_, _, _, k, Resume(_, sending)) =>
      (if sending.pos <= n then n - sending.pos + 1 else 0, if k <= n then n - k + 1 else 0)
    case Scan(_, _, _, k, _) => (0, if k <= n then n - k + 1 else 0)
    case Walk(_, sending) => (if sending.pos <= n then n - sending.pos + 1 else 0, n + 3)
    case Saved(_, _, sending) => (if sending.pos <= n then n - sending.pos + 1 else 0, n + 2)
    case _ => (0, 0)
  }

  /** Each of its steps, however its writes end, brings the holder of the lock closer to unlocking it. */
  lemma HolderComesCloser(s: State, t: Thread, ok: bool)
    requires Inv(s) && Enabled(s, Advance(t, ok)) && !PcOf(s, t).Release?
    ensures var a, b := ToGo(s, t), ToGo(Next(s, Advance(t, ok)), t);
            b.0 < a.0 || (b.0 == a.0 && b.1 < a.1)
    ensures var s' := Next(s, Advance(t, ok)); t in s'.pcs && InCritical(s'.pcs[t]) && s'.lock == s.lock
  {
    assert PcOk(s.heap, s.head, s.list, s.pcs[t]);
    if s.pcs[t].Scan? {
      ScanComesCloser(s, t, ok);
    }
  }

  lemma ScanComesCloser(s: State, t: Thread, ok: bool)
    requires Inv(s) && Enabled(s, Advance(t, ok)) && PcOf(s, t).Scan?
    ensures var a, b := ToGo(s, t), ToGo(Next(s, Advance(t, ok)), t);
            b.0 < a.0 || (b.0 == a.0 && b.1 < a.1)
    ensures var s' := Next(s, Advance(t, ok)); t in s'.pcs && InCritical(s'.pcs[t]) && s'.lock == s.lock
  {
    assert PcOk(s.heap, s.head, s.list, s.pcs[t]);
  }

  /** n such steps are possible, and after them the lock is free. */
  predicate UnlocksAfter(s: State, step: Step, n: nat) {
    Possible(s, Repeat(step, n)) && Run(s, Repeat(step, n)).lock == None
  }

  lemma OnceMore(s: State, step: Step, n: nat)
    requires Enabled(s, step) && UnlocksAfter(Next(s, step), step, n)
    ensures UnlocksAfter(s, step, n + 1)
  {
    assert Repeat(step, n + 1)[1..] == Repeat(step, n);
  }

  /** So left to itself it does unlock. */
  lemma {:induction false} HolderLetsGo(s: State, t: Thread, ok: bool, toGo: (nat, nat)) returns (n: nat)
    requires Inv(s) && t in s.pcs && InCritical(s.pcs[t]) && toGo == ToGo(s, t)
    ensures UnlocksAfter(s, Advance(t, ok), n) == true
    decreases toGo.0, toGo.1
  {
    HolderCan(s, t, ok);
    if s.pcs[t].Release? {
      ReleaseUnlocks(s, t, ok);
      OnceMore(s, Advance(t, ok), 0);
      n := 1;
    } else {
      HolderGoesOn(s, t, ok);
      var s' := Next(s, Advance(t, ok));
      var rest := HolderLetsGo(s', t, ok, ToGo(s', t));
      OnceMore(s, Advance(t, ok), rest);
      n := rest + 1;
    }
  }

  lemma HolderCan(s: State, t: Thread, ok: bool)
    requires Inv(s) && t in s.pcs && InCritical(s.pcs[t])
    ensures Enabled(s, Advance(t, ok))
  {
    IsSafe(s, s.pcs[t], t);
  }

  lemma HolderGoesOn(s: State, t: Thread, ok: bool)
    requires Inv(s) && Enabled(s, Advance(t, ok)) && !PcOf(s, t).Release?
    ensures var s' := Next(s, Advance(t, ok));
            && Inv(s') == true && t in s'.pcs && InCritical(s'.pcs[t]) == true
            && (ToGo(s', t).0 < ToGo(s, t).0 || (ToGo(s', t).0 == ToGo(s, t).0 && ToGo(s', t).1 < ToGo(s, t).1))
  {
    HolderComesCloser(s, t, ok);
    AdvanceKeepsInv(s, t, ok);
  }

  lemma ReleaseUnlocks(s: State, t: Thread, ok: bool)
    requires Enabled(s, Advance(t, ok)) && PcOf(s, t).Release?
    ensures UnlocksAfter(Next(s, Advance(t, ok)), Advance(t, ok), 0)
  {
  }

  function Repeat(step: Step, n: nat): seq<Step> {
    if n == 0 then [] else [step] + Repeat(step, n - 1)
  }

  // ---- The lock is needed around every removal

  lemma {:induction false} RunThenRun(s: State, a: seq<Step>, b: seq<Step>)
    requires Possible(s, a) && Possible(Run(s, a), b)
    ensures Possible(s, a + b) && Run(s, a + b) == Run(Run(s, a), b)
    decreases |a|
  {
    if a == [] {
      assert a + b == b;
    } else {
      assert (a + b)[0] == a[0] && (a + b)[1..] == a[1..] + b;
      RunThenRun(Next(s, a[0]), a[1..], b);
    }
  }

  lemma OneStep(s: State, step: Step)
    requires Enabled(s, step)
    ensures Possible(s, [step]) && Run(s, [step]) == Next(s, step)
  {
    assert [step][1..] == [];
  }

  /** A run extended by one step. */
  lemma AndThen(s: State, a: seq<Step>, step: Step)
    requires Possible(s, a) && Enabled(Run(s, a), step)
    ensures Possible(s, a + [step]) && Run(s, a + [step]) == Next(Run(s, a), step)
  {
    OneStep(Run(s, a), step);
    RunThenRun(s, a, [step]);
  }

  /** Thread t subscribes a socket from start to end. */
  function Adding(t: Thread, node: Addr, socket: int): seq<Step> {
    [StartAdd(t, node, socket)] + [Acquire(t)] + [Advance(t, true)] + [Advance(t, true)] + [Advance(t, true)]
  }

  lemma AddingTakesTheLock(s: State, t: Thread, node: Addr, socket: int)
    requires s.lock.None? && Enabled(s, StartAdd(t, node, socket))
    ensures var a := [StartAdd(t, node, socket)] + [Acquire(t)];
            && Possible(s, a)
            && Run(s, a) == Goto(s.(heap := s.heap[node := Node(socket, NULL)], lock := Some(t)), t, AddHold(node))
  {
    OneStep(s, StartAdd(t, node, socket));
    AndThen(s, [StartAdd(t, node, socket)], Acquire(t));
  }

  lemma AddingLinks(s: State, t: Thread, node: Addr, socket: int)
    requires s.lock.None? && Enabled(s, StartAdd(t, node, socket))
    ensures var a := [StartAdd(t, node, socket)] + [Acquire(t)] + [Advance(t, true)];
            && Possible(s, a)
            && Run(s, a) == Goto(s.(heap := s.heap[node := Node(socket, s.head)], lock := Some(t)), t, AddLink(node))
  {
    AddingTakesTheLock(s, t, node, socket);
    AndThen(s, [StartAdd(t, node, socket)] + [Acquire(t)], Advance(t, true));
  }

  lemma AddingAlone(s: State, t: Thread, node: Addr, socket: int)
    requires s.lock.None? && Enabled(s, StartAdd(t, node, socket))
    ensures Possible(s, Adding(t, node, socket))
    ensures Run(s, Adding(t, node, socket))
         == State(s.heap[node := Node(socket, s.head)], node, None, s.pcs[t := Idle], [node] + s.list)
  {
    var a := [StartAdd(t, node, socket)] + [Acquire(t)] + [Advance(t, true)];
    AddingLinks(s, t, node, socket);
    AndThen(s, a, Advance(t, true));
    AndThen(s, a + [Advance(t, true)], Advance(t, true));
  }

  // ---- Unsubscribing without the lock, line 254: exactly when it is unsafe

  /** Some run of the other operations, all under the lock, brings a thread to follow a freed node. */
  ghost predicate CanDangle(s: State) {
    exists steps, v :: TakesTheLock(steps) && Possible(s, steps) && !Safe(Run(s, steps), v)
  }

  /** Thread u stands in an unlocked removal that read an empty list; but for that the invariant holds. */
  ghost predicate Harmless(s: State, u: Thread, socket: int) {
    PcOf(s, u) == Scan(socket, NULL, NULL, 0, Nothing) && Inv(Goto(s, u, Idle))
  }

  lemma EmptyScanReturns(s: State, u: Thread, socket: int, step: Step)
    requires PcOf(s, u) == Scan(socket, NULL, NULL, 0, Nothing) && Enabled(s, step) && step.t == u
    ensures Next(s, step) == Goto(s, u, Idle)
  {
  }

  lemma OthersKeepHarmless(s: State, u: Thread, socket: int, step: Step)
    requires Harmless(s, u, socket) && Enabled(s, step) && !step.StartUnsubscribe? && step.t != u
    ensures Harmless(Next(s, step), u, socket)
  {
    OthersStep(s, u, Idle, step);
    OthersKeepTheirPlace(s, u, step);
    StepKeepsInv(Goto(s, u, Idle), step);
    assert Inv(Goto(Next(s, step), u, Idle)) == true;
  }

  lemma {:induction false} HarmlessIsSafe(s: State, u: Thread, socket: int, steps: seq<Step>, v: Thread)
    requires Harmless(s, u, socket) && TakesTheLock(steps) && Possible(s, steps)
    ensures Safe(Run(s, steps), v)
    decreases |steps|
  {
    if steps == [] {
      InvIsSafe(Goto(s, u, Idle), v);
    } else {
      assert !steps[0].StartUnsubscribe?;
      if steps[0].t == u {
        EmptyScanReturns(s, u, socket, steps[0]);
        RunKeepsInv(Next(s, steps[0]), steps[1..]);
        InvIsSafe(Run(s, steps), v);
      } else {
        OthersKeepHarmless(s, u, socket, steps[0]);
        HarmlessIsSafe(Next(s, steps[0]), u, socket, steps[1..], v);
      }
    }
  }

  /** A walk whose first write fails, while u has just read the head of the list. */
  function FailingWalk(t: Thread): seq<Step> {
    [StartSend(t)] + [Acquire(t)] + [Advance(t, true)] + [Advance(t, false)] + [Advance(t, true)]
  }

  /** The walk frees the node it failed on, which is the one u holds. */
  lemma ScanDangles(s: State, t: Thread, u: Thread, socket: int)
    requires s.lock.None? && t != u && PcOf(s, t).Idle? && PcOf(s, u) == Scan(socket, s.head, NULL, 0, Nothing)
    requires s.head != NULL && s.head in s.heap
    ensures Possible(s, FailingWalk(t)) && !Safe(Run(s, FailingWalk(t)), u)
  {
    var a := [StartSend(t)] + [Acquire(t)] + [Advance(t, true)];
    WalkBegins(s, t);
    AndThen(s, a, Advance(t, false));
    AndThen(s, a + [Advance(t, false)], Advance(t, true));
  }

  /**
   * Exactly when unsubscribing without the lock is unsafe: from a state at rest, whatever the descriptor,
   * some run of locked operations beside it follows a freed node if and only if the list is not empty.
   */
  lemma UnlockedUnsubscribeIsUnsafeIff(s: State, t: Thread, u: Thread, socket: int)
    requires Inv(s) && s.lock.None? && t != u && PcOf(s, t).Idle? && PcOf(s, u).Idle?
    ensures CanDangle(Next(s, StartUnsubscribe(u, socket))) <==> s.list != []
  {
    var s1 := Next(s, StartUnsubscribe(u, socket));
    if s.list == [] {
      BackToIdle(s, u, Scan(socket, NULL, NULL, 0, Nothing));
      forall steps, v | TakesTheLock(steps) && Possible(s1, steps) ensures Safe(Run(s1, steps), v) {
        HarmlessIsSafe(s1, u, socket, steps, v);
      }
    } else {
      ScanDangles(s1, t, u, socket);
      assert TakesTheLock(FailingWalk(t));
    }
  }

  /** Taking an idle thread elsewhere and back changes nothing that matters. */
  lemma BackToIdle(s: State, u: Thread, pc: Pc)
    requires Inv(s) && PcOf(s, u).Idle?
    ensures Inv(Goto(Goto(s, u, pc), u, Idle))
  {
    assert Goto(Goto(s, u, pc), u, Idle) == Goto(s, u, Idle);
    QuietStep(s, u, Goto(s, u, Idle), Idle);
  }

  // ---- The walk is the other victim

  /** A walk is at its first write while another thread unsubscribes the next socket without the lock, line 254. */
  function Race(t: Thread, u: Thread, socket: int): seq<Step> {
    [StartSend(t)] + [Acquire(t)] + [Advance(t, true)]
    + [StartUnsubscribe(u, socket)] + [Advance(u, true)] + [Advance(u, true)] + [Advance(t, true)]
  }

  lemma WalkBegins(s: State, t: Thread)
    requires s.lock.None? && PcOf(s, t).Idle? && s.head != NULL && s.head in s.heap
    ensures var a := [StartSend(t)] + [Acquire(t)] + [Advance(t, true)];
            && Possible(s, a)
            && Run(s, a) == Goto(s, t, Saved(s.head, s.heap[s.head].next, Sending(0, Listed(s), []))).(lock := Some(t))
  {
    OneStep(s, StartSend(t));
    AndThen(s, [StartSend(t)], Acquire(t));
    AndThen(s, [StartSend(t)] + [Acquire(t)], Advance(t, true));
  }

  /** The second node goes while the walk holds it. */
  lemma SecondIsFreed(s: State, a: seq<Step>, u: Thread, socket: int)
    requires Possible(s, a) && PcOf(Run(s, a), u).Idle?
    requires var r := Run(s, a);
             && r.head != NULL && r.head in r.heap && r.heap[r.head].socket != socket
             && r.heap[r.head].next !in {NULL, r.head} && r.heap[r.head].next in r.heap
             && r.heap[r.heap[r.head].next].socket == socket
    ensures var b := a + [StartUnsubscribe(u, socket)] + [Advance(u, true)] + [Advance(u, true)];
            && Possible(s, b)
            && Run(s, b).head == Run(s, a).head
            && Run(s, b).heap.Keys == Run(s, a).heap.Keys - {Run(s, a).heap[Run(s, a).head].next}
            && forall t :: t != u ==> PcOf(Run(s, b), t) == PcOf(Run(s, a), t)
  {
    AndThen(s, a, StartUnsubscribe(u, socket));
    AndThen(s, a + [StartUnsubscribe(u, socket)], Advance(u, true));
    AndThen(s, a + [StartUnsubscribe(u, socket)] + [Advance(u, true)], Advance(u, true));
  }

  /**
   * From every state at rest with two subscribers in front, a walk and one unlocked unsubscribe can leave
   * the walk about to follow a freed node.
   */
  lemma UnlockedUnsubscribeDangles(s: State, t: Thread, u: Thread, socket: int)
    requires s.lock.None? && t != u && PcOf(s, t).Idle? && PcOf(s, u).Idle?
    requires Chain(s.heap, s.head, s.list) && |s.list| >= 2
    requires s.heap[s.list[0]].socket != socket && s.heap[s.list[1]].socket == socket
    ensures Possible(s, Race(t, u, socket)) && !Safe(Run(s, Race(t, u, socket)), t)
  {
    var a := [StartSend(t)] + [Acquire(t)] + [Advance(t, true)];
    var b := a + [StartUnsubscribe(u, socket)] + [Advance(u, true)] + [Advance(u, true)];
    assert s.heap[s.list[0]].next == s.list[1];
    WalkBegins(s, t);
    SecondIsFreed(s, a, u, socket);
    WalkDangles(Run(s, b), t, s.list[0], s.list[1]);
    AndThen(s, b, Advance(t, true));
  }

  lemma WalkDangles(s: State, t: Thread, client: Addr, following: Addr)
    requires PcOf(s, t).Saved? && PcOf(s, t).client == client && PcOf(s, t).following == following
    requires client in s.heap && following !in s.heap && following != NULL
    ensures Enabled(s, Advance(t, true)) && !Safe(Next(s, Advance(t, true)), t)
  {
  }

  lemma TwoSubscribe(s: State, t: Thread, m: Addr, y: int, n: Addr, x: int)
    requires s.lock.None? && PcOf(s, t).Idle? && m != n && NULL !in {m, n} && m !in s.heap && n !in s.heap
    ensures var a := Adding(t, m, y) + Adding(t, n, x);
            && Possible(s, a)
            && Run(s, a) == State(s.heap[m := Node(y, s.head)][n := Node(x, m)], n, None,
                                  s.pcs[t := Idle][t := Idle], [n] + ([m] + s.list))
  {
    AddingAlone(s, t, m, y);
    AddingAlone(Run(s, Adding(t, m, y)), t, n, x);
    RunThenRun(s, Adding(t, m, y), Adding(t, n, x));
  }

  /** Such a state is reached by two plain subscriptions. */
  lemma DanglingIsReachable(t: Thread, u: Thread, m: Addr, y: int, n: Addr, x: int)
    requires t != u && m != n && NULL !in {m, n} && x != y
    ensures var steps := Adding(t, m, y) + Adding(t, n, x) + Race(t, u, y);
            Possible(EMPTY, steps) && !Safe(Run(EMPTY, steps), t)
  {
    var a := Adding(t, m, y) + Adding(t, n, x);
    TwoSubscribe(EMPTY, t, m, y, n, x);
    UnlockedUnsubscribeDangles(Run(EMPTY, a), t, u, y);
    RunThenRun(EMPTY, a, Race(t, u, y));
  }
}
