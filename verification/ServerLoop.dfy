/**
 * japi_start_server as it runs: lists relinked, carry buffers rewritten, sockets read and written. Writing
 * `P == true` for a predicate keeps the verifier from splitting P into its conjuncts where it need not.
 */
module ServerLoop {
  import opened Bytes
  import opened System
  import opened CReadLine
  import opened CReadLineLoop
  import opened RwN
  import opened Framing
  import opened ClientLists
  import opened Sockets
  import opened Sessions
  import opened Dispatch
  import Application
  import Server

  predicate Apart(c: Client, d: Client) {
    c.crl != d.crl && c.crl.buf != d.crl.buf
  }

  /** No two clients share a buffer. */
  ghost predicate Separate(nodes: seq<Client>) {
    forall i, j {:trigger Apart(nodes[i], nodes[j])} :: 0 <= i < j < |nodes| ==> Apart(nodes[i], nodes[j])
  }

  /** Each node's buffer holds its client's carry. */
  ghost predicate Carries(
    nodes: seq<Client>, socks: seq<int>, carry: map<int, seq<byte>>, crls: set<CarryBuffer>, bufs: set<array<byte>>)
    reads crls, bufs
  {
    && |socks| == |nodes|
    && forall i {:trigger nodes[i]} {:trigger socks[i]} :: 0 <= i < |nodes| ==>
         && nodes[i].crl in crls && nodes[i].crl.buf in bufs && nodes[i].crl.Valid()
         && socks[i] in carry && nodes[i].crl.Carry() == carry[socks[i]]
  }

  /** The list holds these descriptors, in this order, with these carries, each in buffers of its own. */
  ghost predicate Listed(
    list: ClientList, fds: seq<int>, carry: map<int, seq<byte>>, crls: set<CarryBuffer>, bufs: set<array<byte>>)
    reads list, list.nodes, crls, bufs
  {
    list.Valid() && list.socks == fds && Separate(list.nodes) && Carries(list.nodes, fds, carry, crls, bufs)
  }

  lemma SeparateWithout(nodes: seq<Client>, k: nat)
    requires Separate(nodes) && k < |nodes|
    ensures Separate(RemoveAt(nodes, k))
  {
    var l := RemoveAt(nodes, k);
    RemoveAtElements(nodes, k);
    forall i, j {:trigger Apart(l[i], l[j])} | 0 <= i < j < |l| ensures Apart(l[i], l[j]) {
      assert Apart(nodes[if i < k then i else i + 1], nodes[if j < k then j else j + 1]);
    }
  }

  lemma CarriesWithout(
    nodes: seq<Client>, socks: seq<int>, carry: map<int, seq<byte>>,
    crls: set<CarryBuffer>, bufs: set<array<byte>>, k: nat)
    requires Carries(nodes, socks, carry, crls, bufs) && Distinct(socks) && k < |nodes|
    ensures Carries(RemoveAt(nodes, k), RemoveAt(socks, k), carry - {socks[k]}, crls, bufs)
  {
    RemoveAtElements(nodes, k);
    RemoveAtElements(socks, k);
  }

  lemma CarriesWith(
    client: Client, fd: int, nodes: seq<Client>, socks: seq<int>, carry: map<int, seq<byte>>,
    crls: set<CarryBuffer>, bufs: set<array<byte>>)
    requires Carries(nodes, socks, carry, crls, bufs) && Separate(nodes) && fd !in socks
    requires client.crl !in crls && client.crl.buf !in bufs && client.crl.Valid() && client.crl.nbytes == 0
    ensures Carries([client] + nodes, [fd] + socks, carry[fd := []], crls + {client.crl}, bufs + {client.crl.buf})
    ensures Separate([client] + nodes)
  {
    var l := [client] + nodes;
    assert client.crl.Carry() == [];
    assert forall i {:trigger l[i]} :: 0 < i < |l| ==> l[i] == nodes[i - 1] && ([fd] + socks)[i] == socks[i - 1];
    forall i, j {:trigger Apart(l[i], l[j])} | 0 <= i < j < |l| ensures Apart(l[i], l[j]) {
      if i > 0 {
        assert Apart(nodes[i - 1], nodes[j - 1]);
      }
    }
  }

  /** The clients a walk has yet to visit are listed, each once. */
  ghost predicate Ahead<A>(w: Server.World<A>, todo: seq<int>) {
    Server.WellFormed(w) && Distinct(todo) && forall fd :: fd in todo ==> fd in w.clients
  }

  /** What is left of the walk once the next client has been visited. */
  lemma WalkStep<A>(lib: Sessions.Lib<A>, w: Server.World<A>, todo: seq<int>, ready: set<int>)
    requires Ahead(w, todo) && todo != []
    ensures var w' := if todo[0] in ready then Server.ServeClient(lib, w, todo[0]) else w;
            && Ahead(w', todo[1..])
            && Server.ServeAll(lib, w, todo, ready) == Server.ServeAll(lib, w', todo[1..], ready)
  {
    Server.ServeClientWellFormed(lib, w, todo[0]);
    assert forall fd :: fd in todo[1..] ==> fd in todo && fd != todo[0];
  }

  class Context {
    const kernel: Kernel
    const clients: ClientList
    const core: Application.Core  // ctx->requests and ctx->push_services
    var num: nat  // num_clients
    var cap: nat  // max_clients
    ghost var gone: seq<Server.Gone>
    ghost var crls: set<CarryBuffer>  // the clients' buffers,
    ghost var bufs: set<array<byte>>  // the arrays in them,
    ghost var owned: set<Client>      // and the nodes, removed ones included

    /** The lists of requests and services are well-formed and share no node with the clients. */
    ghost predicate CoreOk()
      reads this`owned, core, core.api, core.api.requests, core.api.requests.nodes
      reads core.api.services, core.api.services.chain, core.api.services.chain.services, core.lists, core.nodes
    {
      core.Valid() && clients !in core.lists && owned !! core.nodes
    }

    /** The state of the loop is the value w. */
    ghost predicate Represents(w: Server.World<App>)
      reads this, kernel, clients, clients.nodes, crls, bufs
      reads core, core.api, core.api.requests, core.api.requests.nodes
      reads core.api.services, core.api.services.chain, core.api.services.chain.services, core.lists, core.nodes
    {
      && kernel.conns == w.conns && core.app == w.app && num == w.num && cap == w.cap && gone == w.gone
      && Listed(clients, w.clients, w.carry, crls, bufs) && clients.Nodes() <= owned && CoreOk()
    }

    constructor (kernel: Kernel, core: Application.Core, cap: nat)
      requires cap < Server.UINT16 && kernel.conns == map[] && core.Valid()
      ensures this.kernel == kernel && this.core == core && fresh(clients)
      ensures crls == {} && bufs == {} && owned == {}
      ensures Represents(Server.Initial(cap, core.app)) && Server.WellFormed(Server.Initial(cap, core.app))
    {
      this.kernel, this.core := kernel, core;
      this.num, this.cap, gone, crls, bufs, owned := 0, cap, [], {}, {}, {};
      clients := new ClientList();
    }

    /** What has come into the footprint has been allocated since. */
    twostate predicate Grew()
      reads this, core
    {
      && core.Grew()
      && (forall c :: c in crls ==> c in old(crls) || fresh(c))
      && (forall b :: b in bufs ==> b in old(bufs) || fresh(b))
      && (forall n :: n in owned ==> n in old(owned) || fresh(n))
    }

    /** Lines 565-579: send the response, if there is one. */
    method SendReply(fd: int, reply: Option<Bytes.Text>) returns (ok: bool)
      requires fd in kernel.conns
      modifies kernel
      ensures var c := old(kernel.conns[fd]);
              && kernel.conns == old(kernel.conns)[fd := if reply.Some? then AfterWrite(c, Frame(reply.value)) else c]
              && ok == (reply.Some? ==> WriteAll(c.output, |Frame(reply.value)|).Ok())
    {
      ok := true;
      if reply.Some? {
        var response := AsNdStr(reply.value);
        var len := StrLen(response);
        assert response[..len] == Frame(reply.value);
        var ret := WriteN(kernel, fd, response, len);
        ok := ret > 0;
      }
    }

    /** Lines 554-589: process one line and send the response, if any. */
    method ServeOne(fd: int, line: seq<byte>) returns (ok: bool)
      requires fd in kernel.conns && CoreOk()
      modifies kernel, core`app, core`nodes, core.api.services, core.lists, core.nodes`next
      ensures CoreOk() == true && core.Grew()
      ensures var s := ServeLine(core.calls, old(core.app), fd, line, old(kernel.conns[fd]));
              core.app == s.app && ok == s.ok && kernel.conns == old(kernel.conns)[fd := s.conn]
    {
      ghost var conns := kernel.conns;
      ok := true;
      assert conns[fd := conns[fd]] == conns;
      if line != [] {
        var reply := core.Process(fd, line);
        assert CoreOk() == true;
        ok := Reply(fd, line, reply);
        assert CoreOk() == true;
      }
    }

    /** The exchange goes into the history, and the response to the client. */
    method Reply(fd: int, line: seq<byte>, reply: Option<Bytes.Text>) returns (ok: bool)
      requires fd in kernel.conns
      modifies kernel
      ensures var c := old(kernel.conns[fd]);
              var c' := c.(served := c.served + [Exchange(line, reply)]);
              && ok == (reply.Some? ==> WriteAll(c'.output, |Frame(reply.value)|).Ok())
              && kernel.conns == old(kernel.conns)[fd := if reply.Some? then AfterWrite(c', Frame(reply.value)) else c']
    {
      ghost var conns := kernel.conns;
      kernel.Record(fd, Exchange(line, reply));
      ghost var c := kernel.conns[fd];
      ok := SendReply(fd, reply);
      UpdateTwice(conns, fd, c, kernel.conns[fd]);
    }

    /** Lines 554-594, given what creadline_r returned. */
    method HandleLine(fd: int, ret: int, request: array?<byte>, ghost r: Call) returns (why: Option<Why>)
      requires fd in kernel.conns && kernel.conns[fd] == r.conn && Reports(ret, request, r.out) && CoreOk()
      modifies kernel, core`app, core`nodes, core.api.services, core.lists, core.nodes`next
      ensures CoreOk() == true && core.Grew()
      ensures var h := Handle(core.calls, old(core.app), fd, r);
              core.app == h.app && why == h.why && kernel.conns == old(kernel.conns)[fd := h.conn]
    {
      why := None;
      assert kernel.conns[fd := r.conn] == kernel.conns;
      if ret > 0 {
        var ok := ServeOne(fd, request[..ret]);
        why := if ok then None else Some(BadWrite);
      } else if ret == 0 {
        why := if request == null then Some(Disconnected) else None;
      } else {
        why := Some(BadRead);
      }
    }

    /** One turn of the loop body, lines 552-594. */
    method TakeTurn(client: Client) returns (why: Option<Why>)
      requires client.crl.Valid() && client.socket in kernel.conns && CoreOk()
      modifies kernel, client.crl, client.crl.buf
      modifies core`app, core`nodes, core.api.services, core.lists, core.nodes`next
      ensures client.crl.Valid() && CoreOk() == true && core.Grew()
      ensures var fd := client.socket;
              var t := Turn(core.calls, old(core.app), fd, old(kernel.conns[fd]), old(client.crl.Carry()));
              && core.app == t.app && why == t.why && client.crl.Carry() == t.carry
              && kernel.conns == old(kernel.conns)[fd := t.conn]
    {
      ghost var conns := kernel.conns;
      ghost var r := ReadLine(client.crl.Carry(), conns[client.socket]);
      var ret, request, looked := ReadLineR(kernel, client.socket, client.crl);
      assert CoreOk() == true;
      why := HandleLine(client.socket, ret, request, r);
      assert client.crl.Valid() && client.crl.Carry() == r.carry;
      UpdateTwice(conns, client.socket, r.conn, kernel.conns[client.socket]);
    }

    /** The do-while of lines 550-596 for one client. */
    method DrainClient(client: Client) returns (why: Option<Why>)
      requires client.crl.Valid() && client.socket in kernel.conns && CoreOk()
      modifies kernel, client.crl, client.crl.buf
      modifies core`app, core`nodes, core.api.services, core.lists, core.nodes`next
      ensures client.crl.Valid() && CoreOk() == true && core.Grew()
      ensures var fd := client.socket;
              var d := Drain(core.calls, old(core.app), fd, old(kernel.conns[fd]), old(client.crl.Carry()));
              && core.app == d.app && why == d.why && client.crl.Carry() == d.carry
              && kernel.conns == old(kernel.conns)[fd := d.conn]
    {
      ghost var fd := client.socket;
      ghost var conns := kernel.conns;
      ghost var c := conns[fd];
      ghost var d := Drain(core.calls, core.app, fd, c, client.crl.Carry());
      assert conns[fd := c] == conns;
      why := None;
      var again := true;
      while again
        invariant client.crl.Valid() && kernel.conns == conns[fd := c]
        invariant CoreOk() == true && core.Grew()
        invariant d == if again then Drain(core.calls, core.app, fd, c, client.crl.Carry())
                       else Drained(core.app, c, client.crl.Carry(), why)
        decreases again, |client.crl.Carry()| + |Arriving(c.input)|
      {
        ghost var t := Turn(core.calls, core.app, fd, c, client.crl.Carry());
        why := TakeTurn(client);
        UpdateTwice(conns, fd, c, t.conn);
        c := t.conn;
        again := why == None && client.crl.nbytes != 0;
      }
    }

    /** The list part of japi_remove_client. */
    method Unlist(fd: int, ghost fds: seq<int>, ghost carry: map<int, seq<byte>>) returns (ret: int)
      requires Listed(clients, fds, carry, crls, bufs) && Distinct(fds) && fd in fds
      requires clients.Nodes() <= owned && CoreOk()
      modifies clients, clients.Nodes()`next
      ensures Listed(clients, RemoveFirst(fds, fd), carry - {fd}, crls, bufs) == true && ret == 0 && CoreOk() == true
      ensures clients.nodes == RemoveAt(old(clients.nodes), Index(fds, fd))
      ensures clients.Nodes() <= old(clients.Nodes())
      ensures clients.freed + clients.Nodes() == old(clients.freed + clients.Nodes())
    {
      ghost var k := Index(fds, fd);
      SeparateWithout(clients.nodes, k);
      CarriesWithout(clients.nodes, fds, carry, crls, bufs, k);
      ret := clients.Remove(fd);
      assert Carries(clients.nodes, RemoveAt(fds, k), carry - {fd}, crls, bufs) == true;
      assert core.Valid() == true;
    }

    /** Line 417: the push services forget the client, and the list of clients stays as it is. */
    method DropClient(fd: int, ghost fds: seq<int>, ghost carry: map<int, seq<byte>>)
      requires Listed(clients, fds, carry, crls, bufs) && clients.Nodes() <= owned && CoreOk()
      modifies core`app, core.api.services, core.lists, core.nodes`next
      ensures Listed(clients, fds, carry, crls, bufs) == true && CoreOk() == true
      ensures core.app == (core.calls.drop)(old(core.app), fd)
    {
      assert forall n :: n in clients.nodes ==> n in clients.Nodes() && n !in core.nodes;
      core.Drop(fd);
      assert Listed(clients, fds, carry, crls, bufs) == true;
    }

    /** The client leaves the push services and the list. */
    method ForgetClient(fd: int, ghost fds: seq<int>, ghost carry: map<int, seq<byte>>) returns (ret: int)
      requires Listed(clients, fds, carry, crls, bufs) && Distinct(fds) && fd in fds
      requires clients.Nodes() <= owned && CoreOk()
      modifies clients, clients.Nodes()`next, core`app, core.api.services, core.lists, core.nodes`next
      ensures Listed(clients, RemoveFirst(fds, fd), carry - {fd}, crls, bufs) == true && ret == 0
      ensures clients.nodes == RemoveAt(old(clients.nodes), Index(fds, fd))
      ensures clients.Nodes() <= old(clients.Nodes())
      ensures clients.freed + clients.Nodes() == old(clients.freed + clients.Nodes())
      ensures core.app == (core.calls.drop)(old(core.app), fd) && CoreOk() == true
    {
      DropClient(fd, fds, carry);
      ret := Unlist(fd, fds, carry);
    }

    /** Lines 427-429, which complete the removal: closed and counted off. */
    method CloseClient(fd: int, why: Why, ghost w: Server.World<App>, ghost r: Server.World<App>)
      requires fd in w.conns && r == Server.Remove(core.calls, w, fd, why)
      requires Listed(clients, r.clients, r.carry, crls, bufs) && clients.Nodes() <= owned
      requires core.app == r.app && CoreOk()
      requires kernel.conns == w.conns && num == w.num && cap == w.cap && gone == w.gone
      modifies this`gone, this`num, kernel
      ensures Represents(r) == true
    {
      gone := gone + [Server.Gone(fd, w.conns[fd], why)];
      kernel.Close(fd);
      num := (num + Server.UINT16 - 1) % Server.UINT16;
      assert Listed(clients, r.clients, r.carry, crls, bufs) == true;
      assert CoreOk() == true;
      assert Represents(r) == true;
    }

    /** japi_remove_client of a listed client. */
    method RemoveClient(fd: int, why: Why, ghost w: Server.World<App>) returns (ret: int)
      requires Represents(w) && Distinct(w.clients) && fd in w.clients && fd in w.conns
      modifies core`app, core`nodes, core.api.services, core.lists, core.nodes`next
      modifies this`gone, this`num, kernel, clients, clients.Nodes()`next
      ensures Represents(Server.Remove(core.calls, w, fd, why)) && ret == 0 && core.Grew()
      ensures clients.nodes == RemoveAt(old(clients.nodes), Index(w.clients, fd))
      ensures clients.Nodes() <= old(clients.Nodes())
      ensures clients.freed + clients.Nodes() == old(clients.freed + clients.Nodes())
    {
      ghost var r := Server.Remove(core.calls, w, fd, why);
      ret := ForgetClient(fd, w.clients, w.carry);
      CloseClient(fd, why, w, r);
    }

    /** japi_remove_client of any other descriptor: the push services forget it, and the list stays. */
    method RemoveAbsent(fd: int, ghost w: Server.World<App>) returns (ret: int)
      requires Represents(w) && fd !in w.clients
      modifies core`app, core`nodes, core.api.services, core.lists, core.nodes`next, clients, clients.Nodes()`next
      ensures Represents(w.(app := (core.calls.drop)(w.app, fd))) && ret == -1 && clients.nodes == old(clients.nodes)
      ensures core.Grew()
    {
      DropClient(fd, w.clients, w.carry);
      ret := clients.Remove(fd);
      assert core.Valid() == true;
      assert Carries(clients.nodes, w.clients, w.carry, crls, bufs) == true;
    }

    /** The drain loop on the p-th client: its carry changes, and nobody else's. */
    method DrainParts(client: Client, ghost fds: seq<int>, ghost carry: map<int, seq<byte>>, ghost p: nat)
      returns (why: Option<Why>)
      requires Listed(clients, fds, carry, crls, bufs) && Distinct(fds)
      requires p < |fds| && client == clients.nodes[p] && fds[p] in kernel.conns && fds[p] in carry
      requires |carry[fds[p]]| < BLOCK && clients.Nodes() <= owned && CoreOk()
      modifies kernel, client.crl, client.crl.buf
      modifies core`app, core`nodes, core.api.services, core.lists, core.nodes`next
      ensures var d := Drain(core.calls, old(core.app), fds[p], old(kernel.conns)[fds[p]], carry[fds[p]]);
              && Listed(clients, fds, carry[fds[p] := d.carry], crls, bufs)
              && core.app == d.app && why == d.why && kernel.conns == old(kernel.conns)[fds[p] := d.conn]
      ensures CoreOk() == true && core.Grew()
    {
      ghost var nodes := clients.nodes;
      ghost var d := Drain(core.calls, core.app, fds[p], kernel.conns[fds[p]], carry[fds[p]]);
      why := DrainClient(client);
      assert clients.Valid() == true;
      forall i {:trigger nodes[i]} | 0 <= i < |nodes| && i != p
        ensures nodes[i].crl.Valid() && nodes[i].crl.Carry() == carry[fds[i]] && fds[i] != fds[p]
      {
        assert if i < p then Apart(nodes[i], nodes[p]) else Apart(nodes[p], nodes[i]);
      }
      assert Carries(nodes, fds, carry[fds[p] := d.carry], crls, bufs);
    }

    /** The body of the walk for one ready client, lines 550-596. */
    method ServeClient(client: Client, ghost w: Server.World<App>, ghost p: nat)
      requires Represents(w) && Server.WellFormed(w) && p < |w.clients| && client == clients.nodes[p]
      modifies core`app, core`nodes, core.api.services, core.lists, core.nodes`next
      modifies this`gone, this`num, kernel, clients, clients.Nodes()`next, client.crl, client.crl.buf
      ensures Represents(Server.ServeClient(core.calls, w, w.clients[p])) && core.Grew()
      ensures clients.nodes
           == if w.clients[p] in kernel.conns then old(clients.nodes) else RemoveAt(old(clients.nodes), p)
      ensures clients.Nodes() <= old(clients.Nodes())
    {
      ghost var fd := w.clients[p];
      ghost var d := Drain(core.calls, w.app, fd, w.conns[fd], w.carry[fd]);
      ghost var w' := Server.Updated(w, fd, d);
      var why := DrainParts(client, w.clients, w.carry, p);
      assert Listed(clients, w'.clients, w'.carry, crls, bufs) == true;
      if why.Some? {
        IndexUnique(w.clients, fd, p);
        var _ := RemoveClient(client.socket, why.value, w');
      }
    }

    /** One visit of the walk: what lies ahead of the current client is the same afterwards. */
    method Visit(client: Client, ready: set<int>, ghost w: Server.World<App>, ghost p: nat)
      returns (following: Client?, ghost w': Server.World<App>, ghost p': nat)
      requires Represents(w) && Server.WellFormed(w) && p < |w.clients| && client == clients.nodes[p]
      modifies core`app, core`nodes, core.api.services, core.lists, core.nodes`next
      modifies this`gone, this`num, kernel, clients, clients.Nodes()`next, client.crl, client.crl.buf
      ensures w' == if w.clients[p] in ready then Server.ServeClient(core.calls, w, w.clients[p]) else w
      ensures Represents(w') && clients.Nodes() <= old(clients.Nodes()) && core.Grew()
      ensures p' <= |w'.clients| && w'.clients[p'..] == w.clients[p + 1..]
      ensures following == At(clients.nodes, p')
    {
      assert client !in clients.freed && client.socket == w.clients[p];
      following := client.next;
      w', p' := w, p + 1;
      if client.socket in ready {
        w' := Server.ServeClient(core.calls, w, w.clients[p]);
        ServeClient(client, w, p);
        IndexUnique(w.clients, w.clients[p], p);
        if w.clients[p] !in kernel.conns {
          p' := p;
        }
      }
    }

    /** The walk of lines 537-599. A client removed on the way is never looked at again. */
    method Walk(ready: set<int>, ghost w: Server.World<App>)
      requires Represents(w) && Server.WellFormed(w)
      modifies core`app, core`nodes, core.api.services, core.lists, core.nodes`next
      modifies this`gone, this`num, kernel, clients, clients.Nodes()`next, crls, bufs
      ensures Represents(Server.ServeAll(core.calls, w, w.clients, ready)) && core.Grew()
      ensures clients.Nodes() <= old(clients.Nodes())
    {
      ghost var goal := Server.ServeAll(core.calls, w, w.clients, ready);
      ghost var v, todo, p: nat := w, w.clients, 0;
      var client := clients.head;
      while client != null
        invariant Represents(v) == true && Ahead(v, todo) == true && core.Grew()
        invariant p <= |v.clients| && todo == v.clients[p..] && client == At(clients.nodes, p)
        invariant goal == Server.ServeAll(core.calls, v, todo, ready)
        invariant clients.Nodes() <= old(clients.Nodes())
        decreases |todo|
      {
        WalkStep(core.calls, v, todo, ready);
        client, v, p := Visit(client, ready, v, p);
        todo := todo[1..];
      }
      assert goal == v;
    }

    /** Lines 376-393: a new node in front, its carry reset. */
    method Link(fd: int, ghost fds: seq<int>, ghost carry: map<int, seq<byte>>) returns (client: Client)
      requires Listed(clients, fds, carry, crls, bufs) && fd !in fds && CoreOk()
      modifies clients
      ensures fresh(client) && fresh(client.crl) && fresh(client.crl.buf) && CoreOk() == true
      ensures Listed(clients, [fd] + fds, carry[fd := []], crls + {client.crl}, bufs + {client.crl.buf}) == true
      ensures clients.Nodes() == old(clients.Nodes()) + {client}
    {
      ghost var nodes := clients.nodes;
      client := clients.Add(fd);
      assert Carries(nodes, fds, carry, crls, bufs) == true;
      CarriesWith(client, fd, nodes, fds, carry, crls, bufs);
      assert core.Valid() == true;
    }

    /** The new node joins the list and the footprint. */
    method Enlist(fd: int, ghost fds: seq<int>, ghost carry: map<int, seq<byte>>)
      requires Listed(clients, fds, carry, crls, bufs) && fd !in fds && clients.Nodes() <= owned && CoreOk()
      modifies clients, this`crls, this`bufs, this`owned
      ensures Listed(clients, [fd] + fds, carry[fd := []], crls, bufs) == true && clients.Nodes() <= owned
      ensures CoreOk() == true && Grew() == true
    {
      var client := Link(fd, fds, carry);
      Own(client, [fd] + fds, carry[fd := []]);
    }

    /** japi_add_client */
    method AddClient(fd: int, ghost fds: seq<int>, ghost carry: map<int, seq<byte>>)
      requires Listed(clients, fds, carry, crls, bufs) && fd !in fds && clients.Nodes() <= owned && CoreOk()
      modifies clients, this`num, this`crls, this`bufs, this`owned
      ensures Listed(clients, [fd] + fds, carry[fd := []], crls, bufs) == true && clients.Nodes() <= owned
      ensures CoreOk() == true && num == (old(num) + 1) % Server.UINT16 && Grew() == true
    {
      Enlist(fd, fds, carry);
      num := (num + 1) % Server.UINT16;
    }

    /** History: the new client's parts join the footprint. */
    ghost method Own(client: Client, fds: seq<int>, carry: map<int, seq<byte>>)
      requires CoreOk() && client !in core.nodes
      requires Listed(clients, fds, carry, crls + {client.crl}, bufs + {client.crl.buf})
      modifies this`crls, this`bufs, this`owned
      ensures crls == old(crls) + {client.crl} && bufs == old(bufs) + {client.crl.buf}
      ensures owned == old(owned) + {client}
      ensures CoreOk() == true && Listed(clients, fds, carry, crls, bufs) == true
    {
      crls, bufs, owned := crls + {client.crl}, bufs + {client.crl.buf}, owned + {client};
      assert core.Valid() == true;
    }

    /** accept() or close(): the connections change, and nothing else. */
    method Connect(fd: int, c: Option<Conn>, ghost w: Server.World<App>, ghost w': Server.World<App>)
      requires Represents(w)
      requires w' == w.(conns := if c.Some? then w.conns[fd := c.value] else w.conns - {fd})
      modifies kernel
      ensures Represents(w') == true
    {
      if c.Some? {
        kernel.Accept(fd, c.value);
      } else {
        kernel.Close(fd);
      }
      assert Listed(clients, w.clients, w.carry, crls, bufs) == true;
      assert CoreOk() == true;
    }

    /** Lines 605-615: a newcomer is added if the limit allows it, else closed at once. */
    method AcceptClient(fd: int, c: Conn, ghost w: Server.World<App>)
      requires Represents(w) && fd !in w.conns && fd !in w.clients
      modifies kernel, clients, this`num, this`crls, this`bufs, this`owned
      ensures Represents(Server.Admit(w, fd, c)) == true
      ensures Grew()
    {
      ghost var w1 := w.(conns := w.conns[fd := c]);
      Connect(fd, Some(c), w, w1);
      if cap == 0 || num < cap {
        AddClient(fd, w.clients, w.carry);
        assert Represents(Server.Add(w, fd, c)) == true;
      } else {
        assert w.conns == w1.conns - {fd};
        Connect(fd, None, w1, w);
      }
    }

    /** japi_remove_all_clients: each client is visited as the head of the list, and none is left. */
    method RemoveAllClients(ghost w: Server.World<App>) returns (ret: int)
      requires Represents(w) && Server.WellFormed(w)
      modifies core`app, core`nodes, core.api.services, core.lists, core.nodes`next
      modifies this`gone, this`num, kernel, clients, clients.Nodes()`next
      ensures Represents(Server.RemoveAll(core.calls, w, w.clients)) && ret == 0 && core.Grew()
      ensures clients.nodes == [] && clients.freed == old(clients.freed) + old(clients.Nodes())
    {
      ghost var goal := Server.RemoveAll(core.calls, w, w.clients);
      ghost var v := w;
      var client := clients.head;
      while client != null
        invariant Represents(v) == true && Server.WellFormed(v) == true && core.Grew() && client == At(clients.nodes, 0)
        invariant goal == Server.RemoveAll(core.calls, v, v.clients)
        invariant clients.Nodes() <= old(clients.Nodes())
        invariant clients.freed + clients.Nodes() == old(clients.freed + clients.Nodes())
        decreases |v.clients|
      {
        Server.RemoveWellFormed(core.calls, v, v.clients[0], Shutdown);
        ret, client, v := RemoveHead(client, v);
        if ret != 0 {
          return -1;
        }
      }
      ret := 0;
    }

    /** One turn of the loop at lines 471-477: the client visited is the head, so the rest is the new list. */
    method RemoveHead(client: Client, ghost w: Server.World<App>)
      returns (ret: int, following: Client?, ghost w': Server.World<App>)
      requires Represents(w) && Server.WellFormed(w) && clients.nodes != [] && client == clients.nodes[0]
      modifies core`app, core`nodes, core.api.services, core.lists, core.nodes`next
      modifies this`gone, this`num, kernel, clients, clients.Nodes()`next
      ensures ret == 0 && w' == Server.Remove(core.calls, w, w.clients[0], Shutdown) && w'.clients == w.clients[1..]
      ensures Represents(w') && following == At(clients.nodes, 0) && core.Grew()
      ensures clients.Nodes() <= old(clients.Nodes())
      ensures clients.freed + clients.Nodes() == old(clients.freed + clients.Nodes())
    {
      following := client.next;
      IndexUnique(w.clients, w.clients[0], 0);
      w' := Server.Remove(core.calls, w, w.clients[0], Shutdown);
      ret := RemoveClient(client.socket, Shutdown, w);
    }

    /** One round of the while loop, lines 503-617, given what select() and accept() report. */
    method Round(ev: Server.Event, ghost w: Server.World<App>) returns (code: Option<int>)
      requires Represents(w) && Server.WellFormed(w) && Server.Plausible(core.calls, w, ev)
      modifies core`app, core`nodes, core.api.services, core.lists, core.nodes`next
      modifies this`gone, this`num, this`crls, this`bufs, this`owned
      modifies kernel, clients, owned`next, crls, bufs
      ensures Represents(Server.Step(core.calls, w, ev).world)
      ensures code == match Server.Step(core.calls, w, ev) case Running(_) => None case Returned(c, _) => Some(c)
      ensures Grew()
    {
      match ev
      case SelectFails =>
        return Some(-1);
      case Select(shutdown, ready, accept) =>
        if shutdown {
          var _ := RemoveAllClients(w);
          return Some(0);
        }
        ghost var w' := Server.ServeAll(core.calls, w, w.clients, ready);
        Walk(ready, w);
        code := AcceptOne(accept, w');
    }

    /** Lines 601-616. */
    method AcceptOne(accept: Server.Accept, ghost w: Server.World<App>) returns (code: Option<int>)
      requires Represents(w) && (accept.Newcomer? ==> accept.fd !in w.conns && accept.fd !in w.clients)
      modifies kernel, clients, this`num, this`crls, this`bufs, this`owned
      ensures Represents(if accept.Newcomer? then Server.Admit(w, accept.fd, accept.conn) else w)
      ensures code == if accept.AcceptFails? then Some(-1) else None
      ensures Grew()
    {
      match accept
      case NoOne => code := None;
      case AcceptFails => code := Some(-1);
      case Newcomer(fd, c) =>
        AcceptClient(fd, c, w);
        code := None;
    }

    /** A run that ends as `goal` has come to v with these reports to go, or has ended there with a code. */
    ghost predicate OnTrack(
      goal: Server.Outcome<App>, code: Option<int>, v: Server.World<App>, rest: seq<Server.Event>)
    {
      && Server.WellFormed(v)
      && match code
         case None => Server.PlausibleRun(core.calls, v, rest) && goal == Server.Run(core.calls, v, rest)
         case Some(c) => goal == Server.Returned(c, v)
    }

    /** A round as part of a longer run, which goes on from its result or ends with it. */
    method RoundOf(evs: seq<Server.Event>, i: nat, ghost w: Server.World<App>, ghost goal: Server.Outcome<App>)
      returns (code: Option<int>, ghost w': Server.World<App>)
      requires Represents(w) && i < |evs| && OnTrack(goal, None, w, evs[i..])
      modifies core`app, core`nodes, core.api.services, core.lists, core.nodes`next
      modifies this`gone, this`num, this`crls, this`bufs, this`owned
      modifies kernel, clients, owned`next, crls, bufs
      ensures Represents(w') == true && OnTrack(goal, code, w', evs[i + 1..]) == true && Grew() == true
    {
      assert evs[i..][0] == evs[i] && evs[i..][1..] == evs[i + 1..];
      w' := Server.Step(core.calls, w, evs[i]).world;
      code := Round(evs[i], w);
    }

    /** The rounds until one of them ends the run, or the reports stop; `v` is the state then. */
    method Rounds(evs: seq<Server.Event>, ghost w: Server.World<App>)
      returns (code: Option<int>, ghost v: Server.World<App>)
      requires Represents(w) && Server.WellFormed(w) && Server.PlausibleRun(core.calls, w, evs)
      modifies core`app, core`nodes, core.api.services, core.lists, core.nodes`next
      modifies this`gone, this`num, this`crls, this`bufs, this`owned
      modifies kernel, clients, owned`next, crls, bufs
      ensures Represents(v) == true && OnTrack(Server.Run(core.calls, w, evs), code, v, []) == true
    {
      ghost var goal := Server.Run(core.calls, w, evs);
      v, code := w, None;
      var i := 0;
      assert evs[0..] == evs;
      while i < |evs| && code == None
        invariant 0 <= i <= |evs|
        invariant Represents(v) == true && OnTrack(goal, code, v, evs[i..]) == true && Grew() == true
      {
        code, v := RoundOf(evs, i, v, goal);
        i := i + 1;
      }
      assert code.None? ==> evs[i..] == [];
    }

    /**
     * japi_start_server from a context that represents w, over any plausible sequence of reports: it ends as
     * the state machine does, with its return code, or is still running when the reports stop.
     */
    method StartServer(evs: seq<Server.Event>, ghost w: Server.World<App>) returns (code: Option<int>)
      requires Represents(w) && Server.WellFormed(w) && Server.PlausibleRun(core.calls, w, evs)
      modifies core`app, core`nodes, core.api.services, core.lists, core.nodes`next
      modifies this`gone, this`num, this`crls, this`bufs, this`owned
      modifies kernel, clients, owned`next, crls, bufs
      ensures Represents(Server.Run(core.calls, w, evs).world)
      ensures code == match Server.Run(core.calls, w, evs) case Running(_) => None case Returned(c, _) => Some(c)
    {
      ghost var v;
      code, v := Rounds(evs, w);
      assert v == Server.Run(core.calls, w, evs).world;
    }
  }
}
