/** The singly linked client lists of japi.c and japi_pushsrv.c, relinked in place. */
module ClientLists {
  import opened Bytes
  import opened System
  import opened CReadLineLoop
  import opened Sockets

  /** japi_client */
  class Client {
    var socket: int
    const crl: CarryBuffer
    var next: Client?

    constructor (socket: int, next: Client?)
      ensures this.socket == socket && this.next == next
      ensures fresh(crl) && fresh(crl.buf) && crl.Valid() && crl.nbytes == 0
    {
      this.socket, this.next := socket, next;
      crl := new CarryBuffer();
    }
  }

  function At(nodes: seq<Client>, i: nat): Client? {
    if i < |nodes| then nodes[i] else null
  }

  ghost predicate Linked(head: Client?, nodes: seq<Client>)
    reads nodes
  {
    && head == At(nodes, 0)
    && forall i {:trigger nodes[i].next} :: 0 <= i < |nodes| ==> nodes[i].next == At(nodes, i + 1)
  }

  ghost predicate Labelled(nodes: seq<Client>, socks: seq<int>)
    reads nodes
  {
    && |socks| == |nodes|
    && forall i :: 0 <= i < |nodes| ==> nodes[i].socket == socks[i]
  }

  /** The list headed by ctx->clients or psc->clients. */
  class ClientList {
    var head: Client?
    ghost var nodes: seq<Client>   // the nodes linked from head, in order
    ghost var socks: seq<int>      // their descriptors
    ghost var freed: set<Client>   // nodes given back with free()

    ghost predicate Valid()
      reads this, nodes
    {
      && Linked(head, nodes) && Labelled(nodes, socks) && Distinct(nodes)
      && (forall n :: n in nodes ==> n !in freed)
    }

    ghost function Nodes(): set<Client>
      reads this
    {
      set n | n in nodes
    }

    constructor ()
      ensures Valid() && nodes == [] && socks == [] && freed == {}
    {
      head, nodes, socks, freed := null, [], [], {};
    }

    /** Link a new node in at the front. */
    method Add(socket: int) returns (client: Client)
      requires Valid()
      modifies this
      ensures Valid() && fresh(client) && fresh(client.crl) && fresh(client.crl.buf)
      ensures client.crl.Valid() && client.crl.nbytes == 0
      ensures nodes == [client] + old(nodes) && socks == [socket] + old(socks) && freed == old(freed)
    {
      client := new Client(socket, head);
      head := client;
      nodes, socks := [client] + nodes, [socket] + socks;
      assert forall n :: n in nodes ==> n !in freed by {
        assert forall n :: n in nodes ==> n == client || n in old(nodes);
      }
    }

    /** The node to go is the first. */
    method UnlinkFirst(client: Client)
      requires Valid() && nodes != [] && client == nodes[0]
      modifies this
      ensures Valid()
      ensures nodes == RemoveAt(old(nodes), 0) && socks == RemoveAt(old(socks), 0)
      ensures freed == old(freed) + {client} && Nodes() == old(Nodes()) - {client}
    {
      head := client.next;
      freed := freed + {client};
      assert RemoveAt(nodes, 0) == nodes[1..] && RemoveAt(socks, 0) == socks[1..];
      RemoveAtDistinct(nodes, 0);
      nodes, socks := nodes[1..], socks[1..];
    }

    /** The node to go follows `prev`: the source's second branch when it is the last, else its third. */
    method UnlinkAfter(client: Client, prev: Client, ghost k: nat)
      requires Valid() && 0 < k < |nodes| && client == nodes[k] && prev == nodes[k - 1]
      modifies this, prev`next
      ensures Valid()
      ensures nodes == RemoveAt(old(nodes), k) && socks == RemoveAt(old(socks), k)
      ensures freed == old(freed) + {client} && Nodes() == old(Nodes()) - {client}
    {
      prev.next := if client.next == null then null else client.next;
      freed := freed + {client};
      ghost var all := nodes;
      RemoveAtElements(nodes, k);
      RemoveAtElements(socks, k);
      RemoveAtDistinct(nodes, k);
      nodes, socks := RemoveAt(nodes, k), RemoveAt(socks, k);
      forall i | 0 <= i < |nodes| ensures nodes[i].next == At(nodes, i + 1) {
        if i + 1 == k {
          assert nodes[i] == prev && prev.next == At(all, k + 1);
        } else {
          var j := if i < k then i else i + 1;
          assert nodes[i] == all[j] && all[j] != prev && all[j].next == At(all, j + 1);
        }
      }
      assert head == nodes[0];
      assert Labelled(nodes, socks);
    }

    /** Unlink and free the first node with the descriptor. */
    method Remove(socket: int) returns (ret: int)
      requires Valid()
      modifies this, Nodes()`next
      ensures Valid()
      ensures ret == if socket in old(socks) then 0 else -1
      ensures socks == RemoveFirst(old(socks), socket)
      ensures var k := Index(old(socks), socket);
              if k < |old(nodes)|
              then nodes == RemoveAt(old(nodes), k) && freed == old(freed) + {old(nodes)[k]}
                   && Nodes() == old(Nodes()) - {old(nodes)[k]}
              else nodes == old(nodes) && freed == old(freed)
    {
      var client := head;
      var prev: Client? := null;
      ghost var k := 0;
      while client != null
        invariant k <= |nodes| && client == At(nodes, k) && prev == if k == 0 then null else nodes[k - 1]
        invariant forall j :: 0 <= j < k ==> socks[j] != socket
        decreases |nodes| - k
      {
        assert client !in freed;
        if client.socket == socket {
          IndexUnique(socks, socket, k);
          if prev == null {
            UnlinkFirst(client);
          } else {
            UnlinkAfter(client, prev, k);
          }
          return 0;
        }
        prev := client;
        client := client.next;
        k := k + 1;
      }
      return -1;
    }

    /** The destroy loop: remove the visited node's descriptor until the end, duplicates or not. */
    method Drain()
      requires Valid()
      modifies this, Nodes()`next
      ensures Valid() && nodes == [] && socks == []
      ensures freed == old(freed) + old(Nodes())
    {
      var client := head;
      while client != null
        invariant Valid() && client == At(nodes, 0)
        invariant freed + Nodes() == old(freed) + old(Nodes()) && Nodes() <= old(Nodes())
        decreases |nodes|
      {
        assert client == nodes[0] && client !in freed;
        var next := client.next;
        IndexUnique(socks, client.socket, 0);
        var _ := Remove(client.socket);
        client := next;
      }
    }
  }
}
