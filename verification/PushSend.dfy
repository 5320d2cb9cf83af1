/** japi_pushsrv_sendmsg: one write per subscription, removing subscribers whose write fails mid-walk. */
module PushSend {
  import opened Bytes
  import opened System
  import opened RwN
  import opened Framing
  import opened Sockets
  import opened ClientLists

  datatype Sent = Sent(conns: map<int, Conn>, left: seq<int>, count: nat)

  /** The walk with `kept` already passed and still listed, `todo` still ahead. */
  function SendWalk(conns: map<int, Conn>, kept: seq<int>, todo: seq<int>, frame: seq<byte>): Sent
    decreases |todo|
  {
    if todo == [] then Sent(conns, kept, 0)
    else
      var fd := todo[0];
      var s := SendWalk(ConnsAfterWrite(conns, fd, frame), Passed(conns, kept, fd, |frame|), todo[1..], frame);
      if WriteRet(conns, fd, |frame|) <= 0 then s else s.(count := s.count + 1)
  }

  /** The subscriptions whose one write gets the whole frame out, in list order. */
  function Winners(conns: map<int, Conn>, todo: seq<int>, frame: seq<byte>): seq<int>
    decreases |todo|
  {
    if todo == [] then []
    else
      (if WriteRet(conns, todo[0], |frame|) > 0 then [todo[0]] else [])
      + Winners(ConnsAfterWrite(conns, todo[0], frame), todo[1..], frame)
  }

  /** On exit the list is, as a multiset, the successful writes, and the returned count is its length. */
  lemma {:induction false} SendLeavesWinners(conns: map<int, Conn>, kept: seq<int>, todo: seq<int>, frame: seq<byte>)
    ensures var s := SendWalk(conns, kept, todo, frame);
            var won := Winners(conns, todo, frame);
            && multiset(s.left) == multiset(kept) + multiset(won)
            && s.count == |won| && |s.left| == |kept| + s.count
    decreases |todo|
  {
    if todo != [] {
      var fd := todo[0];
      PassedMultiset(conns, kept, fd, |frame|);
      SendLeavesWinners(ConnsAfterWrite(conns, fd, frame), Passed(conns, kept, fd, |frame|), todo[1..], frame);
    }
  }

  /** The list behind the walk after the current subscription has been tried. */
  function Passed(conns: map<int, Conn>, kept: seq<int>, fd: int, len: nat): seq<int> {
    if WriteRet(conns, fd, len) <= 0 then RemoveFirst(kept + [fd], fd) else kept + [fd]
  }

  lemma PassedMultiset(conns: map<int, Conn>, kept: seq<int>, fd: int, len: nat)
    ensures var won := if WriteRet(conns, fd, len) > 0 then [fd] else [];
            var kept' := Passed(conns, kept, fd, len);
            multiset(kept') == multiset(kept) + multiset(won) && |kept'| == |kept| + |won|
  {
    RemoveFirstMultiset(kept + [fd], fd);
    SameSize(Passed(conns, kept, fd, len), kept + if WriteRet(conns, fd, len) > 0 then [fd] else []);
  }

  lemma SameSize<T>(a: seq<T>, b: seq<T>)
    requires multiset(a) == multiset(b)
    ensures |a| == |b|
  {
    assert |multiset(a)| == |a| && |multiset(b)| == |b|;
  }

  /** n attempts to write the frame to one connection. */
  function Attempts(c: Conn, frame: seq<byte>, n: nat): Conn
    decreases n
  {
    if n == 0 then c else Attempts(AfterWrite(c, frame), frame, n - 1)
  }

  /** Each subscription present when the walk starts gets exactly one attempt, and no one else any. */
  lemma {:induction false} SendTriesEachOnce(
    conns: map<int, Conn>, kept: seq<int>, todo: seq<int>, frame: seq<byte>, fd: int)
    ensures var s := SendWalk(conns, kept, todo, frame);
            && (fd in s.conns <==> fd in conns)
            && (fd in conns ==> s.conns[fd] == Attempts(conns[fd], frame, Count(todo, fd)))
    decreases |todo|
  {
    if todo != [] {
      var conns' := ConnsAfterWrite(conns, todo[0], frame);
      SendTriesEachOnce(conns', Passed(conns, kept, todo[0], |frame|), todo[1..], frame, fd);
      CountTail(todo, fd);
    }
  }

  /** How many of n attempts on one connection, one after the other, get the whole frame out. */
  function WholeFrames(c: Conn, frame: seq<byte>, n: nat): nat
    decreases n
  {
    if n == 0 then 0
    else (if WriteAll(c.output, |frame|).n == |frame| then 1 else 0) + WholeFrames(AfterWrite(c, frame), frame, n - 1)
  }

  /**
   * Who stays: of each connection as many subscriptions as attempts got the whole frame out, and none of a
   * descriptor that is not open.
   */
  lemma {:induction false} SendKeepsWhoGotIt(
    conns: map<int, Conn>, kept: seq<int>, todo: seq<int>, frame: seq<byte>, fd: int)
    requires frame != []
    ensures Count(SendWalk(conns, kept, todo, frame).left, fd)
         == Count(kept, fd) + if fd in conns then WholeFrames(conns[fd], frame, Count(todo, fd)) else 0
    decreases |todo|
  {
    if todo != [] {
      CountTail(todo, fd);
      var conns' := ConnsAfterWrite(conns, todo[0], frame);
      var kept' := Passed(conns, kept, todo[0], |frame|);
      SendKeepsWhoGotIt(conns', kept', todo[1..], frame, fd);
      PassedMultiset(conns, kept, todo[0], |frame|);
      if todo[0] in conns {
        WriteAllMeaning(conns[todo[0]].output, |frame|);
      }
    }
  }

  lemma CountTail<T>(s: seq<T>, x: T)
    requires s != []
    ensures Count(s, x) == Count(s[1..], x) + if s[0] == x then 1 else 0
  {
    assert s == [s[0]] + s[1..];
  }

  /**
   * A failed write frees the first node with the descriptor, which is at or before the current one:
   * what lies ahead of the walk, the saved next node first, stays.
   */
  lemma RemovalIsBehindTheWalk(kept: seq<int>, fd: int, ahead: seq<int>)
    ensures Index(kept + [fd] + ahead, fd) <= |kept|
    ensures RemoveFirst(kept + [fd] + ahead, fd) == RemoveFirst(kept + [fd], fd) + ahead
    ensures |RemoveFirst(kept + [fd], fd)| == |kept|
  {
    assert (kept + [fd])[|kept|] == fd;
    RemoveFirstPrefix(kept + [fd], ahead, fd);
  }

  /** japi_pushsrv_context: the name and the subscribers. */
  class PushService {
    const name: string
    const list: ClientList
    var next: PushService?

    constructor (name: string, next: PushService?)
      ensures this.name == name && this.next == next
      ensures fresh(list) && list.Valid() && list.socks == [] && list.nodes == []
    {
      this.name, this.next := name, next;
      list := new ClientList();
    }

    /** One visit, lines 485-502: write to the current node, and on failure unlink. */
    method Visit(
      kernel: Kernel, msg: array<byte>, len: nat, client: Client, ghost kept: seq<int>, ghost ahead: seq<int>)
      returns (ok: bool, following: Client?)
      requires list.Valid() && len <= msg.Length
      requires ahead != [] && list.socks == kept + ahead && client == list.nodes[|kept|]
      modifies kernel, list, list.Nodes()`next
      ensures list.Valid() && list.Nodes() <= old(list.Nodes())
      ensures ok == (WriteRet(old(kernel.conns), ahead[0], len) > 0)
      ensures kernel.conns == ConnsAfterWrite(old(kernel.conns), ahead[0], msg[..len])
      ensures var kept' := Passed(old(kernel.conns), kept, ahead[0], len);
              list.socks == kept' + ahead[1..] && following == At(list.nodes, |kept'|)
    {
      assert client !in list.freed && client.socket == ahead[0];
      assert list.socks == kept + [ahead[0]] + ahead[1..];
      following := client.next;
      var ret := WriteN(kernel, client.socket, msg, len);
      ok := ret > 0;
      if ret <= 0 {
        RemovalIsBehindTheWalk(kept, ahead[0], ahead[1..]);
        RemoveAtElements(list.nodes, Index(list.socks, client.socket));
        var _ := list.Remove(client.socket);
      }
      assert following == null || following !in list.freed;
    }

    /** The walk of lines 482-503, under psc->lock. */
    method Walk(kernel: Kernel, msg: array<byte>, len: nat) returns (success: nat)
      requires list.Valid() && len <= msg.Length
      modifies kernel, list, list.Nodes()`next
      ensures list.Valid()
      ensures Sent(kernel.conns, list.socks, success)
           == SendWalk(old(kernel.conns), [], old(list.socks), msg[..len])
    {
      ghost var frame, kept, ahead := msg[..len], [], list.socks;
      ghost var goal := SendWalk(kernel.conns, [], ahead, frame);
      success := 0;
      var client := list.head;
      while client != null
        invariant list.Valid() && list.socks == kept + ahead && client == At(list.nodes, |kept|)
        invariant list.Nodes() <= old(list.Nodes())
        invariant var s := SendWalk(kernel.conns, kept, ahead, frame);
                  goal == s.(count := s.count + success)
        decreases |ahead|
      {
        ghost var conns := kernel.conns;
        var ok;
        ok, client := Visit(kernel, msg, len, client, kept, ahead);
        kept, ahead := Passed(conns, kept, ahead[0], len), ahead[1..];
        if ok {
          success := success + 1;
        }
      }
    }

    /** japi_pushsrv_sendmsg; `text` is the serialised message, absent when there is nothing to send. */
    method SendMsg(kernel: Kernel, text: Option<Text>) returns (ret: int)
      requires list.Valid()
      modifies kernel, list, list.Nodes()`next
      ensures list.Valid()
      ensures text.None? ==> ret == -1 && kernel.conns == old(kernel.conns) && list.socks == old(list.socks)
      ensures text.Some? ==>
                && ret >= 0
                && Sent(kernel.conns, list.socks, ret)
                   == SendWalk(old(kernel.conns), [], old(list.socks), Frame(text.value))
    {
      if text == None {
        return -1;
      }
      if list.head == null {
        return 0;
      }
      var msg := AsNdStr(text.value);
      var len := StrLen(msg);
      assert msg[..len] == Frame(text.value);
      ret := Walk(kernel, msg, len);
    }
  }
}
