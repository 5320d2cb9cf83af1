/** The push services and their subscribers as values, newest service first. */
module Services {
  import opened Names
  import opened Sockets

  datatype Service = Service(name: string, subs: seq<int>)

  /** Find the first service of the name, ignoring case, and put the descriptor in front of its list. */
  function Subscribe(svcs: seq<Service>, name: string, fd: int): (r: (seq<Service>, bool))
    ensures |r.0| == |svcs|
  {
    if svcs == [] then ([], false)
    else if Same(name, svcs[0].name) then ([svcs[0].(subs := [fd] + svcs[0].subs)] + svcs[1..], true)
    else
      var (rest, ok) := Subscribe(svcs[1..], name, fd);
      ([svcs[0]] + rest, ok)
  }

  datatype Unsubscribed = Unsubscribed(svcs: seq<Service>, registered: bool, done: bool)

  predicate Lists(s: Service, name: string, fd: int) {
    Same(name, s.name) && fd in s.subs
  }

  /** Try every service of the name, ignoring case, until one gives the descriptor up. */
  function Unsubscribe(svcs: seq<Service>, name: string, fd: int): (u: Unsubscribed)
    ensures |u.svcs| == |svcs|
  {
    if svcs == [] then Unsubscribed([], false, false)
    else if Lists(svcs[0], name, fd) then
      Unsubscribed([svcs[0].(subs := RemoveFirst(svcs[0].subs, fd))] + svcs[1..], true, true)
    else
      var u := Unsubscribe(svcs[1..], name, fd);
      Unsubscribed([svcs[0]] + u.svcs, u.registered || Same(name, svcs[0].name), u.done)
  }

  /** Disconnect: the first occurrence of the descriptor goes from every service. */
  function RemoveFromAll(svcs: seq<Service>, fd: int): (r: seq<Service>)
    ensures |r| == |svcs|
    ensures forall i :: 0 <= i < |svcs| ==> r[i] == svcs[i].(subs := RemoveFirst(svcs[i].subs, fd))
  {
    seq(|svcs|, i requires 0 <= i < |svcs| => svcs[i].(subs := RemoveFirst(svcs[i].subs, fd)))
  }

  /** Whether the name is taken: exactly, not up to case. */
  predicate Taken(svcs: seq<Service>, name: string) {
    exists i :: 0 <= i < |svcs| && svcs[i].name == name
  }

  predicate CanRegister(svcs: seq<Service>, name: string) {
    name != "" && !Taken(svcs, name)
  }

  /** japi_pushsrv_register: in front, unless the name is empty or taken. */
  function Entered(svcs: seq<Service>, name: string): seq<Service> {
    if CanRegister(svcs, name) then [Service(name, [])] + svcs else svcs
  }

  // ---- What the operations mean

  lemma {:induction false} SubscribeAt(svcs: seq<Service>, name: string, fd: int, k: nat)
    requires k < |svcs| && Same(name, svcs[k].name) && forall j :: 0 <= j < k ==> !Same(name, svcs[j].name)
    ensures Subscribe(svcs, name, fd).1
    ensures Subscribe(svcs, name, fd).0 == svcs[k := svcs[k].(subs := [fd] + svcs[k].subs)]
  {
    if k > 0 {
      assert !Same(name, svcs[0].name);
      SubscribeAt(svcs[1..], name, fd, k - 1);
    }
    assert svcs == [svcs[0]] + svcs[1..];
  }

  lemma {:induction false} SubscribeNowhere(svcs: seq<Service>, name: string, fd: int)
    requires forall j :: 0 <= j < |svcs| ==> !Same(name, svcs[j].name)
    ensures Subscribe(svcs, name, fd) == (svcs, false)
  {
    if svcs != [] {
      assert svcs == [svcs[0]] + svcs[1..];
      SubscribeNowhere(svcs[1..], name, fd);
    }
  }

  /** A subscription that is reported made is made. */
  lemma {:induction false} SubscribeChangesIff(svcs: seq<Service>, name: string, fd: int)
    ensures Subscribe(svcs, name, fd).1 <==> Subscribe(svcs, name, fd).0 != svcs
  {
    if svcs != [] {
      SubscribeChangesIff(svcs[1..], name, fd);
      var r := Subscribe(svcs, name, fd).0;
      if Same(name, svcs[0].name) {
        assert |r[0].subs| == |svcs[0].subs| + 1;
      } else {
        assert r[1..] == Subscribe(svcs[1..], name, fd).0;
        assert svcs == [svcs[0]] + svcs[1..];
      }
    }
  }

  lemma UnsubscribeChangesIff(svcs: seq<Service>, name: string, fd: int)
    ensures Unsubscribe(svcs, name, fd).done <==> Unsubscribe(svcs, name, fd).svcs != svcs
    ensures Unsubscribe(svcs, name, fd).done ==> Unsubscribe(svcs, name, fd).registered
  {
    UnsubscribeMeaning(svcs, name, fd);
    if Unsubscribe(svcs, name, fd).done {
      var k := FirstLister(svcs, name, fd);
      UnsubscribeAt(svcs, name, fd, k);
      assert |RemoveFirst(svcs[k].subs, fd)| < |svcs[k].subs|;
      assert Unsubscribe(svcs, name, fd).svcs[k].subs != svcs[k].subs;
    }
  }

  lemma {:induction false} UnsubscribeAt(svcs: seq<Service>, name: string, fd: int, k: nat)
    requires k < |svcs| && Lists(svcs[k], name, fd) && forall j :: 0 <= j < k ==> !Lists(svcs[j], name, fd)
    ensures Unsubscribe(svcs, name, fd)
         == Unsubscribed(svcs[k := svcs[k].(subs := RemoveFirst(svcs[k].subs, fd))], true, true)
  {
    if k > 0 {
      assert !Lists(svcs[0], name, fd);
      UnsubscribeAt(svcs[1..], name, fd, k - 1);
    }
    assert svcs == [svcs[0]] + svcs[1..];
  }

  lemma {:induction false} UnsubscribeNowhere(svcs: seq<Service>, name: string, fd: int)
    requires forall j :: 0 <= j < |svcs| ==> !Lists(svcs[j], name, fd)
    ensures Unsubscribe(svcs, name, fd).svcs == svcs && !Unsubscribe(svcs, name, fd).done
    ensures Unsubscribe(svcs, name, fd).registered <==> exists j :: 0 <= j < |svcs| && Same(name, svcs[j].name)
  {
    if svcs != [] {
      var t := svcs[1..];
      UnsubscribeNowhere(t, name, fd);
      if j :| 0 <= j < |svcs| && Same(name, svcs[j].name) {
        assert j > 0 ==> t[j - 1] == svcs[j];
      }
    }
  }

  function FirstLister(svcs: seq<Service>, name: string, fd: int): (k: nat)
    ensures k <= |svcs| && (k < |svcs| ==> Lists(svcs[k], name, fd))
    ensures forall j :: 0 <= j < k ==> !Lists(svcs[j], name, fd)
  {
    if svcs == [] || Lists(svcs[0], name, fd) then 0 else 1 + FirstLister(svcs[1..], name, fd)
  }

  /**
   * Unsubscribing succeeds if and only if some service of that name lists the descriptor; it then takes
   * the first occurrence out of the first such service, and otherwise changes nothing.
   */
  lemma UnsubscribeMeaning(svcs: seq<Service>, name: string, fd: int)
    ensures var u := Unsubscribe(svcs, name, fd);
            && (u.done <==> exists s :: s in svcs && Lists(s, name, fd))
            && (!u.done ==> u.svcs == svcs)
            && (u.done ==>
                  var k := FirstLister(svcs, name, fd);
                  k < |svcs| && u.svcs == svcs[k := svcs[k].(subs := RemoveFirst(svcs[k].subs, fd))])
  {
    var k := FirstLister(svcs, name, fd);
    if k < |svcs| {
      UnsubscribeAt(svcs, name, fd, k);
    } else {
      UnsubscribeNowhere(svcs, name, fd);
    }
  }

  /** Services that do not list the descriptor, however spelt, do not stop the search. */
  lemma {:induction false} UnsubscribeSkips(news: seq<Service>, svcs: seq<Service>, name: string, fd: int)
    requires forall s :: s in news ==> !Lists(s, name, fd)
    ensures var u := Unsubscribe(svcs, name, fd);
            var v := Unsubscribe(news + svcs, name, fd);
            v.svcs == news + u.svcs && v.done == u.done
  {
    if news == [] {
      assert news + svcs == svcs;
      assert news + Unsubscribe(svcs, name, fd).svcs == Unsubscribe(svcs, name, fd).svcs;
    } else {
      assert !Lists(news[0], name, fd);
      UnsubscribeSkips(news[1..], svcs, name, fd);
      assert (news + svcs)[1..] == news[1..] + svcs && (news + svcs)[0] == news[0];
      assert [news[0]] + (news[1..] + Unsubscribe(svcs, name, fd).svcs) == news + Unsubscribe(svcs, name, fd).svcs;
    }
  }

  /**
   * Subscribe and unsubscribe undo each other, under any case variant of the name and whatever services
   * were registered in between (in front, so possibly under another spelling of the same name), as long
   * as those do not list the descriptor themselves: every list is restored exactly.
   */
  lemma {:induction false} UnsubscribeUndoesSubscribe(
    news: seq<Service>, svcs: seq<Service>, name: string, variant: string, fd: int)
    requires Subscribe(svcs, name, fd).1 && Same(name, variant)
    requires forall s :: s in news ==> !Lists(s, name, fd)
    ensures var u := Unsubscribe(news + Subscribe(svcs, name, fd).0, variant, fd);
            u.svcs == news + svcs && u.done
  {
    UnsubscribeSkips(news, Subscribe(svcs, name, fd).0, variant, fd);
    UndoAlone(svcs, name, variant, fd);
  }

  lemma {:induction false} UndoAlone(svcs: seq<Service>, name: string, variant: string, fd: int)
    requires Subscribe(svcs, name, fd).1 && Same(name, variant)
    ensures var u := Unsubscribe(Subscribe(svcs, name, fd).0, variant, fd);
            u.svcs == svcs && u.registered && u.done
  {
    assert svcs == [svcs[0]] + svcs[1..];
    var r := Subscribe(svcs, name, fd).0;
    if Same(name, svcs[0].name) {
      assert fd in r[0].subs;
      RemoveFirstHead(svcs[0].subs, fd);
      assert r[1..] == svcs[1..];
    } else {
      UndoAlone(svcs[1..], name, variant, fd);
      assert r[1..] == Subscribe(svcs[1..], name, fd).0;
    }
  }

  /**
   * A disconnected descriptor is gone from a service if and only if it was listed there at most once:
   * removal takes one occurrence, and the code lets a client subscribe twice.
   */
  lemma RemovedFromAllIff(svcs: seq<Service>, fd: int)
    ensures (forall i :: 0 <= i < |svcs| ==> fd !in RemoveFromAll(svcs, fd)[i].subs)
       <==> (forall i :: 0 <= i < |svcs| ==> Count(svcs[i].subs, fd) <= 1)
    ensures forall i, g :: 0 <= i < |svcs| ==>
              Count(RemoveFromAll(svcs, fd)[i].subs, g) ==
                                     if g == fd && g in svcs[i].subs then Count(svcs[i].subs, g) - 1
                                     else Count(svcs[i].subs, g)
  {
    forall i, g | 0 <= i < |svcs|
      ensures Count(RemoveFromAll(svcs, fd)[i].subs, g)
           == if g == fd && g in svcs[i].subs then Count(svcs[i].subs, g) - 1 else Count(svcs[i].subs, g)
    {
      RemoveFirstMultiset(svcs[i].subs, fd);
    }
    forall i | 0 <= i < |svcs|
      ensures fd !in RemoveFromAll(svcs, fd)[i].subs <==> Count(svcs[i].subs, fd) <= 1
    {
      assert Count(RemoveFromAll(svcs, fd)[i].subs, fd) == 0 <==> fd !in RemoveFromAll(svcs, fd)[i].subs;
    }
  }
}
