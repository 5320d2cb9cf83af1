/** The linked list of push services in the context, each with its linked list of subscribers. */
module ServiceTables {
  import opened Names
  import opened Sockets
  import opened ClientLists
  import opened PushSend
  import opened Services

  function ServiceAt(services: seq<PushService>, i: nat): PushService? {
    if i < |services| then services[i] else null
  }

  /** The list headed by ctx->push_services, apart from what the services hold. */
  class ServiceChain {
    var head: PushService?
    ghost var services: seq<PushService>  // the linked services, newest first
    ghost var freed: set<PushService>

    ghost predicate Valid()
      reads this, services
    {
      && head == ServiceAt(services, 0) && Distinct(services)
      && (forall i {:trigger services[i].next} :: 0 <= i < |services| ==>
            services[i].next == ServiceAt(services, i + 1))
      && forall s :: s in services ==> s !in freed
    }

    constructor ()
      ensures Valid() && services == [] && freed == {}
    {
      head, services, freed := null, [], {};
    }

    method Prepend(psc: PushService)
      requires Valid() && psc !in services && psc !in freed && psc.next == head
      modifies this
      ensures Valid() && services == [psc] + old(services) && freed == old(freed)
    {
      head := psc;
      services := [psc] + services;
    }

    ghost function Services(): set<PushService>
      reads this
    {
      set s | s in services
    }

    /** The search for a service and its predecessor, lines 380-396. */
    method Find(psc: PushService) returns (found: bool, prev: PushService?, ghost k: nat)
      requires Valid()
      ensures found <==> psc in services
      ensures found ==> k == Index(services, psc) && prev == if k == 0 then null else services[k - 1]
    {
      prev, k := null, 0;
      var iter := head;
      while iter != null && iter != psc
        invariant k <= |services| && iter == ServiceAt(services, k)
        invariant prev == if k == 0 then null else services[k - 1]
        invariant forall j :: 0 <= j < k ==> services[j] != psc
        decreases |services| - k
      {
        prev := iter;
        iter := iter.next;
        k := k + 1;
      }
      found := iter != null;
      if found {
        IndexUnique(services, psc, k);
      }
    }

    /** free_pushsrv of a service that is not in the list. */
    method Release(psc: PushService)
      requires Valid() && psc !in services
      modifies this`freed
      ensures Valid() && freed == old(freed) + {psc}
    {
      freed := freed + {psc};
    }

    /** Relink around the k-th service, lines 385-391. */
    method Unlink(psc: PushService, prev: PushService?, ghost k: nat)
      requires Valid() && k < |services| && psc == services[k] && prev == if k == 0 then null else services[k - 1]
      modifies this, Services()`next
      ensures Valid() && services == RemoveAt(old(services), k) && freed == old(freed) + {psc}
      ensures Services() == old(Services()) - {psc}
    {
      ghost var all := services;
      RemoveAtElements(services, k);
      RemoveAtDistinct(services, k);
      if prev == null {
        head := psc.next;
      } else {
        prev.next := psc.next;
      }
      freed := freed + {psc};
      services := RemoveAt(services, k);
      forall i {:trigger services[i].next} | 0 <= i < |services|
        ensures services[i].next == ServiceAt(services, i + 1)
      {
        var j := if i < k then i else i + 1;
        assert services[i] == all[j] && old(all[j].next) == ServiceAt(all, j + 1);
      }
    }
  }

  /** Which list each subscriber node belongs to. */
  type Owners = map<Client, ClientList>

  /** The service's nodes are its own. */
  ghost predicate Owned(s: PushService, owner: Owners)
    reads s.list
  {
    forall n :: n in s.list.Nodes() ==> n in owner && owner[n] == s.list
  }

  /** The service represents the value. */
  ghost predicate Holds(s: PushService, v: Service)
    reads s.list, s.list.Nodes()
  {
    s.name == v.name && s.list.Valid() && s.list.socks == v.subs
  }

  ghost predicate Contents(services: seq<PushService>, model: seq<Service>, lists: set<ClientList>, owner: Owners)
    reads lists, owner.Keys
  {
    && |model| == |services|
    && (forall i {:trigger services[i]} :: 0 <= i < |services| ==>
          services[i].list in lists && Owned(services[i], owner) && Holds(services[i], model[i]))
    && forall i, j :: 0 <= i < j < |services| ==> services[i].list != services[j].list
  }

  lemma ContentsWithout(services: seq<PushService>, model: seq<Service>, lists: set<ClientList>, owner: Owners, k: nat)
    requires Contents(services, model, lists, owner) && k < |services|
    ensures Contents(RemoveAt(services, k), RemoveAt(model, k), lists, owner)
    ensures forall i :: 0 <= i < |services| - 1 ==> RemoveAt(services, k)[i].list != services[k].list
    ensures services[k].list in lists && Owned(services[k], owner) && Holds(services[k], model[k])
  {
    RemoveAtElements(services, k);
    RemoveAtElements(model, k);
  }

  lemma ContentsWith(
    s: PushService, v: Service, services: seq<PushService>, model: seq<Service>,
    lists: set<ClientList>, owner: Owners)
    requires Contents(services, model, lists, owner)
    requires s.list !in lists && s.list.Valid() && s.list.nodes == [] && s.name == v.name && s.list.socks == v.subs
    ensures Contents([s] + services, [v] + model, lists + {s.list}, owner)
  {
  }

  /** Contents, but for the k-th service, whose list is being changed. */
  ghost predicate OthersHold(
    services: seq<PushService>, model: seq<Service>, lists: set<ClientList>, owner: Owners, k: nat)
    reads lists, owner.Keys
  {
    && |model| == |services|
    && (forall i {:trigger services[i]} :: 0 <= i < |services| ==> services[i].list in lists)
    && (forall i {:trigger services[i]} :: 0 <= i < |services| && i != k ==>
          Owned(services[i], owner) && Holds(services[i], model[i]))
    && forall i, j :: 0 <= i < j < |services| ==> services[i].list != services[j].list
  }

  lemma AllHold(
    services: seq<PushService>, was: seq<Service>, model: seq<Service>, lists: set<ClientList>, owner: Owners, k: nat)
    requires OthersHold(services, was, lists, owner, k) && k < |services|
    requires |model| == |was| && model == was[k := model[k]]
    requires Owned(services[k], owner) && Holds(services[k], model[k])
    ensures Contents(services, model, lists, owner)
  {
  }

  class ServiceTable {
    const chain: ServiceChain
    ghost var model: seq<Service>     // what the services represent
    ghost var lists: set<ClientList>  // their subscriber lists
    ghost var owner: Owners           // and the nodes of those

    ghost predicate Valid()
      reads this, chain, chain.services, lists, owner.Keys
    {
      chain.Valid() && Contents(chain.services, model, lists, owner)
    }

    constructor ()
      ensures Valid() && fresh(chain) && model == [] && lists == {} && owner == map[]
      ensures chain.services == [] && chain.freed == {}
    {
      chain := new ServiceChain();
      model, lists, owner := [], {}, map[];
    }

    /** japi_pushsrv_add_client on the k-th service. */
    method AddClient(psc: PushService, ghost k: nat, fd: int)
      requires Valid() && k < |model| && psc == chain.services[k]
      modifies this, lists
      ensures Valid() && lists == old(lists) && fresh(owner.Keys - old(owner.Keys))
      ensures model == old(model)[k := old(model)[k].(subs := [fd] + old(model)[k].subs)]
    {
      ghost var was := model;
      PutIn(psc, k, fd);
      model := model[k := model[k].(subs := [fd] + model[k].subs)];
      AllHold(chain.services, was, model, lists, owner, k);
    }

    /** The link-in, as far as the lists go. */
    method PutIn(psc: PushService, ghost k: nat, fd: int)
      requires Valid() && k < |model| && psc == chain.services[k]
      modifies this`owner, psc.list
      ensures fresh(owner.Keys - old(owner.Keys))
      ensures OthersHold(chain.services, model, lists, owner, k) && Owned(psc, owner)
      ensures Holds(psc, model[k].(subs := [fd] + model[k].subs))
    {
      ghost var services := chain.services;
      assert psc.list in lists && Owned(psc, owner) && Holds(psc, model[k]);
      var client := psc.list.Add(fd);
      owner := owner[client := psc.list];
      forall i {:trigger services[i]} | 0 <= i < |services| && i != k
        ensures Owned(services[i], owner) && Holds(services[i], model[i]) == true
      {
        assert services[i].list != psc.list && old(Owned(services[i], owner)) && old(Holds(services[i], model[i]));
      }
    }

    /** japi_pushsrv_remove_client on the k-th service. */
    method RemoveClient(psc: PushService, ghost k: nat, fd: int) returns (ret: int)
      requires Valid() && k < |model| && psc == chain.services[k]
      modifies this`model, psc.list, psc.list.Nodes()`next
      ensures Valid() && psc.list.Nodes() <= old(psc.list.Nodes())
      ensures ret == if fd in old(model)[k].subs then 0 else -1
      ensures ret < 0 ==> model == old(model)
      ensures model == old(model)[k := old(model)[k].(subs := RemoveFirst(old(model)[k].subs, fd))]
    {
      ghost var was := model;
      ret := TakeOut(psc, k, fd);
      model := model[k := model[k].(subs := RemoveFirst(model[k].subs, fd))];
      AllHold(chain.services, was, model, lists, owner, k);
    }

    /** The removal, as far as the lists go. */
    method TakeOut(psc: PushService, ghost k: nat, fd: int) returns (ret: int)
      requires Valid() && k < |model| && psc == chain.services[k]
      modifies psc.list, psc.list.Nodes()`next
      ensures psc.list.Nodes() <= old(psc.list.Nodes()) && ret == if fd in model[k].subs then 0 else -1
      ensures OthersHold(chain.services, model, lists, owner, k) && Owned(psc, owner)
      ensures Holds(psc, model[k].(subs := RemoveFirst(model[k].subs, fd)))
    {
      ghost var services := chain.services;
      assert psc.list in lists && Owned(psc, owner) && Holds(psc, model[k]);
      ret := psc.list.Remove(fd);
      forall i {:trigger services[i]} | 0 <= i < |services| && i != k
        ensures Owned(services[i], owner) && Holds(services[i], model[i]) == true
      {
        assert services[i].list != psc.list && old(Owned(services[i], owner)) && old(Holds(services[i], model[i]));
      }
    }

    /** The search of japi_pushsrv_subscribe, lines 190-197. */
    method Subscribe(name: string, fd: int) returns (ok: bool)
      requires Valid()
      modifies this, lists
      ensures Valid() && lists == old(lists) && fresh(owner.Keys - old(owner.Keys))
      ensures ok == Services.Subscribe(old(model), name, fd).1
      ensures model == Services.Subscribe(old(model), name, fd).0
    {
      var psc := chain.head;
      ghost var k := 0;
      while psc != null
        invariant k <= |model| && psc == ServiceAt(chain.services, k)
        invariant forall j :: 0 <= j < k ==> !Same(name, model[j].name)
        decreases |model| - k
      {
        assert psc.list in lists && Owned(psc, owner) && Holds(psc, model[k]);
        if Same(name, psc.name) {
          SubscribeAt(model, name, fd, k);
          AddClient(psc, k, fd);
          return true;
        }
        psc := psc.next;
        k := k + 1;
      }
      SubscribeNowhere(model, name, fd);
      return false;
    }

    /** The search of japi_pushsrv_unsubscribe, lines 249-260. */
    method Unsubscribe(name: string, fd: int) returns (registered: bool, unsubscribed: bool)
      requires Valid()
      modifies this, lists, owner.Keys`next
      ensures Valid() && lists == old(lists) && owner == old(owner)
      ensures Unsubscribed(model, registered, unsubscribed) == Services.Unsubscribe(old(model), name, fd)
    {
      registered, unsubscribed := false, false;
      var psc := chain.head;
      ghost var k := 0;
      while psc != null
        invariant Valid() && lists == old(lists) && owner == old(owner) && model == old(model)
        invariant k <= |model| && psc == ServiceAt(chain.services, k) && !unsubscribed
        invariant forall j :: 0 <= j < k ==> !Lists(model[j], name, fd)
        invariant registered <==> exists j :: 0 <= j < k && Same(name, model[j].name)
        decreases |model| - k
      {
        assert psc.list in lists && Owned(psc, owner) && Holds(psc, model[k]);
        if Same(name, psc.name) {
          registered := true;
          assert Same(name, model[k].name);
          var ret := RemoveClient(psc, k, fd);
          if ret >= 0 {
            unsubscribed := true;
            UnsubscribeAt(old(model), name, fd, k);
            return;
          }
        }
        psc := psc.next;
        k := k + 1;
      }
      UnsubscribeNowhere(model, name, fd);
    }

    /** japi_pushsrv_remove_client_from_all_pushsrv */
    method RemoveFromAll(fd: int)
      requires Valid()
      modifies this, lists, owner.Keys`next
      ensures Valid() && lists == old(lists) && owner == old(owner)
      ensures model == Services.RemoveFromAll(old(model), fd)
    {
      var psc := chain.head;
      ghost var k := 0;
      ghost var all := Services.RemoveFromAll(model, fd);
      while psc != null
        invariant Valid() && lists == old(lists) && owner == old(owner)
        invariant k <= |model| && psc == ServiceAt(chain.services, k)
        invariant |model| == |all|
        invariant forall i :: 0 <= i < |model| ==> model[i] == if i < k then all[i] else old(model)[i]
        decreases |model| - k
      {
        var _ := RemoveClient(psc, k, fd);
        psc := psc.next;
        k := k + 1;
      }
    }

    /** pushsrv_isredundant: an exact comparison. */
    method IsRedundant(name: string) returns (duplicate: bool)
      requires Valid()
      ensures duplicate <==> Taken(model, name)
    {
      var psc := chain.head;
      ghost var k := 0;
      while psc != null
        invariant k <= |model| && psc == ServiceAt(chain.services, k)
        invariant forall j :: 0 <= j < k ==> model[j].name != name
        decreases |model| - k
      {
        assert psc.list in lists && Owned(psc, owner) && Holds(psc, model[k]);
        if psc.name == name {
          return true;
        }
        psc := psc.next;
        k := k + 1;
      }
      return false;
    }

    /** japi_pushsrv_register; null when the name is empty or taken. */
    method Register(name: string) returns (psc: PushService?)
      requires Valid()
      modifies this, chain
      ensures Valid() && fresh(lists - old(lists)) && owner == old(owner) && chain.freed == old(chain.freed)
      ensures psc != null <==> CanRegister(old(model), name)
      ensures if psc != null then
                model == [Service(name, [])] + old(model) && chain.services == [psc] + old(chain.services)
              else
                model == old(model) && chain.services == old(chain.services)
    {
      if name == "" {
        return null;
      }
      var duplicate := IsRedundant(name);
      if duplicate {
        return null;
      }
      psc := Enter(name);
    }

    /** Lines 329-358. */
    method Enter(name: string) returns (psc: PushService)
      requires Valid()
      modifies this, chain
      ensures Valid() && fresh(lists - old(lists)) && owner == old(owner) && chain.freed == old(chain.freed)
      ensures model == [Service(name, [])] + old(model) && chain.services == [psc] + old(chain.services)
    {
      psc := new PushService(name, chain.head);
      ContentsWith(psc, Service(name, []), chain.services, model, lists, owner);
      lists := lists + {psc.list};
      model := [Service(name, [])] + model;
      chain.Prepend(psc);
      assert Contents(chain.services, model, lists, owner) == true;
    }

    /** The service's subscribers belong to none of the services in the list. */
    ghost predicate Foreign(psc: PushService)
      reads this, psc.list, psc.list.Nodes()
    {
      psc.list.Valid() && psc.list !in lists && psc.list.Nodes() !! owner.Keys
    }

    /**
     * japi_pushsrv_destroy, up to stopping the thread: unlink the service, if it is in the list, and drop every
     * subscription. No node is left behind: each one is given back once, duplicates included.
     */
    method Destroy(psc: PushService?) returns (ret: int)
      requires Valid() && (psc != null && psc !in chain.services ==> Foreign(psc))
      modifies this, chain, chain.Services()`next, lists, owner.Keys`next
      modifies if psc == null then {} else {psc.list}, (if psc == null then {} else psc.list.Nodes())`next
      ensures Valid() && lists == old(lists) && owner == old(owner)
      ensures psc == null ==> ret == -1 && chain.freed == old(chain.freed)
      ensures psc != null ==>
                && ret == 0 && chain.freed == old(chain.freed) + {psc}
                && psc.list.nodes == [] && psc.list.freed == old(psc.list.freed) + old(psc.list.Nodes())
      ensures if psc != null && psc in old(chain.services) then
                var k := Index(old(chain.services), psc);
                && chain.services == RemoveAt(old(chain.services), k) && model == RemoveAt(old(model), k)
                && chain.Services() == old(chain.Services()) - {psc}
              else
                chain.services == old(chain.services) && model == old(model)
    {
      if psc == null {
        return -1;
      }
      var found, prev, k := chain.Find(psc);
      if found {
        Extract(psc, prev, k);
      } else {
        chain.Release(psc);
      }
      DropSubscribers(psc);
      return 0;
    }

    method Extract(psc: PushService, prev: PushService?, ghost k: nat)
      requires Valid() && k < |chain.services| && psc == chain.services[k]
      requires prev == if k == 0 then null else chain.services[k - 1]
      modifies this`model, chain, chain.Services()`next
      ensures Valid() && chain.freed == old(chain.freed) + {psc} && chain.Services() == old(chain.Services()) - {psc}
      ensures chain.services == RemoveAt(old(chain.services), k) && model == RemoveAt(old(model), k)
      ensures psc.list in lists && Owned(psc, owner) && Holds(psc, old(model)[k])
      ensures forall i :: 0 <= i < |chain.services| ==> chain.services[i].list != psc.list
      ensures lists == old(lists) && owner == old(owner) && unchanged(psc.list)
    {
      ContentsWithout(chain.services, model, lists, owner, k);
      chain.Unlink(psc, prev, k);
      model := RemoveAt(model, k);
      assert Contents(chain.services, model, lists, owner) == true;
    }

    /** Lines 398-407. */
    method DropSubscribers(psc: PushService)
      requires Valid() && psc.list.Valid()
      requires forall n :: n in psc.list.Nodes() && n in owner ==> owner[n] == psc.list
      requires forall i :: 0 <= i < |chain.services| ==> chain.services[i].list != psc.list
      modifies psc.list, psc.list.Nodes()`next
      ensures Valid() && unchanged(this, chain)
      ensures psc.list.nodes == [] && psc.list.freed == old(psc.list.freed) + old(psc.list.Nodes())
    {
      ghost var services := chain.services;
      psc.list.Drain();
      forall i {:trigger services[i]} | 0 <= i < |services|
        ensures Owned(services[i], owner) && Holds(services[i], model[i]) == true
      {
        assert old(Owned(services[i], owner)) && old(Holds(services[i], model[i]));
      }
      assert Contents(chain.services, model, lists, owner) == true;
    }

    /** The loop over the services in japi_destroy: each is freed once and none is left. */
    method DestroyAll()
      requires Valid()
      modifies this, chain, chain.Services()`next, lists, owner.Keys`next
      ensures Valid() && chain.services == [] && model == []
      ensures chain.freed == old(chain.freed) + old(chain.Services())
    {
      var psc := chain.head;
      while psc != null
        invariant Valid() && lists == old(lists) && owner == old(owner) && psc == ServiceAt(chain.services, 0)
        invariant chain.Services() <= old(chain.Services())
        invariant chain.freed + chain.Services() == old(chain.freed) + old(chain.Services())
        decreases |chain.services|
      {
        var next := psc.next;
        assert Index(chain.services, psc) == 0;
        var _ := Destroy(psc);
        psc := next;
      }
    }
  }
}
