/** The request registry: a prepend-only linked list that behaves as a map over names up to case. */
module Registry {
  import opened Names
  import opened System

  /** Request handlers: the five registered by japi_init, and the user's. */
  datatype Handler = NotFound | Subscribe | Unsubscribe | ListServices | ListCommands | User(id: int)

  datatype Entry = Entry(name: string, handler: Handler)

  /** japi_get_request_handler: the first entry of the name, ignoring case. */
  function Lookup(entries: seq<Entry>, name: string): Option<Handler> {
    if entries == [] then None
    else if Same(name, entries[0].name) then Some(entries[0].handler)
    else Lookup(entries[1..], name)
  }

  /** strncmp(name, "japi_", 5) == 0: case matters here. */
  predicate Reserved(name: string) {
    |name| >= 5 && name[..5] == "japi_"
  }

  /** The return code of japi_register_request; NULL arguments are None. */
  function RegisterCode(entries: seq<Entry>, init: bool, name: Option<string>, handler: Option<Handler>): int {
    if name == None || name.value == "" then -2
    else if handler == None then -3
    else if Lookup(entries, name.value) != None then -4
    else if init && Reserved(name.value) then -6
    else 0
  }

  function Register(entries: seq<Entry>, init: bool, name: Option<string>, handler: Option<Handler>): seq<Entry> {
    if RegisterCode(entries, init, name, handler) == 0 then [Entry(name.value, handler.value)] + entries else entries
  }

  /** What japi_init leaves registered. */
  const BUILTINS: seq<Entry> := [
    Entry("japi_cmd_list", ListCommands),
    Entry("japi_pushsrv_list", ListServices),
    Entry("japi_pushsrv_unsubscribe", Unsubscribe),
    Entry("japi_pushsrv_subscribe", Subscribe),
    Entry("japi_request_not_found_handler", NotFound)]

  /** Registrations the user attempts after japi_init, in order; user code has only user handlers to give. */
  datatype Attempt = Attempt(name: Option<string>, handler: Option<int>)

  function Attempted(entries: seq<Entry>, a: Attempt): seq<Entry> {
    Register(entries, true, a.name, if a.handler.Some? then Some(User(a.handler.value)) else None)
  }

  function Run(entries: seq<Entry>, attempts: seq<Attempt>): seq<Entry>
    decreases |attempts|
  {
    if attempts == [] then entries else Run(Attempted(entries, attempts[0]), attempts[1..])
  }

  predicate DistinctNames(entries: seq<Entry>) {
    forall i, j :: 0 <= i < j < |entries| ==> !Same(entries[i].name, entries[j].name)
  }

  /** Non-user handlers under distinct names, each handler once. */
  ghost predicate IsBase(base: seq<Entry>) {
    && DistinctNames(base)
    && (forall i :: 0 <= i < |base| ==> !base[i].handler.User?)
    && forall i, j :: 0 <= i < j < |base| ==> base[i].handler != base[j].handler
  }

  /** The base entries at the bottom, user entries above, no two names the same up to case. */
  ghost predicate Inv(entries: seq<Entry>, base: seq<Entry>) {
    && DistinctNames(entries) && IsBase(base)
    && |base| <= |entries| && entries[|entries| - |base|..] == base
    && forall i :: 0 <= i < |entries| - |base| ==> entries[i].handler.User?
  }

  lemma {:induction false} LookupMeaning(entries: seq<Entry>, name: string)
    ensures Lookup(entries, name) == None <==> forall i :: 0 <= i < |entries| ==> !Same(name, entries[i].name)
    ensures Lookup(entries, name).Some? ==>
              exists i :: 0 <= i < |entries| && Same(name, entries[i].name)
                          && (forall j :: 0 <= j < i ==> !Same(name, entries[j].name))
                          && Lookup(entries, name) == Some(entries[i].handler)
  {
    if entries != [] {
      var t := entries[1..];
      assert forall i :: 0 < i < |entries| ==> entries[i] == t[i - 1];
      LookupMeaning(t, name);
      if Same(name, entries[0].name) {
      } else if Lookup(t, name).Some? {
        var i :| 0 <= i < |t| && Same(name, t[i].name) && (forall j :: 0 <= j < i ==> !Same(name, t[j].name))
                 && Lookup(t, name) == Some(t[i].handler);
        assert entries[i + 1] == t[i];
      } else {
        assert forall i :: 0 <= i < |t| ==> t[i] == entries[i + 1];
      }
    }
  }

  /** With distinct names the list is a map: every entry is found under every spelling of its name. */
  lemma {:induction false} LookupAt(entries: seq<Entry>, i: nat, name: string)
    requires DistinctNames(entries) && i < |entries| && Same(name, entries[i].name)
    ensures Lookup(entries, name) == Some(entries[i].handler)
  {
    if i > 0 {
      assert !Same(entries[0].name, entries[i].name);
      LookupAt(entries[1..], i - 1, name);
    }
  }

  lemma {:induction false} LookupVariant(entries: seq<Entry>, name: string, variant: string)
    requires Same(name, variant)
    ensures Lookup(entries, name) == Lookup(entries, variant)
  {
    if entries != [] {
      LookupVariant(entries[1..], name, variant);
    }
  }

  // ---- Runs

  lemma DistinctByLength(b: seq<Entry>)
    requires forall i, j :: 0 <= i < j < |b| ==> |b[i].name| != |b[j].name| && b[i].handler != b[j].handler
    requires forall i :: 0 <= i < |b| ==> !b[i].handler.User?
    ensures Inv(b, b)
  {
    assert b[0..] == b;
  }

  /** The five names differ already in length. */
  lemma BuiltinsHold()
    ensures Inv(BUILTINS, BUILTINS)
  {
    BuiltinLengths();
    DistinctByLength(BUILTINS);
  }

  lemma BuiltinLengths()
    ensures |BUILTINS| == 5
    ensures |BUILTINS[0].name| == 13 && |BUILTINS[1].name| == 17 && |BUILTINS[2].name| == 24
    ensures |BUILTINS[3].name| == 22 && |BUILTINS[4].name| == 30
  {
  }

  /** A new name is not the same as any registered name. */
  lemma AttemptKeepsInv(entries: seq<Entry>, base: seq<Entry>, a: Attempt)
    requires Inv(entries, base)
    ensures Inv(Attempted(entries, a), base)
  {
    var entries' := Attempted(entries, a);
    if entries' != entries {
      LookupMeaning(entries, a.name.value);
      assert forall i :: 0 < i < |entries'| ==> entries'[i] == entries[i - 1];
    }
  }

  lemma AttemptKeepsLookup(entries: seq<Entry>, a: Attempt, name: string)
    requires Lookup(entries, name).Some?
    ensures Lookup(Attempted(entries, a), name) == Lookup(entries, name)
  {
    var entries' := Attempted(entries, a);
    if entries' != entries {
      if Same(name, a.name.value) {
        LookupVariant(entries, name, a.name.value);
      }
      assert entries'[1..] == entries;
    }
  }

  /** Exactly which registrations are accepted, and why the others are not. */
  lemma RegisterCodeMeaning(entries: seq<Entry>, init: bool, name: Option<string>, handler: Option<Handler>)
    ensures var code := RegisterCode(entries, init, name, handler);
            var named := name.Some? && name.value != "";
            var taken := named && exists e :: e in entries && Same(name.value, e.name);
            var reserved := named && init && |name.value| >= 5 && name.value[..5] == "japi_";
            && (code == 0 <==> named && handler.Some? && !taken && !reserved)
            && (code == -2 <==> !named)
            && (code == -3 <==> named && handler.None?)
            && (code == -4 <==> named && handler.Some? && taken)
            && (code == -6 <==> named && handler.Some? && !taken && reserved)
  {
    if name.Some? {
      LookupMeaning(entries, name.value);
      assert forall i :: 0 <= i < |entries| ==> entries[i] in entries;
    }
  }

  /** Registering is inserting a new key into a map over names up to case, or changes no lookup at all. */
  lemma RegisterInserts(
    entries: seq<Entry>, init: bool, name: Option<string>, handler: Option<Handler>, probe: string)
    ensures Lookup(Register(entries, init, name, handler), probe) ==
            if RegisterCode(entries, init, name, handler) == 0 && Same(probe, name.value) then handler
            else Lookup(entries, probe)
    ensures RegisterCode(entries, init, name, handler) == 0 ==>
              Lookup(entries, probe) == None || !Same(probe, name.value)
  {
    var r := Register(entries, init, name, handler);
    if RegisterCode(entries, init, name, handler) == 0 {
      assert r[1..] == entries;
      if Same(probe, name.value) {
        LookupVariant(entries, probe, name.value);
      }
    }
  }

  /**
   * Over any run of registrations: the names stay distinct up to case, and whatever name resolves goes on
   * resolving to the same handler, under every spelling.
   */
  lemma {:induction false} RunIsStable(
    entries: seq<Entry>, base: seq<Entry>, attempts: seq<Attempt>, name: string, variant: string)
    requires Inv(entries, base) && Same(name, variant)
    ensures Inv(Run(entries, attempts), base)
    ensures Lookup(entries, name).Some? ==> Lookup(Run(entries, attempts), variant) == Lookup(entries, name)
    decreases |attempts|
  {
    if attempts == [] {
      LookupVariant(entries, name, variant);
    } else {
      AttemptKeepsInv(entries, base, attempts[0]);
      if Lookup(entries, name).Some? {
        AttemptKeepsLookup(entries, attempts[0], name);
      }
      RunIsStable(Attempted(entries, attempts[0]), base, attempts[1..], name, variant);
    }
  }

  lemma {:induction false} RunThenRun(entries: seq<Entry>, a: seq<Attempt>, b: seq<Attempt>)
    ensures Run(entries, a + b) == Run(Run(entries, a), b)
    decreases |a|
  {
    if a == [] {
      assert a + b == b;
    } else {
      assert (a + b)[0] == a[0] && (a + b)[1..] == a[1..] + b;
      RunThenRun(Attempted(entries, a[0]), a[1..], b);
    }
  }

  lemma RunThrough(entries: seq<Entry>, attempts: seq<Attempt>, i: nat)
    requires i < |attempts|
    ensures Run(entries, attempts) == Run(Attempted(Run(entries, attempts[..i]), attempts[i]), attempts[i + 1..])
  {
    var after := attempts[i + 1..];
    assert ([attempts[i]] + after)[1..] == after;
    assert attempts == attempts[..i] + ([attempts[i]] + after);
    RunThenRun(entries, attempts[..i], [attempts[i]] + after);
  }

  lemma AcceptedResolves(entries: seq<Entry>, name: string, id: int, variant: string)
    requires RegisterCode(entries, true, Some(name), Some(User(id))) == 0 && Same(variant, name)
    ensures Lookup(Attempted(entries, Attempt(Some(name), Some(id))), variant) == Some(User(id))
  {
    RegisterInserts(entries, true, Some(name), Some(User(id)), variant);
  }

  lemma AcceptedStays(base: seq<Entry>, attempts: seq<Attempt>, i: nat, name: string, id: int, variant: string)
    requires Inv(base, base) && i < |attempts| && attempts[i] == Attempt(Some(name), Some(id)) && Same(variant, name)
    requires RegisterCode(Run(base, attempts[..i]), true, Some(name), Some(User(id))) == 0
    ensures Lookup(Run(base, attempts), variant) == Some(User(id))
  {
    var before := Run(base, attempts[..i]);
    RunIsStable(base, base, attempts[..i], variant, variant);
    AttemptKeepsInv(before, base, attempts[i]);
    AcceptedResolves(before, name, id, variant);
    RunThrough(base, attempts, i);
    RunIsStable(Attempted(before, attempts[i]), base, attempts[i + 1..], variant, variant);
  }

  /** What a registration of the user's has been accepted for is there for good, under every spelling. */
  lemma AcceptedIsThere(attempts: seq<Attempt>, i: nat, name: string, id: int, variant: string)
    requires i < |attempts| && attempts[i] == Attempt(Some(name), Some(id)) && Same(variant, name)
    requires RegisterCode(Run(BUILTINS, attempts[..i]), true, Some(name), Some(User(id))) == 0
    ensures Lookup(Run(BUILTINS, attempts), variant) == Some(User(id))
  {
    BuiltinsHold();
    AcceptedStays(BUILTINS, attempts, i, name, id, variant);
  }

  lemma BaseStands(entries: seq<Entry>, base: seq<Entry>, name: string, b: nat)
    requires Inv(entries, base) && b < |base|
    ensures Lookup(entries, name) == Some(base[b].handler) <==> Same(name, base[b].name)
  {
    var k := |entries| - |base|;
    assert forall i :: 0 <= i < |base| ==> entries[k + i] == base[i];
    if Same(name, base[b].name) {
      LookupAt(entries, k + b, name);
    }
    if Lookup(entries, name) == Some(base[b].handler) {
      LookupMeaning(entries, name);
      var i :| 0 <= i < |entries| && Same(name, entries[i].name) && Lookup(entries, name) == Some(entries[i].handler);
      assert i >= k;
      assert entries[i] == base[i - k];
    }
  }

  /**
   * After japi_init and any registrations the built-in entries are neither shadowed nor replaced: a name
   * resolves to a built-in handler if and only if it is that handler's own name, in some spelling.
   */
  lemma BuiltinsStand(attempts: seq<Attempt>, name: string, b: nat)
    requires b < |BUILTINS|
    ensures Lookup(Run(BUILTINS, attempts), name) == Some(BUILTINS[b].handler) <==> Same(name, BUILTINS[b].name)
  {
    BuiltinsHold();
    StandsAfterRun(BUILTINS, attempts, name, b);
  }

  lemma StandsAfterRun(base: seq<Entry>, attempts: seq<Attempt>, name: string, b: nat)
    requires Inv(base, base) && b < |base|
    ensures Lookup(Run(base, attempts), name) == Some(base[b].handler) <==> Same(name, base[b].name)
  {
    RunIsStable(base, base, attempts, name, name);
    BaseStands(Run(base, attempts), base, name, b);
  }

  /** A name that begins with "japi_" in some spelling. */
  predicate LooksReserved(name: string) {
    |name| >= 5 && Same(name[..5], "japi_")
  }

  /**
   * Lookup ignores case but the check for the reserved prefix does not: a free name that looks reserved is
   * refused exactly when it is spelt in lower case.
   */
  lemma ReservedOnlyInLowerCase(entries: seq<Entry>, name: string, handler: Handler)
    requires LooksReserved(name) && Lookup(entries, name) == None
    ensures RegisterCode(entries, true, Some(name), Some(handler)) == 0 <==> name[..5] != "japi_"
    ensures RegisterCode(entries, true, Some(name), Some(handler)) == -6 <==> name[..5] == "japi_"
  {
  }

  /** A user can register a request called "JAPI_x" beside the built-in ones. */
  lemma UpperCaseIsAccepted(handler: Handler)
    ensures LooksReserved("JAPI_x")
    ensures RegisterCode(BUILTINS, true, Some("JAPI_x"), Some(handler)) == 0
  {
    BuiltinLengths();
    UpperCaseIsFree(BUILTINS, "JAPI_x", handler);
  }

  lemma UpperCaseIsFree(entries: seq<Entry>, name: string, handler: Handler)
    requires |name| == 6 && name[0] == 'J' && name[1] == 'A' && name[2] == 'P' && name[3] == 'I' && name[4] == '_'
    requires forall i :: 0 <= i < |entries| ==> |entries[i].name| > 6
    ensures LooksReserved(name) && RegisterCode(entries, true, Some(name), Some(handler)) == 0
  {
    FreshByLength(entries, name);
    var p := name[..5];
    assert p[0] == 'J' && p[1] == 'A' && p[2] == 'P' && p[3] == 'I' && p[4] == '_';
  }

  lemma FreshByLength(entries: seq<Entry>, name: string)
    requires forall i :: 0 <= i < |entries| ==> |entries[i].name| != |name|
    ensures Lookup(entries, name) == None
  {
    LookupMeaning(entries, name);
  }

  // ---- The list in the heap

  /** japi_request */
  class Request {
    const name: string
    const func: Handler
    var next: Request?

    constructor (name: string, func: Handler, next: Request?)
      ensures this.name == name && this.func == func && this.next == next
    {
      this.name, this.func, this.next := name, func, next;
    }
  }

  function RequestAt(nodes: seq<Request>, i: nat): Request? {
    if i < |nodes| then nodes[i] else null
  }

  class RequestList {
    var head: Request?              // ctx->requests
    var init: bool                  // ctx->init
    ghost var nodes: seq<Request>
    ghost var entries: seq<Entry>

    ghost predicate Valid()
      reads this, nodes
    {
      && head == RequestAt(nodes, 0)
      && (forall i {:trigger nodes[i].next} :: 0 <= i < |nodes| ==> nodes[i].next == RequestAt(nodes, i + 1))
      && |entries| == |nodes|
      && forall i :: 0 <= i < |nodes| ==> entries[i] == Entry(nodes[i].name, nodes[i].func)
    }

    /** An empty list, before the built-in requests are registered. */
    constructor Empty()
      ensures Valid() && !init && entries == []
    {
      head, init, nodes, entries := null, false, [], [];
    }

    /** One of the registrations in japi_init, whose names all have different lengths. */
    method AddBuiltin(name: string, handler: Handler)
      requires Valid() && name != "" && forall i :: 0 <= i < |entries| ==> |entries[i].name| != |name|
      modifies this
      ensures Valid() && init == old(init) && (!init ==> entries == [Entry(name, handler)] + old(entries))
    {
      FreshByLength(entries, name);
      var _ := AddRequest(Some(name), Some(handler));
    }

    /** japi_init: five registrations, then the flag that closes the reserved prefix. */
    method Initialise()
      requires Valid() && !init && entries == []
      modifies this
      ensures Valid() && init && entries == BUILTINS
    {
      AddBuiltin("japi_request_not_found_handler", NotFound);
      AddBuiltin("japi_pushsrv_subscribe", Subscribe);
      AddBuiltin("japi_pushsrv_unsubscribe", Unsubscribe);
      AddBuiltin("japi_pushsrv_list", ListServices);
      AddBuiltin("japi_cmd_list", ListCommands);
      init := true;
    }

    /** japi_get_request_handler */
    method GetHandler(name: string) returns (handler: Option<Handler>)
      requires Valid()
      ensures handler == Lookup(entries, name)
    {
      var req := head;
      ghost var k := 0;
      assert entries[0..] == entries;
      while req != null
        invariant k <= |nodes| && req == RequestAt(nodes, k)
        invariant Lookup(entries, name) == Lookup(entries[k..], name)
        decreases |nodes| - k
      {
        assert entries[k..][0] == Entry(req.name, req.func) && entries[k..][1..] == entries[k + 1..];
        if Same(name, req.name) {
          return Some(req.func);
        }
        req := req.next;
        k := k + 1;
      }
      return None;
    }

    /** japi_register_request on a context. */
    method AddRequest(name: Option<string>, handler: Option<Handler>) returns (ret: int)
      requires Valid()
      modifies this
      ensures Valid() && init == old(init)
      ensures ret == RegisterCode(old(entries), init, name, handler)
      ensures entries == Register(old(entries), init, name, handler)
    {
      if name == None || name.value == "" {
        return -2;
      }
      if handler == None {
        return -3;
      }
      var existing := GetHandler(name.value);
      if existing != None {
        return -4;
      }
      if init && Reserved(name.value) {
        return -6;
      }
      var req := new Request(name.value, handler.value, head);
      head := req;
      nodes, entries := [req] + nodes, [Entry(name.value, handler.value)] + entries;
      return 0;
    }
  }
}
