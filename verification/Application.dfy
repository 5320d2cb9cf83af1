/** The two calls the server loop makes into the rest of the context, on its linked lists in the heap. */
module Application {
  import opened Bytes
  import opened System
  import opened ClientLists
  import opened Dispatch
  import Api
  import Conversations
  import Services
  import Sessions

  /**
   * Always true: a handle for the verifier. Core.Valid() below says what it says for every api with Look(api), and
   * a quantifier is only instantiated where its trigger occurs. So whoever merely passes Valid() on never has the
   * well-formedness of all those lists unfolded, and a proof that needs it asserts Look(api) first.
   */
  predicate Look(api: Api.Context) {
    true
  }

  /** Those parts of japi_context that requests work on, with the value they stand for. */
  class Core {
    const api: Api.Context
    const codec: Conversations.Codec
    ghost const calls: Sessions.Lib<App>
    ghost var app: App
    ghost var lists: set<ClientList>  // the subscriber lists,
    ghost var nodes: set<Client>      // and the nodes in them, removed ones included

    /** The functions that stand for the calls are the real ones. */
    ghost predicate Wired() {
      && (forall app, fd, line {:trigger Conversations.Answer(codec, app, fd, line)} ::
            (calls.proc)(app, fd, line) == Conversations.Answer(codec, app, fd, line))
      && (forall app: App, fd {:trigger Services.RemoveFromAll(app.services, fd)} ::
            (calls.drop)(app, fd) == app.(services := Services.RemoveFromAll(app.services, fd)))
    }

    /** The lists are well-formed and stand for `app`. */
    ghost predicate Intact()
      reads this, api, api.requests, api.requests.nodes, api.services, api.services.chain
      reads api.services.chain.services, api.services.lists, api.services.owner.Keys
    {
      Wired() && api.Valid() && api.Value() == app
    }

    /** The footprint is right and the lists intact, for those who Look. */
    ghost predicate Valid()
      reads this, api, api.requests, api.requests.nodes, api.services, api.services.chain
      reads api.services.chain.services, lists, nodes
    {
      forall a {:trigger Look(a)} :: a == api && Look(a) ==>
        lists == api.services.lists && nodes == api.services.owner.Keys && Intact()
    }

    constructor (api: Api.Context, codec: Conversations.Codec)
      requires api.Valid()
      ensures Valid() && this.api == api && this.codec == codec && app == api.Value()
      ensures calls == Conversations.Japi(codec)
      ensures lists == api.services.lists && nodes == api.services.owner.Keys
    {
      this.api, this.codec, this.calls := api, codec, Conversations.Japi(codec);
      this.app, this.lists, this.nodes := api.Value(), api.services.lists, api.services.owner.Keys;
    }

    /** What has come into the footprint has been allocated since. */
    twostate predicate Grew()
      reads this
    {
      lists == old(lists) && forall n :: n in nodes ==> n in old(nodes) || fresh(n)
    }

    /** japi_process_message, from text to text: what the loop calls at line 559. */
    method Process(fd: int, line: seq<byte>) returns (reply: Option<Bytes.Text>)
      requires Valid()
      modifies this`app, this`nodes, api.services, lists, nodes`next
      ensures Valid() == true && Grew() && (app, reply) == (calls.proc)(old(app), fd, line)
    {
      assert Look(api);
      reply := ProcessInside(fd, line);
      assert Intact() == true;
    }

    method ProcessInside(fd: int, line: seq<byte>) returns (reply: Option<Bytes.Text>)
      requires Intact() && lists == api.services.lists && nodes == api.services.owner.Keys
      modifies this`app, this`nodes, api.services, lists, nodes`next
      ensures Intact() == true && lists == api.services.lists && nodes == api.services.owner.Keys
      ensures Grew() && (app, reply) == (calls.proc)(old(app), fd, line)
    {
      ghost var answer := Conversations.Answer(codec, app, fd, line);
      var ret, response := api.ProcessMessage((codec.parse)(line), fd, codec.lib);
      reply := if response.Some? then Some((codec.serialise)(response.value)) else None;
      app, nodes := api.Value(), api.services.owner.Keys;
      assert api.Valid() == true;
    }

    /** japi_pushsrv_remove_client_from_all_pushsrv: what japi_remove_client calls at line 417. */
    method Drop(fd: int)
      requires Valid()
      modifies this`app, api.services, lists, nodes`next
      ensures Valid() == true && app == (calls.drop)(old(app), fd)
    {
      assert Look(api);
      DropInside(fd);
      assert Intact() == true;
    }

    method DropInside(fd: int)
      requires Intact() && lists == api.services.lists && nodes == api.services.owner.Keys
      modifies this`app, api.services, lists, nodes`next
      ensures Intact() == true && lists == api.services.lists && nodes == api.services.owner.Keys
      ensures app == (calls.drop)(old(app), fd)
    {
      ghost var services := Services.RemoveFromAll(app.services, fd);
      api.services.RemoveFromAll(fd);
      app := api.Value();
      assert api.services.Valid() == true;
      assert api.Valid() == true;
    }
  }
}
