/** The registry as the source keeps it: four maps changed in place. */
module RegistryObject {
  import opened Registry

  class ToolRegistry {
    var tools: map<string, Entry>
    var backendTools: map<string, seq<string>>
    var owners: map<string, seq<Owner>>
    var aliases: map<string, string>

    function View(): Index
      reads this
    {
      Index(tools, backendTools, owners, aliases)
    }

    constructor ()
      ensures View() == EMPTY
    {
      tools, backendTools, owners, aliases := map[], map[], map[], map[];
    }

    method SetAliases(given: map<string, string>)
      modifies this`aliases
      ensures aliases == given
    {
      aliases := map[];
      var left := given.Keys;
      while left != {}
        invariant left <= given.Keys && aliases.Keys == given.Keys - left
        invariant forall a :: a in aliases ==> aliases[a] == given[a]
        decreases |left|
      {
        var a :| a in left;
        aliases := aliases[a := given[a]];
        left := left - {a};
      }
    }

    /** Deleting a list of keys. */
    method DropKeys(keys: seq<string>)
      modifies this`tools
      ensures tools == old(tools) - Keys(keys)
    {
      var i := 0;
      while i < |keys|
        invariant i <= |keys| && tools == old(tools) - Keys(keys[..i])
      {
        tools := tools - {keys[i]};
        assert Keys(keys[..i + 1]) == Keys(keys[..i]) + {keys[i]};
        i := i + 1;
      }
      assert keys[..i] == keys;
    }

    /** One tool of a registration: the keys it registers. */
    method RegisterTool(backend: string, ns: string, e: Entry, cached: bool) returns (keys: seq<string>)
      modifies this
      ensures View() == RegisterOne(old(View()), backend, ns, e, cached)
      ensures keys == KeysOfOne(old(View()), backend, ns, e, cached)
    {
      var x := Original(e);
      var key := NsKey(ns, x);
      tools := tools[key := NsEntry(backend, ns, e)];
      keys := [key];
      owners := owners[x := (if x in owners then owners[x] else []) + [Owner(backend, ns)]];
      if !cached {
        if |owners[x]| == 1 {
          tools := tools[x := BareEntry(backend, x, e)];
          keys := keys + [x];
        } else if |owners[x]| == 2 {
          tools := tools - {x};
        }
      }
    }

    /** `register_backend_tools_inner`. */
    method RegisterBackendTools(backend: string, ns: string, list: seq<Entry>, cached: bool)
      modifies this
      ensures View() == Register(old(View()), backend, ns, list, cached)
    {
      if backend in backendTools {
        owners := Forget(owners, backend);
        DropKeys(backendTools[backend]);
      }
      ghost var q := View();
      assert q == CleanUp(old(View()), backend);
      var registered := RegisterAll(backend, ns, list, cached);
      backendTools := backendTools[backend := registered];
    }

    method RegisterAll(backend: string, ns: string, list: seq<Entry>, cached: bool) returns (registered: seq<string>)
      modifies this
      ensures View() == RegisterTools(old(View()), backend, ns, list, cached)
      ensures registered == RegisteredKeys(old(View()), backend, ns, list, cached)
    {
      ghost var q := View();
      registered := [];
      var i := 0;
      while i < |list|
        invariant i <= |list|
        invariant View() == RegisterTools(q, backend, ns, list[..i], cached)
        invariant registered == RegisteredKeys(q, backend, ns, list[..i], cached)
      {
        assert list[..i + 1][..i] == list[..i];
        var keys := RegisterTool(backend, ns, list[i], cached);
        registered := registered + keys;
        i := i + 1;
      }
      assert list[..i] == list;
    }

    /** Restoring the aliases of resolved collisions, in whatever order they were met. */
    method RestoreAliases(resolved: set<string>) returns (ghost order: seq<string>)
      requires forall x :: x in resolved ==> x in owners && owners[x] != []
      modifies this`tools
      ensures Enumerates(order, resolved) && tools == RestoreAll(old(tools), order, owners)
    {
      var left := resolved;
      order := [];
      while left != {}
        invariant left <= resolved && Enumerates(order, resolved - left)
        invariant tools == RestoreAll(old(tools), order, owners)
        decreases |left|
      {
        var x :| x in left;
        assert (order + [x])[..|order|] == order;
        tools := Restore(tools, x, owners[x][0]);
        order := order + [x];
        left := left - {x};
      }
    }

    /** `remove_backend_tools`. */
    method RemoveBackendTools(backend: string) returns (ghost order: seq<string>)
      modifies this
      ensures Enumerates(order, Resolved(old(View()), backend))
      ensures View() == Remove(old(View()), backend, order)
    {
      if backend !in backendTools {
        order := Enumeration(Resolved(View(), backend));
        return;
      }
      var resolved := Resolved(View(), backend);
      DropKeys(backendTools[backend]);
      backendTools := backendTools - {backend};
      owners := Forget(owners, backend);
      order := RestoreAliases(resolved);
    }
  }
}
