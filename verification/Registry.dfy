/**
 The tool registry of src/registry.rs: a flat index of namespaced keys and bare-name aliases, with the
 owners of every bare name.  Tool schemas are opaque.
 */
module Registry {
  import opened Options

  datatype Entry = Entry(name: string, originalName: string, description: string, backend: string,
                         schema: nat, tags: seq<string>)

  datatype Owner = Owner(backend: string, ns: string)

  datatype Index = Index(
    tools: map<string, Entry>,
    backendTools: map<string, seq<string>>,
    owners: map<string, seq<Owner>>,
    aliases: map<string, string>
  )

  const EMPTY := Index(map[], map[], map[], map[])

  function Original(e: Entry): string { if e.originalName == "" then e.name else e.originalName }

  function NsKey(ns: string, original: string): string { ns + "." + original }

  function NsEntry(backend: string, ns: string, e: Entry): Entry {
    Entry(NsKey(ns, Original(e)), Original(e), e.description, backend, e.schema, e.tags)
  }

  function BareEntry(backend: string, original: string, e: Entry): Entry {
    Entry(original, original, e.description, backend, e.schema, e.tags)
  }

  // ---- Owners ----

  function Without(os: seq<Owner>, backend: string): (r: seq<Owner>)
    ensures forall o :: o in r <==> o in os && o.backend != backend
    ensures |r| <= |os|
  {
    if os == [] then [] else
      Without(os[..|os| - 1], backend) + if os[|os| - 1].backend == backend then [] else [os[|os| - 1]]
  }

  function Forget(owners: map<string, seq<Owner>>, backend: string): map<string, seq<Owner>> {
    map x | x in owners && Without(owners[x], backend) != [] :: Without(owners[x], backend)
  }

  function OwnersOf(r: Index, x: string): seq<Owner> { if x in r.owners then r.owners[x] else [] }

  // ---- Registration ----

  function Keys(keys: seq<string>): set<string> { set k | k in keys }

  /** In-place re-registration first forgets what the backend had. */
  function CleanUp(r: Index, backend: string): Index {
    if backend in r.backendTools then
      r.(owners := Forget(r.owners, backend), tools := r.tools - Keys(r.backendTools[backend]))
    else r
  }

  function AddOwner(r: Index, x: string, o: Owner): Index {
    r.(owners := r.owners[x := OwnersOf(r, x) + [o]])
  }

  /** One tool: its namespaced key, its owner and, unless the tools come from the cache, its bare alias. */
  function RegisterOne(r: Index, backend: string, ns: string, e: Entry, cached: bool): Index {
    var x := Original(e);
    var q := AddOwner(r.(tools := r.tools[NsKey(ns, x) := NsEntry(backend, ns, e)]), x, Owner(backend, ns));
    if cached then q
    else if |q.owners[x]| == 1 then q.(tools := q.tools[x := BareEntry(backend, x, e)])
    else if |q.owners[x]| == 2 then q.(tools := q.tools - {x})
    else q
  }

  function KeysOfOne(r: Index, backend: string, ns: string, e: Entry, cached: bool): seq<string> {
    [NsKey(ns, Original(e))] + if !cached && OwnersOf(r, Original(e)) == [] then [Original(e)] else []
  }

  function RegisterTools(r: Index, backend: string, ns: string, list: seq<Entry>, cached: bool): Index {
    if list == [] then r
    else RegisterOne(RegisterTools(r, backend, ns, list[..|list| - 1], cached), backend, ns, list[|list| - 1], cached)
  }

  function RegisteredKeys(r: Index, backend: string, ns: string, list: seq<Entry>, cached: bool): seq<string> {
    if list == [] then []
    else RegisteredKeys(r, backend, ns, list[..|list| - 1], cached)
         + KeysOfOne(RegisterTools(r, backend, ns, list[..|list| - 1], cached), backend, ns, list[|list| - 1], cached)
  }

  function Register(r: Index, backend: string, ns: string, list: seq<Entry>, cached: bool): Index {
    var q := CleanUp(r, backend);
    var s := RegisterTools(q, backend, ns, list, cached);
    s.(backendTools := s.backendTools[backend := RegisteredKeys(q, backend, ns, list, cached)])
  }

  // ---- Removal ----

  /** The bare names whose collision a removal resolves. */
  function Resolved(r: Index, backend: string): set<string> {
    set x | x in Forget(r.owners, backend) && |r.owners[x]| > 1 && |Forget(r.owners, backend)[x]| == 1
  }

  /** Restoring one alias from the namespaced entry of the only owner left. */
  function Restore(tools: map<string, Entry>, x: string, o: Owner): map<string, Entry> {
    if NsKey(o.ns, x) in tools then tools[x := BareEntry(o.backend, x, tools[NsKey(o.ns, x)])] else tools
  }

  function RestoreAll(tools: map<string, Entry>, order: seq<string>, owners: map<string, seq<Owner>>)
    : map<string, Entry>
    requires forall x :: x in order ==> x in owners && owners[x] != []
  {
    if order == [] then tools
    else
      var x := order[|order| - 1];
      Restore(RestoreAll(tools, order[..|order| - 1], owners), x, owners[x][0])
  }

  ghost predicate Enumerates(order: seq<string>, xs: set<string>) {
    (forall x :: x in order <==> x in xs) && forall i, j :: 0 <= i < j < |order| ==> order[i] != order[j]
  }

  lemma Enumeration(xs: set<string>) returns (order: seq<string>)
    ensures Enumerates(order, xs)
  {
    if xs == {} {
      order := [];
    } else {
      var x :| x in xs;
      order := Enumeration(xs - {x});
      order := order + [x];
    }
  }

  /** `order` is the order in which the concurrent map happens to be walked. */
  function Remove(r: Index, backend: string, order: seq<string>): Index
    requires Enumerates(order, Resolved(r, backend))
  {
    if backend !in r.backendTools then r
    else
      var q := CleanUp(r, backend);
      q.(backendTools := r.backendTools - {backend}, tools := RestoreAll(q.tools, order, q.owners))
  }

  // ---- Lookup ----

  /** Direct lookup, then one level of user alias. */
  function GetByName(r: Index, name: string): Option<Entry> {
    if name in r.tools then Some(r.tools[name])
    else if name in r.aliases && r.aliases[name] in r.tools then Some(r.tools[r.aliases[name]])
    else None
  }
}
