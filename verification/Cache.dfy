/**
 The tool cache of src/cache.rs: the registry saved through `snapshot` (src/registry.rs) and loaded through
 cached registration.  The file itself, and its JSON text, are taken to give back what was written.
 */
module Cache {
  import opened Registry
  import opened RegistryObject

  const VERSION := 4

  datatype ToolCache = ToolCache(version: nat, backends: map<string, seq<Entry>>)

  predicate IsBare(e: Entry) { e.originalName != "" && e.name == e.originalName }

  predicate SamePair(e: Entry, f: Entry) { e.backend == f.backend && e.originalName == f.originalName }

  predicate HasNamespaced(tools: map<string, Entry>, e: Entry) {
    exists k :: k in tools && SamePair(tools[k], e) && tools[k].name != tools[k].originalName
  }

  /** Worth saving: not a bare alias beside its namespaced entry. */
  predicate Kept(tools: map<string, Entry>, e: Entry) { !(IsBare(e) && HasNamespaced(tools, e)) }

  // ---- What a snapshot is, whatever the order the concurrent map is walked in ----

  ghost predicate Lists(s: map<string, seq<Entry>>, e: Entry) {
    e.backend in s && exists i :: 0 <= i < |s[e.backend]| && SamePair(s[e.backend][i], e)
  }

  ghost predicate FromTools(tools: map<string, Entry>, s: map<string, seq<Entry>>) {
    forall b, e :: b in s && e in s[b] ==> e.backend == b && Kept(tools, e) && exists k :: k in tools && tools[k] == e
  }

  ghost predicate Distinct(s: map<string, seq<Entry>>) {
    forall b, i, j :: b in s && 0 <= i < j < |s[b]| ==> s[b][i].originalName != s[b][j].originalName
  }

  /** Exactly one entry for each (backend, original name), the namespaced one if there is one. */
  ghost predicate IsSnapshot(tools: map<string, Entry>, s: map<string, seq<Entry>>) {
    FromTools(tools, s) && Distinct(s) && forall k :: k in tools ==> Lists(s, tools[k])
  }

  function Push(s: map<string, seq<Entry>>, e: Entry): map<string, seq<Entry>> {
    s[e.backend := (if e.backend in s then s[e.backend] else []) + [e]]
  }

  lemma PushListed(s: map<string, seq<Entry>>, e: Entry, f: Entry)
    ensures Lists(Push(s, e), f) <==> Lists(s, f) || SamePair(e, f)
  {
    var t := Push(s, e)[e.backend];
    if SamePair(e, f) { assert SamePair(t[|t| - 1], f); }
    if Lists(s, f) && f.backend == e.backend {
      var i :| 0 <= i < |s[f.backend]| && SamePair(s[f.backend][i], f);
      assert t[i] == s[f.backend][i];
    }
  }

  lemma PushKeeps(tools: map<string, Entry>, s: map<string, seq<Entry>>, k: string)
    requires k in tools && Kept(tools, tools[k]) && FromTools(tools, s) && Distinct(s) && !Lists(s, tools[k])
    ensures FromTools(tools, Push(s, tools[k])) && Distinct(Push(s, tools[k]))
  {
    var e := tools[k];
    var t: map<string, seq<Entry>> := Push(s, e);
    forall b: string, i, j | b in t && 0 <= i < j < |t[b]| ensures t[b][i].originalName != t[b][j].originalName {
      if b == e.backend && j == |t[b]| - 1 {
        assert s[b][i] in s[b];
        assert !SamePair(s[b][i], e);
      }
    }
  }

  method Snapshot(tools: map<string, Entry>) returns (result: map<string, seq<Entry>>)
    ensures IsSnapshot(tools, result)
  {
    result := map[];
    var seen: set<(string, string)> := {};
    var left := tools.Keys;
    while left != {}
      invariant left <= tools.Keys && FromTools(tools, result) && Distinct(result)
      invariant forall e: Entry :: (e.backend, e.originalName) in seen <==> Lists(result, e)
      invariant forall k :: k in tools && k !in left ==> Lists(result, tools[k]) || !Kept(tools, tools[k])
      decreases |left|
    {
      var k :| k in left;
      left := left - {k};
      var e := tools[k];
      if (e.backend, e.originalName) in seen { continue; }
      if IsBare(e) && HasNamespaced(tools, e) { continue; }
      seen := seen + {(e.backend, e.originalName)};
      PushKeeps(tools, result, k);
      forall f ensures Lists(Push(result, e), f) <==> Lists(result, f) || SamePair(e, f) { PushListed(result, e, f); }
      result := Push(result, e);
    }
    forall k | k in tools ensures Lists(result, tools[k]) {
      if !Kept(tools, tools[k]) {
        var n :| n in tools && SamePair(tools[n], tools[k]) && tools[n].name != tools[n].originalName;
        assert Kept(tools, tools[n]) && Lists(result, tools[n]);
      }
    }
  }

  predicate Readable(cache: ToolCache) { 1 <= cache.version <= VERSION }

  method Save(r: ToolRegistry) returns (cache: ToolCache)
    ensures cache.version == 4 && Readable(cache) && IsSnapshot(r.tools, cache.backends)
  {
    var backends := Snapshot(r.tools);
    cache := ToolCache(VERSION, backends);
  }

  // ---- Loading ----

  function MigrateOne(e: Entry): Entry { if e.originalName == "" then e.(originalName := e.name) else e }

  /** Caches before version 3 have no original names. */
  function Migrate(list: seq<Entry>): seq<Entry> { seq(|list|, i requires 0 <= i < |list| => MigrateOne(list[i])) }

  function Migrated(cache: ToolCache, b: string): seq<Entry>
    requires b in cache.backends
  {
    if cache.version < 3 then Migrate(cache.backends[b]) else cache.backends[b]
  }

  function Loadable(cache: ToolCache, configured: seq<string>): set<string> {
    set b | b in cache.backends && b in configured
  }

  /** Cached registration of the given backends, one after the other. */
  function LoadAll(r: Index, order: seq<string>, backends: map<string, seq<Entry>>): Index
    requires forall b :: b in order ==> b in backends
  {
    if order == [] then r
    else
      var b := order[|order| - 1];
      Register(LoadAll(r, order[..|order| - 1], backends), b, b, backends[b], true)
  }

  function Total(order: seq<string>, backends: map<string, seq<Entry>>): nat
    requires forall b :: b in order ==> b in backends
  {
    if order == [] then 0 else Total(order[..|order| - 1], backends) + |backends[order[|order| - 1]]|
  }

  lemma MigrationOfOne(q: Index, b: string, ns: string, e: Entry, cached: bool)
    ensures RegisterOne(q, b, ns, MigrateOne(e), cached) == RegisterOne(q, b, ns, e, cached)
    ensures KeysOfOne(q, b, ns, MigrateOne(e), cached) == KeysOfOne(q, b, ns, e, cached)
  {
    assert NsEntry(b, ns, MigrateOne(e)) == NsEntry(b, ns, e);
  }

  lemma {:induction false} MigrationOfList(q: Index, b: string, ns: string, list: seq<Entry>, cached: bool)
    ensures RegisterTools(q, b, ns, Migrate(list), cached) == RegisterTools(q, b, ns, list, cached)
    ensures RegisteredKeys(q, b, ns, Migrate(list), cached) == RegisteredKeys(q, b, ns, list, cached)
  {
    if list != [] {
      var n := |list| - 1;
      MigrationOfList(q, b, ns, list[..n], cached);
      assert Migrate(list)[..n] == Migrate(list[..n]);
      MigrationOfOne(RegisterTools(q, b, ns, list[..n], cached), b, ns, list[n], cached);
    }
  }

  /** Migration fills in what registration would have read anyway. */
  lemma MigrationIsSilent(r: Index, cache: ToolCache, b: string, cached: bool)
    requires b in cache.backends
    ensures |Migrated(cache, b)| == |cache.backends[b]|
    ensures Register(r, b, b, Migrated(cache, b), cached) == Register(r, b, b, cache.backends[b], cached)
  {
    MigrationOfList(CleanUp(r, b), b, b, cache.backends[b], cached);
  }

  /** What is registered from a cache of any version has an original name, the name itself where there was none, and is
      otherwise as it was saved. */
  lemma MigratedNames(cache: ToolCache, b: string, i: nat)
    requires b in cache.backends && i < |cache.backends[b]|
    ensures |Migrated(cache, b)| == |cache.backends[b]|
    ensures var e, m := cache.backends[b][i], Migrated(cache, b)[i];
      && m.originalName == (if cache.version <= 2 && e.originalName == "" then e.name else e.originalName)
      && m.name == e.name && m.description == e.description && m.backend == e.backend
      && m.schema == e.schema && m.tags == e.tags
  {
  }

  lemma LoadOneMore(r: Index, cache: ToolCache, order: seq<string>, b: string)
    requires b in cache.backends && forall c :: c in order ==> c in cache.backends
    ensures LoadAll(r, order + [b], cache.backends)
         == Register(LoadAll(r, order, cache.backends), b, b, Migrated(cache, b), true)
    ensures Total(order + [b], cache.backends) == Total(order, cache.backends) + |Migrated(cache, b)|
  {
    assert (order + [b])[..|order|] == order;
    MigrationIsSilent(LoadAll(r, order, cache.backends), cache, b, true);
  }

  method Load(cache: ToolCache, r: ToolRegistry, configured: seq<string>) returns (total: nat, ghost order: seq<string>)
    modifies r
    ensures !Readable(cache) ==> total == 0 && r.View() == old(r.View())
    ensures Readable(cache) ==>
              && Enumerates(order, Loadable(cache, configured))
              && r.View() == LoadAll(old(r.View()), order, cache.backends)
              && total == Total(order, cache.backends)
  {
    total, order := 0, [];
    if !Readable(cache) { return; }
    var left := Loadable(cache, configured);
    while left != {}
      invariant left <= Loadable(cache, configured) && Enumerates(order, Loadable(cache, configured) - left)
      invariant r.View() == LoadAll(old(r.View()), order, cache.backends)
      invariant total == Total(order, cache.backends)
      decreases |left|
    {
      var b :| b in left;
      LoadOneMore(old(r.View()), cache, order, b);
      total := total + |Migrated(cache, b)|;
      r.RegisterBackendTools(b, b, Migrated(cache, b), true);
      order := order + [b];
      left := left - {b};
    }
  }
}
