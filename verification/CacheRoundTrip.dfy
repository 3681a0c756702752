/** Saving a registry and loading it back. */
module CacheRoundTrip {
  import opened Registry
  import opened RegistryRefinement
  import opened RegistryAliases
  import opened RegistryObject
  import opened Cache

  type Tools = map<string, Entry>

  type Saved = map<string, seq<Entry>>

  /** Namespaced under its backend's own name, or a bare alias; the bare name neither dotted nor empty. */
  ghost predicate PlainEntry(k: string, e: Entry) {
    && e.name == k && e.originalName != "" && !Dotted(e.originalName)
    && k == if Dotted(k) then NsKey(e.backend, e.originalName) else e.originalName
  }

  ghost predicate Plain(tools: Tools) { forall k :: k in tools ==> PlainEntry(k, tools[k]) }

  /** Every bare alias of a configured backend stands beside its namespaced entry. */
  ghost predicate Twinned(tools: Tools, configured: seq<string>) {
    forall x :: x in tools && !Dotted(x) && tools[x].backend in configured ==> HasNamespaced(tools, tools[x])
  }

  function Namespaced(tools: Tools, configured: seq<string>): Tools {
    map k | k in tools && Dotted(k) && tools[k].backend in configured :: tools[k]
  }

  // ---- The registry saved ----

  lemma TwinIff(tools: Tools, k: string)
    requires Plain(tools) && k in tools
    ensures HasNamespaced(tools, tools[k]) <==> NsKey(tools[k].backend, tools[k].originalName) in tools
    ensures Dotted(k) ==> HasNamespaced(tools, tools[k])
  {
    var e := tools[k];
    var key := NsKey(e.backend, e.originalName);
    NsKeyDotted(e.backend, e.originalName);
    if key in tools {
      assert PlainEntry(key, tools[key]);
      NsKeyInjective(tools[key].backend, tools[key].originalName, e.backend, e.originalName);
      assert SamePair(tools[key], e) && tools[key].name != tools[key].originalName;
    }
    if HasNamespaced(tools, e) {
      var n :| n in tools && SamePair(tools[n], e) && tools[n].name != tools[n].originalName;
      assert PlainEntry(n, tools[n]);
    }
    assert PlainEntry(k, e);
  }

  // ---- The snapshot ----

  /** An entry of a snapshot is the namespaced entry, or an alias without one. */
  lemma ListedEntry(tools: Tools, s: Saved, b: string, e: Entry)
    requires Plain(tools) && IsSnapshot(tools, s) && b in s && e in s[b]
    ensures e.backend == b && Original(e) == e.originalName && !Dotted(e.originalName)
    ensures var key := NsKey(b, e.originalName);
      if key in tools then e == tools[key] && NsEntry(b, b, e) == e
      else e.originalName in tools && e == tools[e.originalName]
  {
    assert FromTools(tools, s);
    var k :| k in tools && tools[k] == e;
    TwinIff(tools, k);
    assert PlainEntry(k, e) && Kept(tools, e);
  }

  lemma SnapshotProper(tools: Tools, s: Saved, b: string)
    requires Plain(tools) && IsSnapshot(tools, s) && b in s
    ensures Proper(s[b])
  {
    forall i | 0 <= i < |s[b]| ensures Original(s[b][i]) == s[b][i].originalName && !Dotted(Original(s[b][i])) {
      ListedEntry(tools, s, b, s[b][i]);
    }
  }

  // ---- The registry loaded ----

  function LoadedModel(order: seq<string>, s: Saved): Model
    requires forall b :: b in order ==> b in s
  {
    map b | b in order :: Reg(b, ToolMap(s[b]))
  }

  lemma NextLoaded(order: seq<string>, s: Saved)
    requires order != [] && forall b :: b in order ==> b in s
    ensures var n := |order| - 1;
      LoadedModel(order, s) == LoadedModel(order[..n], s)[order[n] := Reg(order[n], ToolMap(s[order[n]]))]
  {
    assert order == order[..|order| - 1] + [order[|order| - 1]];
  }

  lemma LoadOne(t: Index, m: Model, b: string, list: seq<Entry>)
    requires Refines(t, m) && NoBare(t) && Proper(list) && forall c :: c in m ==> m[c].ns == c
    ensures Refines(Register(t, b, b, list, true), m[b := Reg(b, ToolMap(list))])
    ensures NoBare(Register(t, b, b, list, true))
  {
    RegisterRefines(t, m, b, b, list, true);
    CachedToolsNoBare(CleanUp(t, b), b, b, list);
  }

  lemma {:induction false} LoadRefines(order: seq<string>, s: Saved)
    requires forall b :: b in order ==> b in s && Proper(s[b])
    ensures Refines(LoadAll(EMPTY, order, s), LoadedModel(order, s)) && NoBare(LoadAll(EMPTY, order, s))
  {
    if order != [] {
      var n := |order| - 1;
      LoadRefines(order[..n], s);
      NextLoaded(order, s);
      LoadOne(LoadAll(EMPTY, order[..n], s), LoadedModel(order[..n], s), order[n], s[order[n]]);
    }
  }

  lemma {:induction false} ToolMapEntries(list: seq<Entry>)
    requires Proper(list)
    ensures forall i :: 0 <= i < |list| ==>
              Original(list[i]) in ToolMap(list) && ToolMap(list)[Original(list[i])] == list[i]
  {
    if list != [] {
      var n := |list| - 1;
      ToolMapEntries(list[..n]);
      forall i | 0 <= i < n ensures Original(list[i]) in ToolMap(list) && ToolMap(list)[Original(list[i])] == list[i] {
        assert list[..n][i] == list[i];
      }
    }
  }

  /** What the cache registers are the entries of the snapshot. */
  lemma LoadedEntry(order: seq<string>, s: Saved, b: string, x: string)
    requires forall c :: c in order ==> c in s && Proper(s[c])
    requires Has(LoadedModel(order, s), b, x)
    ensures b in order && LoadedModel(order, s)[b].tools[x] in s[b] && Original(LoadedModel(order, s)[b].tools[x]) == x
  {
    ToolMapNames(s[b]);
    ToolMapEntries(s[b]);
    var i :| 0 <= i < |s[b]| && Original(s[b][i]) == x;
    assert LoadedModel(order, s)[b].tools[x] == s[b][i];
  }

  /** Loaded keys are entries of the snapshot, under their namespaced keys. */
  lemma LoadedKey(order: seq<string>, s: Saved, k: string) returns (b: string, e: Entry)
    requires forall b :: b in order ==> b in s && Proper(s[b])
    requires k in LoadAll(EMPTY, order, s).tools
    ensures b in order && e in s[b] && k == NsKey(b, Original(e))
    ensures LoadAll(EMPTY, order, s).tools[k] == NsEntry(b, b, e)
  {
    LoadRefines(order, s);
    var m := LoadedModel(order, s);
    var x: string;
    b, x :| Has(m, b, x) && k == NsKey(m[b].ns, x);
    LoadedEntry(order, s, b, x);
    e := m[b].tools[x];
  }

  /** And every entry of the snapshot is loaded. */
  lemma EntryLoaded(order: seq<string>, s: Saved, b: string, e: Entry)
    requires forall b :: b in order ==> b in s && Proper(s[b])
    requires b in order && e in s[b]
    ensures var k, t := NsKey(b, Original(e)), LoadAll(EMPTY, order, s).tools; k in t && t[k] == NsEntry(b, b, e)
  {
    LoadRefines(order, s);
    ToolMapEntries(s[b]);
    assert Has(LoadedModel(order, s), b, Original(e));
  }

  // ---- The round trip ----

  ghost predicate Loads(s: Saved, configured: seq<string>, order: seq<string>) {
    Enumerates(order, Loadable(ToolCache(VERSION, s), configured))
  }

  lemma ListsProper(tools: Tools, s: Saved, configured: seq<string>, order: seq<string>)
    requires Plain(tools) && IsSnapshot(tools, s) && Loads(s, configured, order)
    ensures forall b :: b in order ==> b in s && Proper(s[b])
  {
    forall b | b in order ensures Proper(s[b]) { SnapshotProper(tools, s, b); }
  }

  /** Every entry of a configured backend comes back under its namespaced key. */
  lemma PairLoaded(tools: Tools, s: Saved, configured: seq<string>, order: seq<string>, k: string)
    requires Plain(tools) && IsSnapshot(tools, s) && Loads(s, configured, order)
    requires k in tools && tools[k].backend in configured
    ensures NsKey(tools[k].backend, tools[k].originalName) in LoadAll(EMPTY, order, s).tools
  {
    var e := tools[k];
    ListsProper(tools, s, configured, order);
    assert Lists(s, e);
    var i :| 0 <= i < |s[e.backend]| && SamePair(s[e.backend][i], e);
    ListedEntry(tools, s, e.backend, s[e.backend][i]);
    EntryLoaded(order, s, e.backend, s[e.backend][i]);
  }

  /** With no orphan in sight, what comes back under a key is what stood there. */
  lemma LoadedSame(tools: Tools, s: Saved, configured: seq<string>, order: seq<string>, k: string)
    requires Plain(tools) && IsSnapshot(tools, s) && Loads(s, configured, order)
    requires Twinned(tools, configured) && k in LoadAll(EMPTY, order, s).tools
    ensures k in Namespaced(tools, configured) && LoadAll(EMPTY, order, s).tools[k] == tools[k]
  {
    ListsProper(tools, s, configured, order);
    var b, e := LoadedKey(order, s, k);
    ListedEntry(tools, s, b, e);
    NsKeyDotted(b, Original(e));
    if k !in tools { TwinIff(tools, e.originalName); }
  }

  lemma KeptLoaded(tools: Tools, s: Saved, configured: seq<string>, order: seq<string>, k: string)
    requires Plain(tools) && IsSnapshot(tools, s) && Loads(s, configured, order) && k in Namespaced(tools, configured)
    ensures k in LoadAll(EMPTY, order, s).tools
  {
    hide LoadAll, IsSnapshot;
    assert PlainEntry(k, tools[k]);
    PairLoaded(tools, s, configured, order, k);
  }

  lemma SameMap(t: Tools, u: Tools)
    requires forall k :: k in t ==> k in u && t[k] == u[k]
    requires forall k :: k in u ==> k in t
    ensures t == u
  {
  }

  lemma SameTools(tools: Tools, s: Saved, configured: seq<string>, order: seq<string>)
    requires Plain(tools) && IsSnapshot(tools, s) && Loads(s, configured, order) && Twinned(tools, configured)
    ensures LoadAll(EMPTY, order, s).tools == Namespaced(tools, configured)
  {
    hide LoadAll, IsSnapshot, Twinned, Plain;
    var t, kept := LoadAll(EMPTY, order, s).tools, Namespaced(tools, configured);
    forall k | k in t ensures k in kept && t[k] == kept[k] { LoadedSame(tools, s, configured, order, k); }
    forall k | k in kept ensures k in t { KeptLoaded(tools, s, configured, order, k); }
    SameMap(t, kept);
  }

  /** An alias whose backend no longer registers the name comes back as a namespaced entry that was not there. */
  lemma OrphanReturns(tools: Tools, s: Saved, configured: seq<string>, order: seq<string>, x: string)
    requires Plain(tools) && IsSnapshot(tools, s) && Loads(s, configured, order)
    requires x in tools && !Dotted(x) && tools[x].backend in configured && !HasNamespaced(tools, tools[x])
    ensures var key := NsKey(tools[x].backend, x); key in LoadAll(EMPTY, order, s).tools && key !in tools
  {
    assert PlainEntry(x, tools[x]);
    PairLoaded(tools, s, configured, order, x);
    TwinIff(tools, x);
  }

  /** Save, then cached load into an empty registry: no bare key, and exactly the namespaced entries of the
      configured backends if and only if every bare alias of theirs stood beside its namespaced entry. */
  lemma CacheRoundTripIff(tools: Tools, s: Saved, configured: seq<string>, order: seq<string>)
    requires Plain(tools) && IsSnapshot(tools, s) && Loads(s, configured, order)
    ensures NoBare(LoadAll(EMPTY, order, s))
    ensures LoadAll(EMPTY, order, s).tools == Namespaced(tools, configured) <==> Twinned(tools, configured)
  {
    ListsProper(tools, s, configured, order);
    LoadRefines(order, s);
    if Twinned(tools, configured) {
      SameTools(tools, s, configured, order);
    } else {
      var x :| x in tools && !Dotted(x) && tools[x].backend in configured && !HasNamespaced(tools, tools[x]);
      OrphanReturns(tools, s, configured, order, x);
    }
  }

  // ---- Registries with histories ----

  ghost predicate BareShaped(tools: Tools) {
    forall x :: x in tools && !Dotted(x) ==> x != "" && tools[x].name == x && tools[x].originalName == x
  }

  lemma RefinedIsPlain(r: Index, m: Model)
    requires Refines(r, m) && BareShaped(r.tools)
    requires PlainModel(m)
    ensures Plain(r.tools)
  {
    forall k | k in r.tools ensures PlainEntry(k, r.tools[k]) {
      if Dotted(k) {
        var b, x :| Has(m, b, x) && k == NsKey(m[b].ns, x);
        assert r.tools[k] == NsEntry(b, b, m[b].tools[x]);
      }
    }
  }

  ghost predicate PlainOps(ops: seq<Op>) {
    forall i :: 0 <= i < |ops| && ops[i].RegisterOp? ==>
      ops[i].ns == ops[i].backend && forall e :: e in ops[i].list ==> Original(e) != ""
  }

  ghost predicate PlainModel(m: Model) {
    (forall b :: b in m ==> m[b].ns == b) && (forall b, x :: Has(m, b, x) ==> x != "")
  }

  lemma OneBareShaped(s: Index, b: string, e: Entry, cached: bool)
    requires BareShaped(s.tools) && Original(e) != ""
    ensures BareShaped(RegisterOne(s, b, b, e, cached).tools)
  {
    NsKeyDotted(b, Original(e));
  }

  lemma {:induction false} ToolsBareShaped(q: Index, b: string, list: seq<Entry>, cached: bool)
    requires BareShaped(q.tools) && forall e :: e in list ==> Original(e) != ""
    ensures BareShaped(RegisterTools(q, b, b, list, cached).tools)
  {
    hide BareShaped, RegisterOne, Original;
    if list != [] {
      var n := |list| - 1;
      assert list[n] in list;
      ToolsBareShaped(q, b, list[..n], cached);
      OneBareShaped(RegisterTools(q, b, b, list[..n], cached), b, list[n], cached);
    }
  }

  lemma {:induction false} RestoredBareShaped(tools: Tools, order: seq<string>, owners: map<string, seq<Owner>>)
    requires BareShaped(tools) && (forall x :: x in order ==> x in owners && owners[x] != []) && "" !in order
    ensures BareShaped(RestoreAll(tools, order, owners))
  {
    if order != [] {
      assert order[|order| - 1] in order;
      RestoredBareShaped(tools, order[..|order| - 1], owners);
    }
  }

  lemma RegisterPlain(r: Index, m: Model, b: string, list: seq<Entry>, cached: bool)
    requires BareShaped(r.tools) && PlainModel(m) && Proper(list) && forall e :: e in list ==> Original(e) != ""
    ensures BareShaped(Register(r, b, b, list, cached).tools) && PlainModel(m[b := Reg(b, ToolMap(list))])
  {
    ToolsBareShaped(CleanUp(r, b), b, list, cached);
    var m' := m[b := Reg(b, ToolMap(list))];
    ToolMapNames(list);
    forall c, x | Has(m', c, x) ensures x != "" {
      if c != b { assert Has(m, c, x); }
    }
  }

  lemma NoEmptyOwner(r: Index, m: Model)
    requires Refines(r, m) && PlainModel(m)
    ensures "" !in r.owners
  {
    forall x | x in r.owners ensures x != "" {
      assert OwnersOfOk(r.owners[x], m, x);
      assert Has(m, r.owners[x][0].backend, x);
    }
  }

  lemma RemovePlain(r: Index, m: Model, b: string, order: seq<string>)
    requires Refines(r, m) && BareShaped(r.tools) && PlainModel(m) && Enumerates(order, Resolved(r, b))
    ensures BareShaped(Remove(r, b, order).tools) && PlainModel(m - {b})
  {
    forall c, x | Has(m - {b}, c, x) ensures x != "" { assert Has(m, c, x); }
    if b in m {
      NoEmptyOwner(r, m);
      RestoredBareShaped(CleanUp(r, b).tools, order, CleanUp(r, b).owners);
    }
  }

  lemma StepPlain(r: Index, m: Model, op: Op)
    requires Refines(r, m) && BareShaped(r.tools) && PlainModel(m) && Legal(r, m, op)
    requires op.RegisterOp? ==> op.ns == op.backend && forall e :: e in op.list ==> Original(e) != ""
    ensures BareShaped(Do(r, m, op).tools) && PlainModel(DoModel(m, op))
  {
    match op
    case RegisterOp(b, ns, list, cached) => RegisterPlain(r, m, b, list, cached);
    case RemoveOp(b, order) => RemovePlain(r, m, b, order);
  }

  lemma {:induction false} HistoriesBareShaped(rs: seq<Index>, ms: seq<Model>, ops: seq<Op>, i: nat)
    requires History(rs, ms, ops) && PlainOps(ops) && i < |rs|
    ensures BareShaped(rs[i].tools) && PlainModel(ms[i])
  {
    if i > 0 {
      HistoriesBareShaped(rs, ms, ops, i - 1);
      IndexRefinesMap(rs, ms, ops, i - 1);
      StepPlain(rs[i - 1], ms[i - 1], ops[i - 1]);
    }
  }

  /** Every history of backends registering non-empty names under their own gives a registry the round trip
      speaks of. */
  lemma HistoriesArePlain(rs: seq<Index>, ms: seq<Model>, ops: seq<Op>, i: nat)
    requires History(rs, ms, ops) && PlainOps(ops) && i < |rs|
    ensures Plain(rs[i].tools)
  {
    HistoriesBareShaped(rs, ms, ops, i);
    IndexRefinesMap(rs, ms, ops, i);
    RefinedIsPlain(rs[i], ms[i]);
  }

  /** The alias that outlived its owner is such an orphan: the cache brings a removed tool back. */
  lemma RemovedToolReturns() returns (r: Index)
    ensures Reached(r, map[])
    ensures forall s, order :: IsSnapshot(r.tools, s) && Loads(s, ["b"], order) ==>
              NsKey("b", "x") in LoadAll(EMPTY, order, s).tools
  {
    r := StaleAlias();
    forall s, order | IsSnapshot(r.tools, s) && Loads(s, ["b"], order)
      ensures NsKey("b", "x") in LoadAll(EMPTY, order, s).tools
    {
      OrphanReturns(r.tools, s, ["b"], order, "x");
    }
  }

  /** Through the methods themselves: what `save` writes, `load` reads. */
  method SaveThenLoad(saved: ToolRegistry, loaded: ToolRegistry, configured: seq<string>) returns (total: nat)
    requires saved != loaded && Plain(saved.tools) && loaded.View() == EMPTY
    modifies loaded
    ensures NoBare(loaded.View())
    ensures loaded.tools == Namespaced(saved.tools, configured) <==> Twinned(saved.tools, configured)
  {
    ghost var order;
    var cache := Save(saved);
    total, order := Load(cache, loaded, configured);
    CacheRoundTripIff(saved.tools, cache.backends, configured, order);
  }

  /** Versions 1 to 4 are read, whatever was saved, and no other. */
  lemma ReadableIff(cache: ToolCache)
    ensures Readable(cache) <==> cache.version in {1, 2, 3, 4}
  {
  }
}
