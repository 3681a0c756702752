/** What a lookup returns, field by field, after any history and under any user aliases. */
module RegistryLookup {
  import opened Options
  import opened Registry
  import opened RegistryRefinement
  import opened RegistryAliases

  /** The tool as its backend registered it, under a key. */
  ghost predicate Describes(found: Option<Entry>, key: string, x: string, b: string, e: Entry) {
    && found.Some?
    && found.value.name == key && found.value.originalName == x && found.value.backend == b
    && found.value.description == e.description && found.value.schema == e.schema && found.value.tags == e.tags
  }

  /** The index with the user's aliases. */
  function Aliased(r: Index, aliases: map<string, string>): Index { r.(aliases := aliases) }

  // ---- Namespaced keys ----

  lemma KeyFound(r: Index, m: Model, aliases: map<string, string>, b: string, x: string)
    requires Refines(r, m) && Has(m, b, x)
    ensures Describes(GetByName(Aliased(r, aliases), m[b].ns + "." + x), m[b].ns + "." + x, x, b, m[b].tools[x])
  {
    assert NsKey(m[b].ns, x) in r.tools && r.tools[NsKey(m[b].ns, x)] == NsEntry(b, m[b].ns, m[b].tools[x]);
    assert Original(m[b].tools[x]) == x;
  }

  /** After any history and under any user aliases, a tool is found under its namespace and name. */
  lemma FoundByKey(rs: seq<Index>, ms: seq<Model>, ops: seq<Op>, i: nat, aliases: map<string, string>,
                   b: string, x: string)
    requires History(rs, ms, ops) && i < |rs| && Has(ms[i], b, x)
    ensures var key := ms[i][b].ns + "." + x;
      Describes(GetByName(Aliased(rs[i], aliases), key), key, x, b, ms[i][b].tools[x])
  {
    IndexRefinesMap(rs, ms, ops, i);
    KeyFound(rs[i], ms[i], aliases, b, x);
  }

  lemma KeyIff(r: Index, m: Model, name: string)
    requires Refines(r, m) && r.aliases == map[] && '.' in name
    ensures GetByName(r, name).Some? <==> exists b, x :: Has(m, b, x) && name == m[b].ns + "." + x
  {
    hide OwnersOk, NamesOk, KeysOk;
    if name in r.tools {
      var b, x :| Has(m, b, x) && name == NsKey(m[b].ns, x);
      assert Has(m, b, x) && name == m[b].ns + "." + x;
    }
    if b, x :| Has(m, b, x) && name == m[b].ns + "." + x { assert NsKey(m[b].ns, x) in r.tools; }
  }

  /** Without user aliases a name with a dot is found exactly if it is the namespace and name of a tool. */
  lemma FoundByKeyIff(rs: seq<Index>, ms: seq<Model>, ops: seq<Op>, i: nat, name: string)
    requires History(rs, ms, ops) && i < |rs| && '.' in name
    ensures GetByName(rs[i], name).Some? <==> exists b, x :: Has(ms[i], b, x) && name == ms[i][b].ns + "." + x
  {
    hide Refines, GetByName, Do, DoModel, Legal;
    IndexRefinesMap(rs, ms, ops, i);
    NoUserAliases(rs, ms, ops, i);
    KeyIff(rs[i], ms[i], name);
  }

  // ---- What was registered last ----

  function BareName(e: Entry): string { if e.originalName != "" then e.originalName else e.name }

  lemma {:induction false} ListedAt(list: seq<Entry>, k: nat)
    requires Proper(list) && k < |list|
    ensures BareName(list[k]) in ToolMap(list) && ToolMap(list)[BareName(list[k])] == list[k]
  {
    var n := |list| - 1;
    LastIsNew(list);
    if k < n { ListedAt(list[..n], k); }
  }

  /** Right after a registration, live or cached, each tool on its list is found, with its own fields. */
  lemma RegisteredIsFound(rs: seq<Index>, ms: seq<Model>, ops: seq<Op>, i: nat, aliases: map<string, string>, k: nat)
    requires History(rs, ms, ops) && i < |ops| && ops[i].RegisterOp? && k < |ops[i].list|
    ensures var e := ops[i].list[k]; var key := ops[i].ns + "." + BareName(e);
      Describes(GetByName(Aliased(rs[i + 1], aliases), key), key, BareName(e), ops[i].backend, e)
  {
    ListedAt(ops[i].list, k);
    assert Has(ms[i + 1], ops[i].backend, BareName(ops[i].list[k]));
    FoundByKey(rs, ms, ops, i + 1, aliases, ops[i].backend, BareName(ops[i].list[k]));
  }

  lemma SameNs(m: Model, b: string, c: string, x: string, y: string)
    requires NamesOk(m) && b in m && Has(m, c, y) && !Dotted(x) && m[b].ns + "." + x == m[c].ns + "." + y
    ensures c == b && y == x
  {
    assert NsKey(m[b].ns, x) == NsKey(m[c].ns, y);
    NsKeyInjective(m[b].ns, x, m[c].ns, y);
  }

  /** Right after a removal or a registration that leaves a tool out, it is not found under the namespace. */
  lemma GoneIsNotFound(rs: seq<Index>, ms: seq<Model>, ops: seq<Op>, i: nat, x: string)
    requires History(rs, ms, ops) && i < |ops| && !Dotted(x) && ops[i].backend in ms[i]
    requires ops[i].RegisterOp? ==> ops[i].ns == ms[i][ops[i].backend].ns
    requires ops[i].RegisterOp? ==> forall k :: 0 <= k < |ops[i].list| ==> BareName(ops[i].list[k]) != x
    ensures GetByName(rs[i + 1], ms[i][ops[i].backend].ns + "." + x).None?
  {
    hide Register, Remove, GetByName, ToolsOk, OwnersOk, KeysOk;
    var b, m, m' := ops[i].backend, ms[i], ms[i + 1];
    var name := m[b].ns + "." + x;
    assert name[|m[b].ns|] == '.';
    FoundByKeyIff(rs, ms, ops, i + 1, name);
    IndexRefinesMap(rs, ms, ops, i);
    IndexRefinesMap(rs, ms, ops, i + 1);
    if c, y :| Has(m', c, y) && name == m'[c].ns + "." + y {
      if c == b {
        ToolMapNames(ops[i].list);
        SameNs(m', b, b, x, y);
      } else {
        assert Has(m, c, y);
        SameNs(m, b, c, x, y);
      }
    }
  }

  // ---- Bare names ----

  lemma OneOwnerOnly(r: Index, m: Model, b: string, x: string)
    requires OwnersOk(r.owners, m) && Has(m, b, x) && forall c :: Has(m, c, x) ==> c == b
    ensures |OwnersOf(r, x)| == 1
  {
    var os := r.owners[x];
    assert OwnersOfOk(os, m, x);
    forall i | 0 <= i < |os| ensures os[i] == Owner(b, m[b].ns) { assert os[i] in os; }
    assert os[0] == os[|os| - 1];
  }

  /** After live registrations of new backends and removals, a name only one backend has is found as that one's. */
  lemma FoundByName(rs: seq<Index>, ms: seq<Model>, ops: seq<Op>, i: nat, aliases: map<string, string>,
                    b: string, x: string)
    requires History(rs, ms, ops) && FreshLive(ms, ops) && i < |rs|
    requires Has(ms[i], b, x) && forall c :: Has(ms[i], c, x) ==> c == b
    ensures Describes(GetByName(Aliased(rs[i], aliases), x), x, x, b, ms[i][b].tools[x])
  {
    IndexRefinesMap(rs, ms, ops, i);
    SoleOwnersResolve(rs, ms, ops, i);
    OneOwnerOnly(rs[i], ms[i], b, x);
  }

  /** And a name two backends have is found as nobody's. */
  lemma SharedIsNotFound(rs: seq<Index>, ms: seq<Model>, ops: seq<Op>, i: nat, b: string, c: string, x: string)
    requires History(rs, ms, ops) && FreshLive(ms, ops) && i < |rs|
    requires Has(ms[i], b, x) && Has(ms[i], c, x) && b != c
    ensures GetByName(rs[i], x).None?
  {
    var r, m := rs[i], ms[i];
    IndexRefinesMap(rs, ms, ops, i);
    SoleOwnersResolve(rs, ms, ops, i);
    NoUserAliases(rs, ms, ops, i);
    var os := r.owners[x];
    assert OwnersOfOk(os, m, x) && Owner(b, m[b].ns) in os && Owner(c, m[c].ns) in os;
  }

  // ---- User aliases ----

  /** User aliases never shadow a key, lead to the key they name, and lead no further than one step. */
  lemma AliasesResolve(r: Index, aliases: map<string, string>, name: string)
    ensures name in r.tools ==> GetByName(Aliased(r, aliases), name) == GetByName(Aliased(r, map[]), name)
    ensures name !in r.tools && name in aliases && aliases[name] in r.tools
            ==> GetByName(Aliased(r, aliases), name) == GetByName(Aliased(r, map[]), aliases[name])
    ensures name !in r.tools && (name in aliases ==> aliases[name] !in r.tools)
            ==> GetByName(Aliased(r, aliases), name).None?
  {
  }

  /** So an alias for a tool's namespaced key, if it is no key itself, finds that tool. */
  lemma FoundByAlias(rs: seq<Index>, ms: seq<Model>, ops: seq<Op>, i: nat, aliases: map<string, string>,
                     name: string, b: string, x: string)
    requires History(rs, ms, ops) && i < |rs| && Has(ms[i], b, x)
    requires GetByName(rs[i], name).None? && name in aliases && aliases[name] == ms[i][b].ns + "." + x
    ensures Describes(GetByName(Aliased(rs[i], aliases), name), aliases[name], x, b, ms[i][b].tools[x])
  {
    IndexRefinesMap(rs, ms, ops, i);
    KeyFound(rs[i], ms[i], map[], b, x);
    assert NsKey(ms[i][b].ns, x) in rs[i].tools;
    AliasesResolve(rs[i], aliases, name);
  }
}
