/** The flat index refines the plain map from each backend to what it registered last. */
module RegistryRefinement {
  import opened Registry

  /** One backend's last registration: its namespace, and its tools by bare name. */
  datatype Reg = Reg(ns: string, tools: map<string, Entry>)

  type Model = map<string, Reg>

  function ToolMap(list: seq<Entry>): map<string, Entry> {
    if list == [] then map[] else ToolMap(list[..|list| - 1])[Original(list[|list| - 1]) := list[|list| - 1]]
  }

  predicate Dotted(key: string) { '.' in key }

  /** What the results assume of a list: bare names without dots, each once. */
  ghost predicate Proper(list: seq<Entry>) {
    && (forall i :: 0 <= i < |list| ==> !Dotted(Original(list[i])))
    && (forall i, j :: 0 <= i < j < |list| ==> Original(list[i]) != Original(list[j]))
  }

  ghost predicate Has(m: Model, b: string, x: string) { b in m && x in m[b].tools }

  ghost predicate NamesOk(m: Model) {
    && (forall b, x :: Has(m, b, x) ==> !Dotted(x) && Original(m[b].tools[x]) == x)
    && (forall b, c :: b in m && c in m && b != c ==> m[b].ns != m[c].ns)
  }

  /** The namespaced keys are exactly those of the registrations, with their entries. */
  ghost predicate ToolsOk(tools: map<string, Entry>, m: Model) {
    && (forall b, x :: Has(m, b, x) ==>
          NsKey(m[b].ns, x) in tools && tools[NsKey(m[b].ns, x)] == NsEntry(b, m[b].ns, m[b].tools[x]))
    && (forall key :: key in tools && Dotted(key) ==> exists b, x :: Has(m, b, x) && key == NsKey(m[b].ns, x))
  }

  /** The owners of a name are exactly the backends registering it, each once. */
  ghost predicate OwnersOk(owners: map<string, seq<Owner>>, m: Model) {
    && (forall x :: x in owners ==> owners[x] != [] && OwnersOfOk(owners[x], m, x))
    && (forall b, x :: Has(m, b, x) ==> x in owners)
  }

  /** The owners of one name. */
  ghost predicate OwnersOfOk(os: seq<Owner>, m: Model, x: string) {
    && (forall o :: o in os ==> Has(m, o.backend, x) && o.ns == m[o.backend].ns)
    && (forall b :: Has(m, b, x) ==> Owner(b, m[b].ns) in os)
    && (forall i, j :: 0 <= i < j < |os| ==> os[i] != os[j])
  }

  /** The keys remembered for a backend: all its namespaced keys, and bare names of its own. */
  ghost predicate KeysOk(keys: seq<string>, reg: Reg) {
    && (forall x :: x in reg.tools ==> NsKey(reg.ns, x) in keys)
    && (forall key :: key in keys ==> key in reg.tools || exists x :: x in reg.tools && key == NsKey(reg.ns, x))
  }

  ghost predicate CoreOk(s: Index, m: Model) { NamesOk(m) && ToolsOk(s.tools, m) && OwnersOk(s.owners, m) }

  ghost predicate Refines(r: Index, m: Model) {
    && CoreOk(r, m)
    && r.backendTools.Keys == m.Keys
    && (forall b :: b in m ==> KeysOk(r.backendTools[b], m[b]))
  }

  // ---- Keys ----

  lemma NsKeyInjective(ns: string, x: string, ns': string, x': string)
    requires !Dotted(x) && !Dotted(x')
    ensures NsKey(ns, x) == NsKey(ns', x') ==> ns == ns' && x == x'
  {
    if NsKey(ns, x) == NsKey(ns', x') { SplitAtLastDot(ns, x, ns', x'); }
  }

  lemma SplitAtLastDot(ns: string, x: string, ns': string, x': string)
    requires !Dotted(x) && !Dotted(x') && NsKey(ns, x) == NsKey(ns', x')
    ensures ns == ns' && x == x'
  {
    var key := NsKey(ns, x);
    assert key[|ns|] == '.' && key[|ns'|] == '.';
    forall i | |ns| < i < |key| ensures key[i] != '.' { assert key[i] == x[i - |ns| - 1]; }
    forall i | |ns'| < i < |key| ensures key[i] != '.' { assert key[i] == x'[i - |ns'| - 1]; }
    assert key[..|ns|] == ns && key[..|ns'|] == ns' && key[|ns| + 1..] == x && key[|ns'| + 1..] == x';
  }

  lemma NsKeyDotted(ns: string, x: string)
    ensures Dotted(NsKey(ns, x))
  {
    assert NsKey(ns, x)[|ns|] == '.';
  }

  // ---- Tools ----

  /** Bare keys are free to change. */
  lemma BareChange(tools: map<string, Entry>, tools': map<string, Entry>, m: Model)
    requires ToolsOk(tools, m)
    requires forall key :: Dotted(key) ==> (key in tools <==> key in tools')
    requires forall key :: Dotted(key) && key in tools ==> tools'[key] == tools[key]
    ensures ToolsOk(tools', m)
  {
    forall b, x | Has(m, b, x) ensures Dotted(NsKey(m[b].ns, x)) { NsKeyDotted(m[b].ns, x); }
  }

  lemma ForgetTools(tools: map<string, Entry>, keys: seq<string>, m: Model, b: string)
    requires NamesOk(m) && ToolsOk(tools, m) && b in m && KeysOk(keys, m[b])
    ensures ToolsOk(tools - Keys(keys), m - {b})
  {
    forall c, x | Has(m - {b}, c, x) ensures NsKey(m[c].ns, x) !in keys {
      assert Has(m, c, x);
      NsKeyDotted(m[c].ns, x);
      forall y | y in m[b].tools ensures !Dotted(y) && NsKey(m[c].ns, x) != NsKey(m[b].ns, y) {
        assert Has(m, b, y);
        NsKeyInjective(m[c].ns, x, m[b].ns, y);
      }
    }
    forall key | key in tools - Keys(keys) && Dotted(key)
      ensures exists c, x :: Has(m - {b}, c, x) && key == NsKey((m - {b})[c].ns, x)
    {
      var c, x :| Has(m, c, x) && key == NsKey(m[c].ns, x);
      assert Has(m - {b}, c, x);
    }
  }

  lemma AddTool(tools: map<string, Entry>, m: Model, b: string, e: Entry)
    requires NamesOk(m) && ToolsOk(tools, m) && b in m && !Dotted(Original(e)) && Original(e) !in m[b].tools
    ensures var x, reg := Original(e), m[b];
      ToolsOk(tools[NsKey(reg.ns, x) := NsEntry(b, reg.ns, e)], m[b := Reg(reg.ns, reg.tools[x := e])])
  {
    var x, reg := Original(e), m[b];
    var m' := m[b := Reg(reg.ns, reg.tools[x := e])];
    var tools' := tools[NsKey(reg.ns, x) := NsEntry(b, reg.ns, e)];
    forall c, y | Has(m', c, y)
      ensures NsKey(m'[c].ns, y) in tools' && tools'[NsKey(m'[c].ns, y)] == NsEntry(c, m'[c].ns, m'[c].tools[y])
    {
      if c == b && y == x {
      } else {
        assert Has(m, c, y);
        NsKeyInjective(m[c].ns, y, reg.ns, x);
      }
    }
    forall key | key in tools' && Dotted(key) ensures exists c, y :: Has(m', c, y) && key == NsKey(m'[c].ns, y) {
      if key == NsKey(reg.ns, x) {
        assert Has(m', b, x);
      } else {
        var c, y :| Has(m, c, y) && key == NsKey(m[c].ns, y);
        assert Has(m', c, y);
      }
    }
  }

  // ---- Owners ----

  lemma {:induction false} WithoutDistinct(os: seq<Owner>, b: string)
    requires forall i, j :: 0 <= i < j < |os| ==> os[i] != os[j]
    ensures forall i, j :: 0 <= i < j < |Without(os, b)| ==> Without(os, b)[i] != Without(os, b)[j]
  {
    if os != [] {
      var n := |os| - 1;
      var init := os[..n];
      WithoutDistinct(init, b);
      var r := Without(init, b);
      forall i | 0 <= i < |r| ensures r[i] != os[n] {
        assert r[i] in init;
      }
      assert Without(os, b) == r || Without(os, b) == r + [os[n]];
    }
  }

  lemma ForgetOwnersOf(os: seq<Owner>, m: Model, b: string, x: string)
    requires OwnersOfOk(os, m, x)
    ensures OwnersOfOk(Without(os, b), m - {b}, x)
  {
    var r, m' := Without(os, b), m - {b};
    WithoutDistinct(os, b);
    forall o | o in r ensures Has(m', o.backend, x) && o.ns == m'[o.backend].ns { assert o in os; }
    forall c | Has(m', c, x) ensures Owner(c, m'[c].ns) in r { assert Has(m, c, x); }
  }

  lemma ForgetOwners(owners: map<string, seq<Owner>>, m: Model, b: string)
    requires OwnersOk(owners, m)
    ensures OwnersOk(Forget(owners, b), m - {b})
  {
    forall x | x in owners ensures OwnersOfOk(Without(owners[x], b), m - {b}, x) {
      ForgetOwnersOf(owners[x], m, b, x);
    }
    forall c, x | Has(m - {b}, c, x) ensures x in owners && Without(owners[x], b) != [] { assert Has(m, c, x); }
  }

  function AddTo(m: Model, b: string, e: Entry): Model
    requires b in m
  {
    m[b := Reg(m[b].ns, m[b].tools[Original(e) := e])]
  }

  lemma HasAdded(m: Model, b: string, e: Entry, c: string, y: string)
    requires b in m
    ensures Has(AddTo(m, b, e), c, y) <==> Has(m, c, y) || (c == b && y == Original(e))
    ensures c in m ==> AddTo(m, b, e)[c].ns == m[c].ns
  {
  }

  /** One more owner for the name added. */
  lemma AddOwnerOf(os: seq<Owner>, m: Model, b: string, e: Entry)
    requires b in m && OwnersOfOk(os, m, Original(e)) && Original(e) !in m[b].tools
    ensures OwnersOfOk(os + [Owner(b, m[b].ns)], AddTo(m, b, e), Original(e))
  {
    var os', m', x := os + [Owner(b, m[b].ns)], AddTo(m, b, e), Original(e);
    forall o | o in os' ensures Has(m', o.backend, x) && o.ns == m'[o.backend].ns { HasAdded(m, b, e, o.backend, x); }
    forall c | Has(m', c, x) ensures Owner(c, m'[c].ns) in os' {
      HasAdded(m, b, e, c, x);
      assert os'[|os|] == Owner(b, m[b].ns);
    }
    assert forall i :: 0 <= i < |os| ==> os[i] in os && os[i].backend != b;
  }

  /** The same owners for every other name. */
  lemma KeepOwnersOf(os: seq<Owner>, m: Model, b: string, e: Entry, y: string)
    requires b in m && OwnersOfOk(os, m, y) && y != Original(e)
    ensures OwnersOfOk(os, AddTo(m, b, e), y)
  {
    forall c ensures Has(AddTo(m, b, e), c, y) <==> Has(m, c, y) { HasAdded(m, b, e, c, y); }
  }

  lemma AddOwnerOk(r: Index, m: Model, b: string, e: Entry)
    requires OwnersOk(r.owners, m) && b in m && Original(e) !in m[b].tools
    ensures OwnersOk(AddOwner(r, Original(e), Owner(b, m[b].ns)).owners, AddTo(m, b, e))
  {
    var x, m', owners' := Original(e), AddTo(m, b, e), AddOwner(r, Original(e), Owner(b, m[b].ns)).owners;
    forall y | y in owners' ensures owners'[y] != [] && OwnersOfOk(owners'[y], m', y) {
      if y == x {
        assert OwnersOfOk(OwnersOf(r, x), m, x);
        AddOwnerOf(OwnersOf(r, x), m, b, e);
      } else {
        KeepOwnersOf(r.owners[y], m, b, e, y);
      }
    }
    forall c, y | Has(m', c, y) ensures y in owners' { HasAdded(m, b, e, c, y); }
  }

  lemma HasNoMore(m: Model, b: string, ns: string, c: string, x: string)
    requires b !in m
    ensures Has(m[b := Reg(ns, map[])], c, x) <==> Has(m, c, x)
  {
  }

  lemma NoToolsTools(tools: map<string, Entry>, m: Model, b: string, ns: string)
    requires ToolsOk(tools, m) && b !in m
    ensures ToolsOk(tools, m[b := Reg(ns, map[])])
  {
    var m' := m[b := Reg(ns, map[])];
    forall c, x | Has(m', c, x)
      ensures NsKey(m'[c].ns, x) in tools && tools[NsKey(m'[c].ns, x)] == NsEntry(c, m'[c].ns, m'[c].tools[x])
    {
      HasNoMore(m, b, ns, c, x);
    }
    forall key | key in tools && Dotted(key) ensures exists c, x :: Has(m', c, x) && key == NsKey(m'[c].ns, x) {
      var c, x :| Has(m, c, x) && key == NsKey(m[c].ns, x);
      HasNoMore(m, b, ns, c, x);
    }
  }

  lemma NoToolsOwners(owners: map<string, seq<Owner>>, m: Model, b: string, ns: string)
    requires OwnersOk(owners, m) && b !in m
    ensures OwnersOk(owners, m[b := Reg(ns, map[])])
  {
    var m' := m[b := Reg(ns, map[])];
    forall c, x ensures Has(m', c, x) <==> Has(m, c, x) { HasNoMore(m, b, ns, c, x); }
    forall x | x in owners ensures OwnersOfOk(owners[x], m', x) { assert OwnersOfOk(owners[x], m, x); }
  }

  lemma NoTools(tools: map<string, Entry>, owners: map<string, seq<Owner>>, m: Model, b: string, ns: string)
    requires ToolsOk(tools, m) && OwnersOk(owners, m) && b !in m
    ensures ToolsOk(tools, m[b := Reg(ns, map[])]) && OwnersOk(owners, m[b := Reg(ns, map[])])
  {
    NoToolsTools(tools, m, b, ns);
    NoToolsOwners(owners, m, b, ns);
  }

  // ---- The operations ----

  lemma CleanUpRefines(r: Index, m: Model, b: string)
    requires Refines(r, m)
    ensures NamesOk(m - {b}) && ToolsOk(CleanUp(r, b).tools, m - {b}) && OwnersOk(CleanUp(r, b).owners, m - {b})
  {
    forall c, x | Has(m - {b}, c, x) ensures Has(m, c, x) {}
    if b in m {
      ForgetTools(r.tools, r.backendTools[b], m, b);
      ForgetOwners(r.owners, m, b);
    } else {
      assert m - {b} == m;
    }
  }

  /** The names of a list are those of its tools, the last tool having a new one. */
  lemma {:induction false} ToolMapNames(list: seq<Entry>)
    requires Proper(list)
    ensures forall x :: x in ToolMap(list) ==> !Dotted(x) && Original(ToolMap(list)[x]) == x
    ensures forall x :: x in ToolMap(list) ==> exists i :: 0 <= i < |list| && Original(list[i]) == x
  {
    if list != [] {
      var n := |list| - 1;
      ToolMapNames(list[..n]);
      forall x | x in ToolMap(list) ensures exists i :: 0 <= i < |list| && Original(list[i]) == x {
        if x in ToolMap(list[..n]) {
          var i :| 0 <= i < n && Original(list[..n][i]) == x;
          assert Original(list[i]) == x;
        } else {
          assert Original(list[n]) == x;
        }
      }
    }
  }

  lemma LastIsNew(list: seq<Entry>)
    requires list != [] && Proper(list)
    ensures var n := |list| - 1; Proper(list[..n]) && Original(list[n]) !in ToolMap(list[..n])
  {
    var n := |list| - 1;
    var init := list[..n];
    forall i | 0 <= i < n ensures init[i] == list[i] && Original(init[i]) != Original(list[n]) {}
    ToolMapNames(init);
  }

  lemma ProperNames(m: Model, b: string, ns: string, list: seq<Entry>)
    requires NamesOk(m) && b !in m && Proper(list) && forall c :: c in m ==> m[c].ns != ns
    ensures NamesOk(m[b := Reg(ns, ToolMap(list))])
  {
    var m' := m[b := Reg(ns, ToolMap(list))];
    ToolMapNames(list);
    forall c, x | Has(m', c, x) ensures !Dotted(x) && Original(m'[c].tools[x]) == x {
      if c != b { assert Has(m, c, x); }
    }
  }

  /** One tool more: the bare alias that may come or go does not touch the namespaced keys. */
  lemma RegisterOneTools(s: Index, m: Model, b: string, e: Entry, cached: bool)
    requires NamesOk(m) && ToolsOk(s.tools, m) && b in m && !Dotted(Original(e)) && Original(e) !in m[b].tools
    ensures ToolsOk(RegisterOne(s, b, m[b].ns, e, cached).tools, AddTo(m, b, e))
  {
    var t := s.tools[NsKey(m[b].ns, Original(e)) := NsEntry(b, m[b].ns, e)];
    AddTool(s.tools, m, b, e);
    BareChange(t, RegisterOne(s, b, m[b].ns, e, cached).tools, AddTo(m, b, e));
  }

  lemma NextTool(m: Model, b: string, ns: string, list: seq<Entry>)
    requires list != []
    ensures AddTo(m[b := Reg(ns, ToolMap(list[..|list| - 1]))], b, list[|list| - 1]) == m[b := Reg(ns, ToolMap(list))]
  {
  }

  lemma {:induction false} RegisterToolsTools(q: Index, m: Model, b: string, ns: string, list: seq<Entry>, cached: bool)
    requires NamesOk(m) && b !in m && (forall c :: c in m ==> m[c].ns != ns) && Proper(list)
    requires ToolsOk(q.tools, m[b := Reg(ns, map[])])
    ensures ToolsOk(RegisterTools(q, b, ns, list, cached).tools, m[b := Reg(ns, ToolMap(list))])
  {
    if list != [] {
      var n := |list| - 1;
      LastIsNew(list);
      NextTool(m, b, ns, list);
      RegisterToolsTools(q, m, b, ns, list[..n], cached);
      ProperNames(m, b, ns, list[..n]);
      var s, m1 := RegisterTools(q, b, ns, list[..n], cached), m[b := Reg(ns, ToolMap(list[..n]))];
      RegisterOneTools(s, m1, b, list[n], cached);
    }
  }

  lemma OneMoreOwner(s: Index, b: string, ns: string, e: Entry, cached: bool)
    ensures RegisterOne(s, b, ns, e, cached).owners == AddOwner(s, Original(e), Owner(b, ns)).owners
  {
  }

  lemma RegisterOneOwners(s: Index, m: Model, b: string, e: Entry, cached: bool)
    requires OwnersOk(s.owners, m) && b in m && Original(e) !in m[b].tools
    ensures OwnersOk(RegisterOne(s, b, m[b].ns, e, cached).owners, AddTo(m, b, e))
  {
    OneMoreOwner(s, b, m[b].ns, e, cached);
    AddOwnerOk(s, m, b, e);
  }

  lemma {:induction false} RegisterToolsOwners(q: Index, m: Model, b: string, ns: string, list: seq<Entry>,
                                               cached: bool)
    requires b !in m && Proper(list) && OwnersOk(q.owners, m[b := Reg(ns, map[])])
    ensures OwnersOk(RegisterTools(q, b, ns, list, cached).owners, m[b := Reg(ns, ToolMap(list))])
    ensures RegisterTools(q, b, ns, list, cached).backendTools == q.backendTools
  {
    if list != [] {
      var n := |list| - 1;
      LastIsNew(list);
      NextTool(m, b, ns, list);
      RegisterToolsOwners(q, m, b, ns, list[..n], cached);
      var s, m1 := RegisterTools(q, b, ns, list[..n], cached), m[b := Reg(ns, ToolMap(list[..n]))];
      RegisterOneOwners(s, m1, b, list[n], cached);
    }
  }

  lemma {:induction false} RegisteredKeysOk(q: Index, b: string, ns: string, list: seq<Entry>, cached: bool)
    ensures KeysOk(RegisteredKeys(q, b, ns, list, cached), Reg(ns, ToolMap(list)))
  {
    if list != [] {
      var n := |list| - 1;
      RegisteredKeysOk(q, b, ns, list[..n], cached);
      var x := Original(list[n]);
      assert x in ToolMap(list);
      assert forall y :: y in ToolMap(list[..n]) ==> y in ToolMap(list);
    }
  }

  lemma RegisterCore(r: Index, m: Model, b: string, ns: string, list: seq<Entry>, cached: bool)
    requires Refines(r, m) && Proper(list)
    requires forall c :: c in m && c != b ==> m[c].ns != ns
    ensures CoreOk(Register(r, b, ns, list, cached), m[b := Reg(ns, ToolMap(list))])
    ensures RegisterTools(CleanUp(r, b), b, ns, list, cached).backendTools == r.backendTools
  {
    var q, m0 := CleanUp(r, b), m - {b};
    assert m0[b := Reg(ns, ToolMap(list))] == m[b := Reg(ns, ToolMap(list))];
    CleanUpRefines(r, m, b);
    NoTools(q.tools, q.owners, m0, b, ns);
    ProperNames(m0, b, ns, list);
    RegisterToolsTools(q, m0, b, ns, list, cached);
    RegisterToolsOwners(q, m0, b, ns, list, cached);
  }

  /** Live, cached and repeated registration all replace the backend's entry in the plain map. */
  lemma RegisterRefines(r: Index, m: Model, b: string, ns: string, list: seq<Entry>, cached: bool)
    requires Refines(r, m) && Proper(list)
    requires forall c :: c in m && c != b ==> m[c].ns != ns
    ensures Refines(Register(r, b, ns, list, cached), m[b := Reg(ns, ToolMap(list))])
  {
    RegisterCore(r, m, b, ns, list, cached);
    RegisteredKeysOk(CleanUp(r, b), b, ns, list, cached);
  }

  lemma {:induction false} RestoreAllBare(tools: map<string, Entry>, order: seq<string>,
                                          owners: map<string, seq<Owner>>)
    requires forall x :: x in order ==> x in owners && owners[x] != []
    ensures var t := RestoreAll(tools, order, owners);
      && (forall key :: key in tools ==> key in t) && (forall key :: key in t ==> key in tools || key in order)
      && (forall key :: key in tools && key !in order ==> t[key] == tools[key])
  {
    if order != [] { RestoreAllBare(tools, order[..|order| - 1], owners); }
  }

  /** Removal takes the backend out of the plain map. */
  lemma RemoveRefines(r: Index, m: Model, b: string, order: seq<string>)
    requires Refines(r, m) && Enumerates(order, Resolved(r, b))
    ensures Refines(Remove(r, b, order), m - {b})
  {
    if b in m {
      var q := CleanUp(r, b);
      CleanUpRefines(r, m, b);
      RestoreAllBare(q.tools, order, q.owners);
      forall x | x in order ensures !Dotted(x) {
        assert OwnersOfOk(r.owners[x], m, x);
        assert Has(m, r.owners[x][0].backend, x);
      }
      BareChange(q.tools, Remove(r, b, order).tools, m - {b});
    } else {
      assert m - {b} == m;
    }
  }

  // ---- Runs ----

  datatype Op =
    | RegisterOp(backend: string, ns: string, list: seq<Entry>, cached: bool)
    | RemoveOp(backend: string, order: seq<string>)

  ghost predicate Legal(r: Index, m: Model, op: Op) {
    match op
    case RegisterOp(b, ns, list, _) => Proper(list) && forall c :: c in m && c != b ==> m[c].ns != ns
    case RemoveOp(b, order) => Enumerates(order, Resolved(r, b))
  }

  ghost function Do(r: Index, m: Model, op: Op): Index
    requires Legal(r, m, op)
  {
    match op
    case RegisterOp(b, ns, list, cached) => Register(r, b, ns, list, cached)
    case RemoveOp(b, order) => Remove(r, b, order)
  }

  function DoModel(m: Model, op: Op): Model {
    match op
    case RegisterOp(b, ns, list, _) => m[b := Reg(ns, ToolMap(list))]
    case RemoveOp(b, _) => m - {b}
  }

  /** A run of legal operations, and the plain map beside it. */
  ghost predicate History(rs: seq<Index>, ms: seq<Model>, ops: seq<Op>) {
    && |rs| == |ms| == |ops| + 1
    && rs[0] == EMPTY && ms[0] == map[]
    && forall i :: 0 <= i < |ops| ==>
         Legal(rs[i], ms[i], ops[i]) && rs[i + 1] == Do(rs[i], ms[i], ops[i]) && ms[i + 1] == DoModel(ms[i], ops[i])
  }

  /** Over any run of live, cached and repeated registrations and removals, the index refines the plain map. */
  lemma {:induction false} IndexRefinesMap(rs: seq<Index>, ms: seq<Model>, ops: seq<Op>, i: nat)
    requires History(rs, ms, ops) && i < |rs|
    ensures Refines(rs[i], ms[i])
  {
    if i > 0 {
      IndexRefinesMap(rs, ms, ops, i - 1);
      match ops[i - 1]
      case RegisterOp(b, ns, list, cached) => RegisterRefines(rs[i - 1], ms[i - 1], b, ns, list, cached);
      case RemoveOp(b, order) => RemoveRefines(rs[i - 1], ms[i - 1], b, order);
    }
  }
}
