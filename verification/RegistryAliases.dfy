/** What a bare name resolves to. */
module RegistryAliases {
  import opened Registry
  import opened RegistryRefinement

  // ---- Names with several owners ----

  /** A bare name that resolves directly has at most one owner. */
  ghost predicate Unambiguous(r: Index) {
    forall x :: !Dotted(x) && x in r.tools ==> |OwnersOf(r, x)| <= 1
  }

  lemma CleanUpUnambiguous(r: Index, b: string)
    requires Unambiguous(r)
    ensures Unambiguous(CleanUp(r, b))
  {
    forall x | !Dotted(x) && x in CleanUp(r, b).tools ensures |OwnersOf(CleanUp(r, b), x)| <= 1 {
      assert |OwnersOf(r, x)| <= 1;
    }
  }

  lemma LiveOneUnambiguous(s: Index, b: string, ns: string, e: Entry)
    requires Unambiguous(s)
    ensures Unambiguous(RegisterOne(s, b, ns, e, false))
  {
    NsKeyDotted(ns, Original(e));
    var t := RegisterOne(s, b, ns, e, false);
    forall y | !Dotted(y) && y in t.tools ensures |OwnersOf(t, y)| <= 1 {
      assert y in s.tools || y == Original(e);
      assert y != Original(e) ==> OwnersOf(t, y) == OwnersOf(s, y);
    }
  }

  lemma {:induction false} LiveToolsUnambiguous(q: Index, b: string, ns: string, list: seq<Entry>)
    requires Unambiguous(q)
    ensures Unambiguous(RegisterTools(q, b, ns, list, false))
  {
    if list != [] {
      var n := |list| - 1;
      LiveToolsUnambiguous(q, b, ns, list[..n]);
      LiveOneUnambiguous(RegisterTools(q, b, ns, list[..n], false), b, ns, list[n]);
    }
  }

  /** A live registration, in place or not, removes the alias of every name it makes ambiguous. */
  lemma LiveUnambiguous(r: Index, b: string, ns: string, list: seq<Entry>)
    requires Unambiguous(r)
    ensures Unambiguous(Register(r, b, ns, list, false))
  {
    CleanUpUnambiguous(r, b);
    LiveToolsUnambiguous(CleanUp(r, b), b, ns, list);
    var s := RegisterTools(CleanUp(r, b), b, ns, list, false);
    forall x ensures OwnersOf(Register(r, b, ns, list, false), x) == OwnersOf(s, x) {}
  }

  lemma RemoveUnambiguous(r: Index, b: string, order: seq<string>)
    requires Unambiguous(r) && Enumerates(order, Resolved(r, b))
    ensures Unambiguous(Remove(r, b, order))
  {
    if b in r.backendTools {
      CleanUpUnambiguous(r, b);
      var q := CleanUp(r, b);
      RestoreAllBare(q.tools, order, q.owners);
      forall x | !Dotted(x) && x in Remove(r, b, order).tools ensures |OwnersOf(Remove(r, b, order), x)| <= 1 {
        assert OwnersOf(Remove(r, b, order), x) == OwnersOf(q, x);
      }
    }
  }

  /** Before anything went live there are no bare keys at all. */
  ghost predicate NoBare(r: Index) { forall x :: x in r.tools ==> Dotted(x) }

  lemma {:induction false} CachedToolsNoBare(q: Index, b: string, ns: string, list: seq<Entry>)
    requires NoBare(q)
    ensures NoBare(RegisterTools(q, b, ns, list, true))
  {
    if list != [] {
      CachedToolsNoBare(q, b, ns, list[..|list| - 1]);
      NsKeyDotted(ns, Original(list[|list| - 1]));
    }
  }

  lemma StepUnambiguous(r: Index, m: Model, op: Op)
    requires Unambiguous(r) && Legal(r, m, op) && (op.RegisterOp? && op.cached ==> NoBare(r))
    ensures Unambiguous(Do(r, m, op)) && (op.RegisterOp? && op.cached ==> NoBare(Do(r, m, op)))
  {
    match op
    case RegisterOp(b, ns, list, cached) =>
      if cached {
        CachedToolsNoBare(CleanUp(r, b), b, ns, list);
      } else {
        LiveUnambiguous(r, b, ns, list);
      }
    case RemoveOp(b, order) => RemoveUnambiguous(r, b, order);
  }

  /** All cached registrations first: then a name with two or more owners never resolves directly. */
  lemma {:induction false} CollisionsNeverResolve(rs: seq<Index>, ms: seq<Model>, ops: seq<Op>, live: nat, i: nat)
    requires History(rs, ms, ops) && i < |rs|
    requires forall j :: 0 <= j < |ops| && j < live ==> ops[j].RegisterOp? && ops[j].cached
    requires forall j :: live <= j < |ops| && ops[j].RegisterOp? ==> !ops[j].cached
    ensures Unambiguous(rs[i]) && (i <= live ==> NoBare(rs[i]))
  {
    if i > 0 {
      CollisionsNeverResolve(rs, ms, ops, live, i - 1);
      StepUnambiguous(rs[i - 1], ms[i - 1], ops[i - 1]);
    }
  }

  lemma {:induction false} CachedTools(q: Index, b: string, ns: string, list: seq<Entry>, x: string)
    requires Proper(list) && !Dotted(x)
    ensures var s := RegisterTools(q, b, ns, list, true);
      && (x in s.tools <==> x in q.tools)
      && |OwnersOf(s, x)| == |OwnersOf(q, x)| + if x in ToolMap(list) then 1 else 0
  {
    if list != [] {
      var n := |list| - 1;
      LastIsNew(list);
      CachedTools(q, b, ns, list[..n], x);
      NsKeyDotted(ns, Original(list[n]));
    }
  }

  /** Cached registration skips the collision branch.  It keeps aliases unambiguous exactly when no name on its
      list still resolves directly and has an owner, other than the backend itself. */
  lemma CachedUnambiguousIff(r: Index, b: string, ns: string, list: seq<Entry>)
    requires Unambiguous(r) && Proper(list)
    ensures Unambiguous(Register(r, b, ns, list, true)) <==>
            forall x :: x in ToolMap(list) && x in CleanUp(r, b).tools ==> OwnersOf(CleanUp(r, b), x) == []
  {
    hide RegisterTools, ToolMap;
    var q, t := CleanUp(r, b), Register(r, b, ns, list, true);
    CleanUpUnambiguous(r, b);
    ToolMapNames(list);
    forall x | !Dotted(x)
      ensures x in t.tools <==> x in q.tools
      ensures |OwnersOf(t, x)| == |OwnersOf(q, x)| + if x in ToolMap(list) then 1 else 0
    {
      CachedTools(q, b, ns, list, x);
    }
  }

  // ---- Names with one owner ----

  /** A bare name with one owner resolves to that owner's tool, except for the names in `but`. */
  ghost predicate ResolvesBut(r: Index, m: Model, but: set<string>) {
    forall b, x :: Has(m, b, x) && x !in but && |OwnersOf(r, x)| == 1
      ==> x in r.tools && r.tools[x] == BareEntry(b, x, m[b].tools[x])
  }

  /** The names in `but` have one owner and no alias. */
  ghost predicate Orphaned(r: Index, m: Model, but: set<string>) {
    forall x :: x in but ==> x !in r.tools && |OwnersOf(r, x)| == 1 && exists b :: Has(m, b, x)
  }

  ghost predicate Resolves(r: Index, m: Model) { ResolvesBut(r, m, {}) }

  lemma OrphansDecide(r: Index, m: Model, but: set<string>)
    requires ResolvesBut(r, m, but) && Orphaned(r, m, but)
    ensures Resolves(r, m) <==> but == {}
  {
    if x :| x in but {
      var b :| Has(m, b, x);
    }
  }

  lemma SoleOwner(r: Index, m: Model, b: string, x: string)
    requires OwnersOk(r.owners, m) && Has(m, b, x) && |OwnersOf(r, x)| == 1
    ensures r.owners[x] == [Owner(b, m[b].ns)]
    ensures forall c :: Has(m, c, x) ==> c == b
  {
    assert OwnersOfOk(r.owners[x], m, x);
    forall c | Has(m, c, x) ensures c == b { assert Owner(c, m[c].ns) in r.owners[x]; }
  }

  /** One live registration leaves every other bare name alone. */
  lemma LiveOneOthers(s: Index, b: string, ns: string, e: Entry, y: string)
    requires y != Original(e) && !Dotted(y)
    ensures var t := RegisterOne(s, b, ns, e, false);
      && OwnersOf(t, y) == OwnersOf(s, y)
      && (y in t.tools <==> y in s.tools) && (y in s.tools ==> t.tools[y] == s.tools[y])
  {
    NsKeyDotted(ns, Original(e));
  }

  lemma LiveOneOrphans(s: Index, m: Model, b: string, e: Entry, but: set<string>)
    requires NamesOk(m) && b in m && Orphaned(s, m, but)
    ensures Orphaned(RegisterOne(s, b, m[b].ns, e, false), AddTo(m, b, e), but - {Original(e)})
  {
    var t, m' := RegisterOne(s, b, m[b].ns, e, false), AddTo(m, b, e);
    forall y | y in but - {Original(e)} ensures y !in t.tools && |OwnersOf(t, y)| == 1 && exists c :: Has(m', c, y) {
      var c :| Has(m, c, y);
      HasAdded(m, b, e, c, y);
      LiveOneOthers(s, b, m[b].ns, e, y);
    }
  }

  lemma LiveOneResolves(s: Index, m: Model, b: string, e: Entry, but: set<string>)
    requires NamesOk(m) && OwnersOk(s.owners, m) && b in m && !Dotted(Original(e)) && Original(e) !in m[b].tools
    requires ResolvesBut(s, m, but)
    ensures ResolvesBut(RegisterOne(s, b, m[b].ns, e, false), AddTo(m, b, e), but - {Original(e)})
  {
    var x, t, m' := Original(e), RegisterOne(s, b, m[b].ns, e, false), AddTo(m, b, e);
    forall c, y | Has(m', c, y) && y !in but - {x} && |OwnersOf(t, y)| == 1
      ensures y in t.tools && t.tools[y] == BareEntry(c, y, m'[c].tools[y])
    {
      HasAdded(m, b, e, c, y);
      if y == x {
        assert OwnersOf(s, x) == [];
        assert c != b ==> !Has(m, c, x);
        NsKeyDotted(m[b].ns, x);
      } else {
        LiveOneOthers(s, b, m[b].ns, e, y);
      }
    }
  }

  /** The last tool of a list. */
  lemma LiveLastResolves(q: Index, m: Model, b: string, ns: string, list: seq<Entry>, but: set<string>)
    requires NamesOk(m) && b !in m && (forall c :: c in m ==> m[c].ns != ns) && Proper(list) && list != []
    requires OwnersOk(q.owners, m[b := Reg(ns, map[])])
    requires var init := list[..|list| - 1];
      var t, m' := RegisterTools(q, b, ns, init, false), m[b := Reg(ns, ToolMap(init))];
      ResolvesBut(t, m', but) && Orphaned(t, m', but)
    ensures var t, m' := RegisterTools(q, b, ns, list, false), m[b := Reg(ns, ToolMap(list))];
      ResolvesBut(t, m', but - {Original(list[|list| - 1])}) && Orphaned(t, m', but - {Original(list[|list| - 1])})
  {
    var n := |list| - 1;
    LastIsNew(list);
    NextTool(m, b, ns, list);
    ProperNames(m, b, ns, list[..n]);
    RegisterToolsOwners(q, m, b, ns, list[..n], false);
    var p, m1 := RegisterTools(q, b, ns, list[..n], false), m[b := Reg(ns, ToolMap(list[..n]))];
    LiveOneResolves(p, m1, b, list[n], but);
    LiveOneOrphans(p, m1, b, list[n], but);
  }

  lemma {:induction false} LiveToolsResolve(q: Index, m: Model, b: string, ns: string, list: seq<Entry>,
                                            but: set<string>)
    requires NamesOk(m) && b !in m && (forall c :: c in m ==> m[c].ns != ns) && Proper(list)
    requires OwnersOk(q.owners, m[b := Reg(ns, map[])])
    requires ResolvesBut(q, m[b := Reg(ns, map[])], but) && Orphaned(q, m[b := Reg(ns, map[])], but)
    ensures var t, m' := RegisterTools(q, b, ns, list, false), m[b := Reg(ns, ToolMap(list))];
      ResolvesBut(t, m', but - ToolMap(list).Keys) && Orphaned(t, m', but - ToolMap(list).Keys)
  {
    if list == [] {
      assert but - ToolMap(list).Keys == but;
    } else {
      var n := |list| - 1;
      LiveToolsResolve(q, m, b, ns, list[..n], but);
      LiveLastResolves(q, m, b, ns, list, but - ToolMap(list[..n]).Keys);
      assert but - ToolMap(list[..n]).Keys - {Original(list[n])} == but - ToolMap(list).Keys;
    }
  }

  lemma ForgottenOrphaned(r: Index, m: Model, b: string)
    requires Refines(r, m) && Unambiguous(r) && b in m
    ensures Orphaned(CleanUp(r, b), m - {b}, Resolved(r, b))
  {
    var q, m' := CleanUp(r, b), m - {b};
    CleanUpRefines(r, m, b);
    forall x | x in Resolved(r, b) ensures x !in q.tools && |OwnersOf(q, x)| == 1 && exists c :: Has(m', c, x) {
      var c := r.owners[x][0].backend;
      assert OwnersOfOk(r.owners[x], m, x) && Has(m, c, x);
      assert OwnersOfOk(q.owners[x], m', x) && Has(m', q.owners[x][0].backend, x);
    }
  }

  /** What still resolves is not touched. */
  lemma OtherKept(r: Index, m: Model, b: string, c: string, x: string)
    requires Refines(r, m) && Resolves(r, m) && b in m && Has(m - {b}, c, x)
    requires x !in Resolved(r, b) && |OwnersOf(CleanUp(r, b), x)| == 1
    ensures var q := CleanUp(r, b); x in q.tools && q.tools[x] == BareEntry(c, x, m[c].tools[x])
  {
    assert Has(m, c, x) && x in r.owners && x in CleanUp(r, b).owners;
    SoleOwner(r, m, c, x);
    assert x !in r.backendTools[b] by {
      assert !Has(m, b, x);
      forall y | y in m[b].tools ensures x != NsKey(m[b].ns, y) { NsKeyDotted(m[b].ns, y); }
    }
  }

  /** Forgetting a backend orphans exactly the names whose collision that resolves. */
  lemma CleanUpOrphans(r: Index, m: Model, b: string)
    requires Refines(r, m) && Resolves(r, m) && Unambiguous(r) && b in m
    ensures ResolvesBut(CleanUp(r, b), m - {b}, Resolved(r, b)) && Orphaned(CleanUp(r, b), m - {b}, Resolved(r, b))
  {
    ForgottenOrphaned(r, m, b);
    var q, m' := CleanUp(r, b), m - {b};
    forall c, x | Has(m', c, x) && x !in Resolved(r, b) && |OwnersOf(q, x)| == 1
      ensures x in q.tools && q.tools[x] == BareEntry(c, x, m'[c].tools[x])
    {
      OtherKept(r, m, b, c, x);
    }
  }

  lemma RegisterLiveBut(r: Index, m0: Model, b: string, ns: string, list: seq<Entry>, but: set<string>)
    requires CoreOk(CleanUp(r, b), m0) && b !in m0 && Proper(list) && forall c :: c in m0 ==> m0[c].ns != ns
    requires ResolvesBut(CleanUp(r, b), m0, but) && Orphaned(CleanUp(r, b), m0, but)
    ensures var s, m' := RegisterTools(CleanUp(r, b), b, ns, list, false), m0[b := Reg(ns, ToolMap(list))];
      ResolvesBut(s, m', but - ToolMap(list).Keys) && Orphaned(s, m', but - ToolMap(list).Keys)
  {
    hide RegisterTools, ToolMap;
    var q, m1 := CleanUp(r, b), m0[b := Reg(ns, map[])];
    NoTools(q.tools, q.owners, m0, b, ns);
    forall c, x ensures Has(m1, c, x) <==> Has(m0, c, x) {}
    LiveToolsResolve(q, m0, b, ns, list, but);
  }

  lemma NoneLeft(xs: set<string>, ys: set<string>)
    ensures xs - ys == {} <==> xs <= ys
  {
    if xs <= ys { assert xs - ys == {}; }
    if xs - ys == {} { forall x | x in xs ensures x in ys { assert x !in xs - ys; } }
  }

  lemma RegisterLive(r: Index, m0: Model, b: string, ns: string, list: seq<Entry>, but: set<string>)
    requires CoreOk(CleanUp(r, b), m0) && b !in m0 && Proper(list) && forall c :: c in m0 ==> m0[c].ns != ns
    requires ResolvesBut(CleanUp(r, b), m0, but) && Orphaned(CleanUp(r, b), m0, but)
    ensures Resolves(Register(r, b, ns, list, false), m0[b := Reg(ns, ToolMap(list))]) <==> but <= ToolMap(list).Keys
  {
    hide ResolvesBut, Orphaned;
    var s, m' := RegisterTools(CleanUp(r, b), b, ns, list, false), m0[b := Reg(ns, ToolMap(list))];
    RegisterLiveBut(r, m0, b, ns, list, but);
    OrphansDecide(s, m', but - ToolMap(list).Keys);
    NoneLeft(but, ToolMap(list).Keys);
    SameAnswers(s, Register(r, b, ns, list, false), m');
  }

  lemma SameAnswers(s: Index, t: Index, m: Model)
    requires s.tools == t.tools && s.owners == t.owners
    ensures Resolves(s, m) <==> Resolves(t, m)
  {
    forall x ensures OwnersOf(s, x) == OwnersOf(t, x) {}
  }

  lemma ForgottenReady(r: Index, m: Model, b: string)
    requires Refines(r, m) && Resolves(r, m) && Unambiguous(r) && b in m
    ensures CoreOk(CleanUp(r, b), m - {b})
    ensures ResolvesBut(CleanUp(r, b), m - {b}, Resolved(r, b)) && Orphaned(CleanUp(r, b), m - {b}, Resolved(r, b))
  {
    hide ResolvesBut, Orphaned, NamesOk, ToolsOk, OwnersOk;
    CleanUpRefines(r, m, b);
    CleanUpOrphans(r, m, b);
  }

  lemma Replaced(m: Model, b: string, reg: Reg)
    ensures (m - {b})[b := reg] == m[b := reg]
  {
  }

  /** In-place re-registration does not restore other backends' aliases: every name still resolves exactly when
      the new list has every name whose collision forgetting the old list resolved. */
  lemma InPlaceResolvesIff(r: Index, m: Model, b: string, ns: string, list: seq<Entry>)
    requires Refines(r, m) && Resolves(r, m) && Unambiguous(r) && b in m && Proper(list)
    requires forall c :: c in m && c != b ==> m[c].ns != ns
    ensures Resolves(Register(r, b, ns, list, false), m[b := Reg(ns, ToolMap(list))])
            <==> Resolved(r, b) <= ToolMap(list).Keys
  {
    hide RegisterTools, ToolMap, Register, ResolvesBut, Orphaned;
    ForgottenReady(r, m, b);
    RegisterLive(r, m - {b}, b, ns, list, Resolved(r, b));
    Replaced(m, b, Reg(ns, ToolMap(list)));
  }

  // ---- Removal ----

  lemma {:induction false} RestoredValue(tools: map<string, Entry>, order: seq<string>,
                                         owners: map<string, seq<Owner>>, x: string)
    requires forall y :: y in order ==> y in owners && owners[y] != [] && !Dotted(y)
    requires forall i, j :: 0 <= i < j < |order| ==> order[i] != order[j]
    requires x in order && NsKey(owners[x][0].ns, x) in tools
    ensures var t, o := RestoreAll(tools, order, owners), owners[x][0];
      x in t && t[x] == BareEntry(o.backend, x, tools[NsKey(o.ns, x)])
  {
    var n := |order| - 1;
    var init, last := order[..n], order[n];
    assert order == init + [last];
    NsKeyDotted(owners[x][0].ns, x);
    RestoreAllBare(tools, init, owners);
    assert NsKey(owners[x][0].ns, x) !in init;
    if x != last { RestoredValue(tools, init, owners, x); }
  }

  lemma RemoveResolves(r: Index, m: Model, b: string, order: seq<string>)
    requires Refines(r, m) && Resolves(r, m) && Unambiguous(r) && Enumerates(order, Resolved(r, b))
    ensures Resolves(Remove(r, b, order), m - {b})
  {
    if b !in m {
      assert m - {b} == m;
    } else {
      var q, m', t := CleanUp(r, b), m - {b}, Remove(r, b, order);
      CleanUpOrphans(r, m, b);
      CleanUpRefines(r, m, b);
      RestoreAllBare(q.tools, order, q.owners);
      forall x | x in order ensures !Dotted(x) && x in q.owners && q.owners[x] != [] {
        var c :| Has(m', c, x);
      }
      forall c, x | Has(m', c, x) && |OwnersOf(t, x)| == 1
        ensures x in t.tools && t.tools[x] == BareEntry(c, x, m'[c].tools[x])
      {
        assert OwnersOf(t, x) == OwnersOf(q, x);
        if x in order {
          SoleOwner(q, m', c, x);
          RestoredValue(q.tools, order, q.owners, x);
        }
      }
    }
  }

  // ---- Histories ----

  /** Live registrations of unregistered backends, and removals. */
  ghost predicate FreshLive(ms: seq<Model>, ops: seq<Op>) {
    |ms| == |ops| + 1
    && forall i :: 0 <= i < |ops| && ops[i].RegisterOp? ==> !ops[i].cached && ops[i].backend !in ms[i]
  }

  lemma {:induction false} SoleOwnersResolve(rs: seq<Index>, ms: seq<Model>, ops: seq<Op>, i: nat)
    requires History(rs, ms, ops) && FreshLive(ms, ops) && i < |rs|
    ensures Resolves(rs[i], ms[i]) && Unambiguous(rs[i])
  {
    if i > 0 {
      var r, m := rs[i - 1], ms[i - 1];
      SoleOwnersResolve(rs, ms, ops, i - 1);
      IndexRefinesMap(rs, ms, ops, i - 1);
      match ops[i - 1]
      case RegisterOp(b, ns, list, cached) =>
        LiveUnambiguous(r, b, ns, list);
        RegisterLive(r, m, b, ns, list, {});
      case RemoveOp(b, order) =>
        RemoveUnambiguous(r, b, order);
        RemoveResolves(r, m, b, order);
    }
  }

  lemma {:induction false} RegisterKeepsAliases(q: Index, b: string, ns: string, list: seq<Entry>, cached: bool)
    ensures RegisterTools(q, b, ns, list, cached).aliases == q.aliases
  {
    if list != [] { RegisterKeepsAliases(q, b, ns, list[..|list| - 1], cached); }
  }

  /** No registration or removal touches the user's aliases. */
  lemma {:induction false} NoUserAliases(rs: seq<Index>, ms: seq<Model>, ops: seq<Op>, i: nat)
    requires History(rs, ms, ops) && i < |rs|
    ensures rs[i].aliases == map[]
  {
    if i > 0 {
      NoUserAliases(rs, ms, ops, i - 1);
      match ops[i - 1]
      case RegisterOp(b, ns, list, cached) => RegisterKeepsAliases(CleanUp(rs[i - 1], b), b, ns, list, cached);
      case RemoveOp(b, order) =>
    }
  }

  /** Two histories that end with the same registrations answer the same for every name somebody owns. */
  lemma LookupForgetsHistory(rs: seq<Index>, ms: seq<Model>, ops: seq<Op>,
                             rs': seq<Index>, ms': seq<Model>, ops': seq<Op>, b: string, x: string)
    requires History(rs, ms, ops) && FreshLive(ms, ops) && History(rs', ms', ops') && FreshLive(ms', ops')
    requires ms[|ops|] == ms'[|ops'|] && Has(ms[|ops|], b, x)
    ensures GetByName(rs[|ops|], x) == GetByName(rs'[|ops'|], x)
    ensures var key := NsKey(ms[|ops|][b].ns, x); GetByName(rs[|ops|], key) == GetByName(rs'[|ops'|], key)
  {
    var r, r', m := rs[|ops|], rs'[|ops'|], ms[|ops|];
    SoleOwnersResolve(rs, ms, ops, |ops|);
    SoleOwnersResolve(rs', ms', ops', |ops'|);
    IndexRefinesMap(rs, ms, ops, |ops|);
    IndexRefinesMap(rs', ms', ops', |ops'|);
    OwnerCountsAgree(r, r', m, b, x);
    OwnerCountsAgree(r', r, m, b, x);
    NoUserAliases(rs, ms, ops, |ops|);
    NoUserAliases(rs', ms', ops', |ops'|);
  }

  lemma OwnerCountsAgree(r: Index, r': Index, m: Model, b: string, x: string)
    requires OwnersOk(r.owners, m) && OwnersOk(r'.owners, m) && Has(m, b, x)
    ensures OwnersOf(r, x) != [] && (|OwnersOf(r, x)| == 1 ==> |OwnersOf(r', x)| == 1)
  {
    if |OwnersOf(r, x)| == 1 {
      SoleOwner(r, m, b, x);
      var os := r'.owners[x];
      assert OwnersOfOk(os, m, x);
      forall i | 0 <= i < |os| ensures os[i] == Owner(b, m[b].ns) { assert os[i] in os; }
      assert os[0] == os[|os| - 1];
    }
  }

  // ---- Names nobody owns any more ----

  /** Removing a name's only owner removes the alias exactly if the backend remembers having registered it:
      a restored alias is not remembered, and stays. */
  lemma AliasOutlivesOwnerIff(r: Index, m: Model, b: string, order: seq<string>, x: string)
    requires Refines(r, m) && Resolves(r, m) && Unambiguous(r) && Enumerates(order, Resolved(r, b))
    requires Has(m, b, x) && |OwnersOf(r, x)| == 1
    ensures x !in Remove(r, b, order).owners
    ensures x in Remove(r, b, order).tools <==> x !in r.backendTools[b]
    ensures x in Remove(r, b, order).tools ==> Remove(r, b, order).tools[x] == BareEntry(b, x, m[b].tools[x])
  {
    SoleOwner(r, m, b, x);
    assert Without(r.owners[x], b) == [];
    RestoreAllBare(CleanUp(r, b).tools, order, CleanUp(r, b).owners);
  }

  const TOOL_X := Entry("x", "x", "", "", 0, [])

  lemma OneTool(q: Index, b: string)
    requires b !in q.backendTools
    ensures Register(q, b, b, [TOOL_X], false)
         == RegisterOne(q, b, b, TOOL_X, false).(backendTools := q.backendTools[b := KeysOfOne(q, b, b, TOOL_X, false)])
    ensures ToolMap([TOOL_X]) == map["x" := TOOL_X] && Proper([TOOL_X])
  {
    var none: seq<Entry> := [];
    assert [TOOL_X][..0] == none;
    assert RegisterTools(q, b, b, none, false) == q && RegisteredKeys(q, b, b, none, false) == [];
    assert RegisterTools(q, b, b, [TOOL_X], false) == RegisterOne(q, b, b, TOOL_X, false);
    assert RegisteredKeys(q, b, b, [TOOL_X], false) == KeysOfOne(q, b, b, TOOL_X, false);
    assert ToolMap(none) == map[];
  }

  ghost predicate Fresh(m: Model, op: Op) { op.RegisterOp? ==> !op.cached && op.backend !in m }

  /** The index beside the plain map, after some run of live registrations of unregistered backends and removals. */
  ghost predicate Reached(r: Index, m: Model) {
    exists rs, ms, ops :: History(rs, ms, ops) && FreshLive(ms, ops) && rs[|ops|] == r && ms[|ops|] == m
  }

  /** Closed under those operations. */
  ghost predicate Closed(P: (Index, Model) -> bool) {
    forall r, m, op {:trigger P(r, m), DoModel(m, op)} ::
      P(r, m) && Legal(r, m, op) && Fresh(m, op) ==> P(Do(r, m, op), DoModel(m, op))
  }

  lemma Extend(rs: seq<Index>, ms: seq<Model>, ops: seq<Op>, op: Op, r: Index, m: Model)
    requires History(rs, ms, ops) && Legal(rs[|ops|], ms[|ops|], op)
    requires r == Do(rs[|ops|], ms[|ops|], op) && m == DoModel(ms[|ops|], op)
    ensures History(rs + [r], ms + [m], ops + [op])
  {
    var rs', ms', ops' := rs + [r], ms + [m], ops + [op];
    forall i | 0 <= i < |ops'|
      ensures Legal(rs'[i], ms'[i], ops'[i])
      ensures rs'[i + 1] == Do(rs'[i], ms'[i], ops'[i]) && ms'[i + 1] == DoModel(ms'[i], ops'[i])
    {
      assert rs'[i] == rs[i] && ms'[i] == ms[i];
      if i < |ops| {
        assert ops'[i] == ops[i] && rs'[i + 1] == rs[i + 1] && ms'[i + 1] == ms[i + 1];
      }
    }
  }

  lemma ExtendFresh(ms: seq<Model>, ops: seq<Op>, op: Op, m: Model)
    requires FreshLive(ms, ops) && Fresh(ms[|ops|], op)
    ensures FreshLive(ms + [m], ops + [op])
  {
    forall i | 0 <= i < |ops| + 1 && (ops + [op])[i].RegisterOp?
      ensures !(ops + [op])[i].cached && (ops + [op])[i].backend !in (ms + [m])[i]
    {
      if i < |ops| { assert (ops + [op])[i] == ops[i] && (ms + [m])[i] == ms[i]; }
    }
  }

  lemma ReachedStep(r: Index, m: Model, op: Op)
    requires Reached(r, m) && Legal(r, m, op) && Fresh(m, op)
    ensures Reached(Do(r, m, op), DoModel(m, op))
  {
    hide Do, DoModel, Legal;
    var r', m' := Do(r, m, op), DoModel(m, op);
    var rs, ms, ops :| History(rs, ms, ops) && FreshLive(ms, ops) && rs[|ops|] == r && ms[|ops|] == m;
    Extend(rs, ms, ops, op, r', m');
    ExtendFresh(ms, ops, op, m');
    assert (rs + [r'])[|ops + [op]|] == r' && (ms + [m'])[|ops + [op]|] == m';
  }

  lemma ReachedClosed()
    ensures Closed((r, m) => Reached(r, m))
  {
    forall r, m, op | Reached(r, m) && Legal(r, m, op) && Fresh(m, op) ensures Reached(Do(r, m, op), DoModel(m, op)) {
      ReachedStep(r, m, op);
    }
  }

  lemma ReachedFacts(r: Index, m: Model)
    requires Reached(r, m)
    ensures Refines(r, m) && Resolves(r, m) && Unambiguous(r)
  {
    var rs, ms, ops :| History(rs, ms, ops) && FreshLive(ms, ops) && rs[|ops|] == r && ms[|ops|] == m;
    IndexRefinesMap(rs, ms, ops, |ops|);
    SoleOwnersResolve(rs, ms, ops, |ops|);
  }

  lemma Step(P: (Index, Model) -> bool, r: Index, m: Model, op: Op) returns (r': Index, m': Model)
    requires Closed(P) && P(r, m) && Legal(r, m, op) && Fresh(m, op)
    ensures r' == Do(r, m, op) && m' == DoModel(m, op) && P(r', m')
  {
    r', m' := Do(r, m, op), DoModel(m, op);
  }

  const ONLY_X := map["x" := TOOL_X]

  /** Backends a and b both register x, in that order: b gets no alias. */
  lemma BothRegister(P: (Index, Model) -> bool) returns (r: Index, m: Model)
    requires Closed(P) && P(EMPTY, map[])
    ensures P(r, m) && m == map["a" := Reg("a", ONLY_X), "b" := Reg("b", ONLY_X)]
    ensures r.tools.Keys == {NsKey("a", "x"), NsKey("b", "x")} && r.owners.Keys == {"x"}
    ensures "b" in r.backendTools && r.backendTools["b"] == [NsKey("b", "x")]
  {
    OneTool(EMPTY, "a");
    r, m := Step(P, EMPTY, map[], RegisterOp("a", "a", [TOOL_X], false));
    assert OwnersOf(r, "x") == [Owner("a", "a")] && "b" !in r.backendTools;
    OneTool(r, "b");
    r, m := Step(P, r, m, RegisterOp("b", "b", [TOOL_X], false));
  }

  lemma RemoveKeys(r: Index, b: string, order: seq<string>)
    requires Enumerates(order, Resolved(r, b))
    ensures Remove(r, b, order).tools.Keys <= r.tools.Keys + r.owners.Keys
    ensures Remove(r, b, order).owners.Keys <= r.owners.Keys
    ensures forall c :: c in r.backendTools && c != b ==>
              c in Remove(r, b, order).backendTools && Remove(r, b, order).backendTools[c] == r.backendTools[c]
  {
    if b in r.backendTools {
      RestoreAllBare(CleanUp(r, b).tools, order, CleanUp(r, b).owners);
    }
  }

  /** Then a leaves: b, which does not remember the alias, is the only owner. */
  lemma SharedThenLeft(P: (Index, Model) -> bool) returns (r: Index, m: Model)
    requires Closed(P) && P(EMPTY, map[])
    ensures P(r, m) && m == map["b" := Reg("b", ONLY_X)]
    ensures "b" in r.backendTools && "x" !in r.backendTools["b"]
    ensures r.tools.Keys <= {NsKey("a", "x"), NsKey("b", "x"), "x"} && r.owners.Keys <= {"x"}
  {
    var r0, m0 := BothRegister(P);
    var order := Enumeration(Resolved(r0, "a"));
    RemoveKeys(r0, "a", order);
    r, m := Step(P, r0, m0, RemoveOp("a", order));
    NsKeyDotted("b", "x");
  }

  lemma OnlyOwner(r: Index, m: Model, b: string, x: string)
    requires OwnersOk(r.owners, m) && m.Keys == {b} && Has(m, b, x)
    ensures |OwnersOf(r, x)| == 1
  {
    var os := r.owners[x];
    assert OwnersOfOk(os, m, x);
    forall i | 0 <= i < |os| ensures os[i] == Owner(b, m[b].ns) { assert os[i] in os; }
    assert os[0] == os[|os| - 1];
  }

  lemma AliasStays(q: Index, m: Model, order: seq<string>)
    requires Reached(q, m) && m == map["b" := Reg("b", ONLY_X)] && Enumerates(order, Resolved(q, "b"))
    requires "b" in q.backendTools && "x" !in q.backendTools["b"]
    ensures var r := Remove(q, "b", order);
      "x" in r.tools && r.tools["x"] == BareEntry("b", "x", TOOL_X) && "x" !in r.owners
  {
    ReachedFacts(q, m);
    OnlyOwner(q, m, "b", "x");
    AliasOutlivesOwnerIff(q, m, "b", order, "x");
  }

  lemma NothingRegistered(r: Index)
    requires Reached(r, map[]) && r.tools.Keys <= {NsKey("a", "x"), NsKey("b", "x"), "x"}
    ensures r.tools.Keys <= {"x"}
  {
    ReachedFacts(r, map[]);
    NsKeyDotted("a", "x");
    NsKeyDotted("b", "x");
    forall k | k in r.tools ensures k == "x" { assert !Dotted(k); }
  }

  /** So lookup of a name nobody owns does depend on the history: two backends share it, the first to register
      leaves first, and the alias restored for the second survives the second. */
  lemma StaleAlias() returns (r: Index)
    ensures Reached(r, map[])
    ensures r.tools == map["x" := BareEntry("b", "x", TOOL_X)] && "x" !in r.owners
  {
    var P := (r, m) => Reached(r, m);
    ReachedClosed();
    ReachedEmpty();
    var q, m := SharedThenLeft(P);
    var order := Enumeration(Resolved(q, "b"));
    var m': Model;
    r, m' := Step(P, q, m, RemoveOp("b", order));
    assert m' == map[];
    RemoveKeys(q, "b", order);
    AliasStays(q, m, order);
    NothingRegistered(r);
  }

  lemma ReachedEmpty()
    ensures Reached(EMPTY, map[])
  {
    var rs, ms: seq<Model>, ops: seq<Op> := [EMPTY], [map[]], [];
    assert History(rs, ms, ops) && FreshLive(ms, ops) && rs[|ops|] == EMPTY && ms[|ops|] == map[];
  }

  /** Two backends share a name, and one registers again without it: the other's name does not resolve. */
  lemma InPlaceOrphans() returns (r: Index, m: Model)
    ensures Reached(r, m) && "b" in m && !Resolves(Register(r, "b", "b", [], false), m["b" := Reg("b", map[])])
  {
    ReachedClosed();
    ReachedEmpty();
    r, m := BothRegister((r, m) => Reached(r, m));
    ReachedFacts(r, m);
    var none: seq<Entry> := [];
    InPlaceResolvesIff(r, m, "b", "b", none);
    BothOwn(r, m);
    assert "x" in Resolved(r, "b") && ToolMap(none) == map[];
  }

  lemma BothOwn(r: Index, m: Model)
    requires OwnersOk(r.owners, m) && m == map["a" := Reg("a", ONLY_X), "b" := Reg("b", ONLY_X)]
    ensures "x" in r.owners && |r.owners["x"]| > 1
    ensures "x" in Forget(r.owners, "b") && |Forget(r.owners, "b")["x"]| == 1
  {
    assert Has(m, "a", "x") && Has(m, "b", "x");
    assert OwnersOfOk(r.owners["x"], m, "x");
    ForgetOwners(r.owners, m, "b");
    assert Has(m - {"b"}, "a", "x");
    var os := Forget(r.owners, "b")["x"];
    assert OwnersOfOk(os, m - {"b"}, "x");
    forall i | 0 <= i < |os| ensures os[i] == Owner("a", "a") { assert os[i] in os; }
    assert os[0] == os[|os| - 1];
  }

  /** A name is live, and another backend registers it from the cache: it still resolves, with two owners. */
  lemma CachedAmbiguous() returns (r: Index)
    ensures Reached(r, map["a" := Reg("a", ONLY_X)]) && !Unambiguous(Register(r, "b", "b", [TOOL_X], true))
  {
    ReachedClosed();
    ReachedEmpty();
    OneTool(EMPTY, "a");
    var m: Model;
    r, m := Step((r, m) => Reached(r, m), EMPTY, map[], RegisterOp("a", "a", [TOOL_X], false));
    assert m == map["a" := Reg("a", ONLY_X)];
    ReachedFacts(r, m);
    CachedUnambiguousIff(r, "b", "b", [TOOL_X]);
    assert "b" !in r.backendTools && CleanUp(r, "b") == r;
    assert "x" in ToolMap([TOOL_X]) && "x" in r.tools && OwnersOf(r, "x") == [Owner("a", "a")];
  }
}
