/** When a bare key holds the tool of its only owner. */
module RegistryHeld {
  import opened Options
  import opened Registry
  import opened RegistryRefinement
  import opened RegistryAliases
  import opened RegistryOwnership

  /** A bare key holds what its only owner registered. */
  ghost predicate HeldAt(r: Index, m: Model, x: string) {
    x in r.tools ==>
      && |OwnersOf(r, x)| == 1 && Has(m, OwnersOf(r, x)[0].backend, x)
      && r.tools[x] == BareEntry(OwnersOf(r, x)[0].backend, x, m[OwnersOf(r, x)[0].backend].tools[x])
  }

  ghost predicate Held(r: Index, m: Model) { forall x :: !Dotted(x) ==> HeldAt(r, m, x) }

  lemma HeldIsSole(r: Index, m: Model)
    requires Held(r, m)
    ensures SoleOwned(r)
  {
    forall x | x in r.tools && !Dotted(x) ensures |OwnersOf(r, x)| == 1 { assert HeldAt(r, m, x); }
  }

  // ---- What forgetting a backend leaves ----

  /** A key that stays has its tool still, and its owner unless that is the backend. */
  lemma ForgottenHeld(r: Index, m: Model, b: string, x: string)
    requires Refines(r, m) && Held(r, m) && !Dotted(x)
    ensures var q := CleanUp(r, b);
      && (x in q.tools <==> Stays(r, b, x))
      && (x in q.tools ==> q.tools[x] == r.tools[x]
                           && OwnersOf(q, x) == if Owns(r, b, x) then [] else OwnersOf(r, x))
  {
    HeldIsSole(r, m);
    ForgottenKey(r, m, b, x);
    if x in r.tools {
      assert HeldAt(r, m, x);
      var o := r.owners[x][0];
      assert r.owners[x] == [o];
      OneLeft(o, b);
    }
  }

  lemma OwnerOfKept(r: Index, m: Model, b: string, x: string)
    requires Held(r, m) && !Dotted(x) && x in r.tools && !Owns(r, b, x)
    ensures HeldAt(r, m - {b}, x)
  {
    assert HeldAt(r, m, x);
    assert OwnersOf(r, x)[0] in OwnersOf(r, x);
  }

  // ---- Registration ----

  /** One tool, at its own bare name. */
  lemma OneAt(s: Index, b: string, ns: string, e: Entry, cached: bool)
    requires !Dotted(Original(e))
    ensures var x, t := Original(e), RegisterOne(s, b, ns, e, cached);
      && OwnersOf(t, x) == OwnersOf(s, x) + [Owner(b, ns)]
      && (cached ==> (x in t.tools <==> x in s.tools) && (x in t.tools ==> t.tools[x] == s.tools[x]))
      && (!cached && OwnersOf(s, x) == [] ==> x in t.tools && t.tools[x] == BareEntry(b, x, e))
      && (!cached && |OwnersOf(s, x)| == 1 ==> x !in t.tools)
  {
    NsKeyDotted(ns, Original(e));
  }

  lemma OneElsewhere(s: Index, b: string, ns: string, e: Entry, cached: bool, y: string)
    requires !Dotted(y) && y != Original(e)
    ensures var t := RegisterOne(s, b, ns, e, cached);
      && OwnersOf(t, y) == OwnersOf(s, y)
      && (y in t.tools <==> y in s.tools) && (y in t.tools ==> t.tools[y] == s.tools[y])
  {
    NsKeyDotted(ns, Original(e));
  }

  lemma {:induction false} ToolsElsewhere(q: Index, b: string, ns: string, list: seq<Entry>, cached: bool, y: string)
    requires Proper(list) && !Dotted(y) && y !in ToolMap(list)
    ensures var t := RegisterTools(q, b, ns, list, cached);
      && OwnersOf(t, y) == OwnersOf(q, y)
      && (y in t.tools <==> y in q.tools) && (y in t.tools ==> t.tools[y] == q.tools[y])
  {
    if list != [] {
      var n := |list| - 1;
      ToolsElsewhere(q, b, ns, list[..n], cached, y);
      OneElsewhere(RegisterTools(q, b, ns, list[..n], cached), b, ns, list[n], cached, y);
    }
  }

  lemma {:induction false} ToolsAt(q: Index, b: string, ns: string, list: seq<Entry>, cached: bool, y: string)
    requires Proper(list) && !Dotted(y) && y in ToolMap(list)
    ensures var t := RegisterTools(q, b, ns, list, cached);
      && OwnersOf(t, y) == OwnersOf(q, y) + [Owner(b, ns)]
      && (cached ==> (y in t.tools <==> y in q.tools) && (y in t.tools ==> t.tools[y] == q.tools[y]))
      && (!cached && OwnersOf(q, y) == [] ==> y in t.tools && t.tools[y] == BareEntry(b, y, ToolMap(list)[y]))
      && (!cached && |OwnersOf(q, y)| == 1 ==> y !in t.tools)
  {
    var n := |list| - 1;
    var s := RegisterTools(q, b, ns, list[..n], cached);
    LastIsNew(list);
    if y == Original(list[n]) {
      ToolsElsewhere(q, b, ns, list[..n], cached, y);
      OneAt(s, b, ns, list[n], cached);
    } else {
      ToolsAt(q, b, ns, list[..n], cached, y);
      OneElsewhere(s, b, ns, list[n], cached, y);
    }
  }

  /** What one bare name that stays needs of the registration: a backend that owns it registers it again, from the
      cache just as it was; of another's name nothing is needed but that a cached list does not have it. */
  ghost predicate HeldBy(r: Index, b: string, list: seq<Entry>, cached: bool, x: string)
    requires x in r.tools
  {
    if Owns(r, b, x) then x in ToolMap(list) && (cached ==> r.tools[x] == BareEntry(b, x, ToolMap(list)[x]))
    else !cached || x !in ToolMap(list)
  }

  /** A key that nobody held before is set only for a first owner. */
  lemma {:induction false} ManyOwners(q: Index, b: string, ns: string, list: seq<Entry>, cached: bool, x: string)
    requires Proper(list) && !Dotted(x) && x !in q.tools
    ensures var t := RegisterTools(q, b, ns, list, cached); x in t.tools ==> OwnersOf(q, x) == [] && !cached
  {
    if list != [] {
      var n := |list| - 1;
      LastIsNew(list);
      var s := RegisterTools(q, b, ns, list[..n], cached);
      ManyOwners(q, b, ns, list[..n], cached, x);
      if x == Original(list[n]) {
        ToolsElsewhere(q, b, ns, list[..n], cached, x);
        NsKeyDotted(ns, x);
      } else {
        OneElsewhere(s, b, ns, list[n], cached, x);
      }
    }
  }

  lemma NotStayingAt(q: Index, m: Model, b: string, ns: string, list: seq<Entry>, cached: bool, x: string)
    requires Proper(list) && !Dotted(x) && x !in q.tools
    ensures HeldAt(RegisterTools(q, b, ns, list, cached), m[b := Reg(ns, ToolMap(list))], x)
  {
    ManyOwners(q, b, ns, list, cached, x);
    if x in ToolMap(list) {
      ToolsAt(q, b, ns, list, cached, x);
    } else {
      ToolsElsewhere(q, b, ns, list, cached, x);
    }
  }

  /** Listed, and the key stays: one more owner, and the tool is replaced, removed or left. */
  lemma ListedAt(q: Index, m: Model, b: string, ns: string, list: seq<Entry>, cached: bool, x: string)
    requires Proper(list) && !Dotted(x) && x in q.tools && x in ToolMap(list) && |OwnersOf(q, x)| <= 1
    ensures HeldAt(RegisterTools(q, b, ns, list, cached), m[b := Reg(ns, ToolMap(list))], x)
            <==> if cached then OwnersOf(q, x) == [] && q.tools[x] == BareEntry(b, x, ToolMap(list)[x]) else true
  {
    ToolsAt(q, b, ns, list, cached, x);
  }

  /** Not listed, and the key stays: nothing changes. */
  lemma UnlistedAt(q: Index, m: Model, b: string, ns: string, list: seq<Entry>, cached: bool, x: string)
    requires Proper(list) && !Dotted(x) && x in q.tools && x !in ToolMap(list)
    requires OwnersOf(q, x) == [] || HeldAt(q, m - {b}, x)
    ensures HeldAt(RegisterTools(q, b, ns, list, cached), m[b := Reg(ns, ToolMap(list))], x) <==> OwnersOf(q, x) != []
  {
    ToolsElsewhere(q, b, ns, list, cached, x);
  }

  lemma StayingAt(r: Index, m: Model, b: string, ns: string, list: seq<Entry>, cached: bool, x: string)
    requires Refines(r, m) && Held(r, m) && Proper(list) && !Dotted(x) && Stays(r, b, x)
    ensures HeldAt(RegisterTools(CleanUp(r, b), b, ns, list, cached), m[b := Reg(ns, ToolMap(list))], x)
            <==> HeldBy(r, b, list, cached, x)
  {
    var q := CleanUp(r, b);
    ForgottenHeld(r, m, b, x);
    assert |OwnersOf(r, x)| == 1 by { assert HeldAt(r, m, x); }
    if x in ToolMap(list) {
      ListedAt(q, m, b, ns, list, cached, x);
    } else {
      if !Owns(r, b, x) { OwnerOfKept(r, m, b, x); }
      UnlistedAt(q, m, b, ns, list, cached, x);
    }
  }

  lemma SameHeld(s: Index, t: Index, m: Model, x: string)
    requires s.tools == t.tools && s.owners == t.owners
    ensures HeldAt(s, m, x) <==> HeldAt(t, m, x)
  {
    assert OwnersOf(s, x) == OwnersOf(t, x);
  }

  lemma RegisterHeldAt(r: Index, m: Model, b: string, ns: string, list: seq<Entry>, cached: bool, x: string)
    requires Refines(r, m) && Held(r, m) && Proper(list) && !Dotted(x)
    ensures HeldAt(Register(r, b, ns, list, cached), m[b := Reg(ns, ToolMap(list))], x)
            <==> (Stays(r, b, x) ==> HeldBy(r, b, list, cached, x))
  {
    var q, m' := CleanUp(r, b), m[b := Reg(ns, ToolMap(list))];
    SameHeld(RegisterTools(q, b, ns, list, cached), Register(r, b, ns, list, cached), m', x);
    if Stays(r, b, x) {
      StayingAt(r, m, b, ns, list, cached, x);
    } else {
      ForgottenHeld(r, m, b, x);
      NotStayingAt(q, m, b, ns, list, cached, x);
    }
  }

  /** A registration, fresh or in place, keeps "every bare key holds its only owner's tool" exactly if every bare key
      that stays has what it needs. */
  lemma RegisterHeldIff(r: Index, m: Model, b: string, ns: string, list: seq<Entry>, cached: bool)
    requires Refines(r, m) && Held(r, m) && Proper(list)
    ensures Held(Register(r, b, ns, list, cached), m[b := Reg(ns, ToolMap(list))])
            <==> forall x :: Stays(r, b, x) ==> HeldBy(r, b, list, cached, x)
  {
    var t, m' := Register(r, b, ns, list, cached), m[b := Reg(ns, ToolMap(list))];
    forall x | !Dotted(x) ensures HeldAt(t, m', x) <==> (Stays(r, b, x) ==> HeldBy(r, b, list, cached, x)) {
      RegisterHeldAt(r, m, b, ns, list, cached, x);
    }
    if Held(t, m') {
      forall x | Stays(r, b, x) ensures HeldBy(r, b, list, cached, x) { assert HeldAt(t, m', x); }
    }
  }

  // ---- Removal ----

  /** A restored alias holds the remaining owner's tool. */
  lemma RestoredHeld(r: Index, m: Model, b: string, order: seq<string>, x: string)
    requires Refines(r, m) && b in m && Enumerates(order, Resolved(r, b)) && x in order
    ensures !Dotted(x) && HeldAt(Remove(r, b, order), m - {b}, x)
  {
    var q, m' := CleanUp(r, b), m - {b};
    CleanUpRefines(r, m, b);
    forall y | y in order ensures y in q.owners && q.owners[y] != [] && !Dotted(y) {
      assert OwnersOfOk(q.owners[y], m', y) && Has(m', q.owners[y][0].backend, y);
    }
    var o := q.owners[x][0];
    assert OwnersOfOk(q.owners[x], m', x) && Has(m', o.backend, x);
    RestoredValue(q.tools, order, q.owners, x);
    assert OwnersOf(Remove(r, b, order), x) == q.owners[x];
  }

  lemma RemoveHeldAt(r: Index, m: Model, b: string, order: seq<string>, x: string)
    requires Refines(r, m) && Held(r, m) && Enumerates(order, Resolved(r, b)) && b in m && !Dotted(x)
    ensures HeldAt(Remove(r, b, order), m - {b}, x) <==> (Stays(r, b, x) ==> !Owns(r, b, x))
  {
    assert HeldAt(r, m, x);
    if x in order {
      RestoredHeld(r, m, b, order, x);
    } else {
      var q := CleanUp(r, b);
      ForgottenHeld(r, m, b, x);
      RestoreAllBare(q.tools, order, q.owners);
      assert OwnersOf(Remove(r, b, order), x) == OwnersOf(q, x);
      if Stays(r, b, x) && !Owns(r, b, x) { OwnerOfKept(r, m, b, x); }
    }
  }

  /** A removal keeps it exactly if the backend remembers every bare key it owns. */
  lemma RemoveHeldIff(r: Index, m: Model, b: string, order: seq<string>)
    requires Refines(r, m) && Held(r, m) && Enumerates(order, Resolved(r, b))
    ensures Held(Remove(r, b, order), m - {b}) <==> forall x :: Stays(r, b, x) ==> !Owns(r, b, x)
  {
    var t := Remove(r, b, order);
    if b in m {
      forall x | !Dotted(x) ensures HeldAt(t, m - {b}, x) <==> (Stays(r, b, x) ==> !Owns(r, b, x)) {
        RemoveHeldAt(r, m, b, order, x);
      }
      if Held(t, m - {b}) {
        forall x | Stays(r, b, x) ensures !Owns(r, b, x) { assert HeldAt(t, m - {b}, x); }
      }
    } else {
      assert t == r && m - {b} == m;
      HeldIsSole(r, m);
      RemoveSoleIff(r, m, b, order);
    }
  }

  // ---- One owner, and the tool of another ----

  /** Having one owner is not enough: after an alias outlived its owner, a backend that registers the name from the
      cache is its only owner, and the name still resolves to the tool of the backend removed. */
  lemma SoleNotHeld() returns (r: Index)
    ensures Reached(r, map[])
    ensures var t := Register(r, "c", "c", [TOOL_X], true);
      && SoleOwned(t) && OwnersOf(t, "x") == [Owner("c", "c")]
      && GetByName(t, "x") == Some(BareEntry("b", "x", TOOL_X))
  {
    r := StaleAlias();
    ReachedFacts(r, map[]);
    assert "c" !in r.backendTools && CleanUp(r, "c") == r;
    CachedOne(r);
  }

  lemma CachedOne(r: Index)
    requires r.tools == map["x" := BareEntry("b", "x", TOOL_X)] && "x" !in r.owners && CleanUp(r, "c") == r
    ensures var t := Register(r, "c", "c", [TOOL_X], true);
      && SoleOwned(t) && OwnersOf(t, "x") == [Owner("c", "c")]
      && GetByName(t, "x") == Some(BareEntry("b", "x", TOOL_X))
  {
    var none: seq<Entry> := [];
    assert [TOOL_X][..0] == none && RegisterTools(r, "c", "c", none, true) == r;
    var s, t := RegisterTools(r, "c", "c", [TOOL_X], true), Register(r, "c", "c", [TOOL_X], true);
    assert s == RegisterOne(r, "c", "c", TOOL_X, true);
    OneAt(r, "c", "c", TOOL_X, true);
    assert OwnersOf(t, "x") == OwnersOf(s, "x") && t.tools == s.tools;
    NsKeyDotted("c", "x");
    forall y | y in t.tools && !Dotted(y) ensures y == "x" {}
  }
}
