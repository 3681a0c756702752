/** When bare names resolve only with a single owner. */
module RegistryOwnership {
  import opened Registry
  import opened RegistryRefinement
  import opened RegistryAliases

  /** Every bare key has exactly one owner. */
  ghost predicate SoleOwned(r: Index) { forall x :: x in r.tools && !Dotted(x) ==> |OwnersOf(r, x)| == 1 }

  ghost predicate Owns(r: Index, b: string, x: string) { exists o :: o in OwnersOf(r, x) && o.backend == b }

  /** A bare key the backend does not remember, and so does not take along. */
  ghost predicate Stays(r: Index, b: string, x: string) {
    x in r.tools && !Dotted(x) && !(b in r.backendTools && x in r.backendTools[b])
  }

  // ---- What forgetting a backend leaves ----

  lemma ForgottenKey(r: Index, m: Model, b: string, x: string)
    requires Refines(r, m) && SoleOwned(r) && !Dotted(x)
    ensures var q := CleanUp(r, b);
      && (x in q.tools <==> Stays(r, b, x))
      && (x in q.tools ==> |OwnersOf(q, x)| == if Owns(r, b, x) then 0 else 1)
  {
    if x in r.tools {
      var o := r.owners[x][0];
      assert OwnersOf(r, x) == [o] && OwnersOfOk(r.owners[x], m, x);
      assert Owns(r, b, x) <==> o.backend == b;
      if b in r.backendTools {
        OneLeft(o, b);
      } else {
        assert Has(m, o.backend, x);
      }
    }
  }

  lemma OneLeft(o: Owner, b: string)
    ensures Without([o], b) == if o.backend == b then [] else [o]
  {
    var none: seq<Owner> := [];
    assert [o][..0] == none;
  }

  // ---- Registration ----

  /** A live registration: one more owner for a name on the list, which gets the alias if that is its first and
      loses it if that is its second. */
  lemma {:induction false} LiveToolsAt(q: Index, b: string, ns: string, list: seq<Entry>, y: string)
    requires Proper(list) && !Dotted(y)
    ensures var t, n := RegisterTools(q, b, ns, list, false), |OwnersOf(q, y)|;
      if y in ToolMap(list) then
        |OwnersOf(t, y)| == n + 1 && (y in t.tools <==> n == 0 || (n >= 2 && y in q.tools))
      else |OwnersOf(t, y)| == n && (y in t.tools <==> y in q.tools)
  {
    if list != [] {
      var n := |list| - 1;
      LastIsNew(list);
      LiveToolsAt(q, b, ns, list[..n], y);
      LiveOneAt(RegisterTools(q, b, ns, list[..n], false), b, ns, list[n], y);
    }
  }

  lemma LiveOneAt(s: Index, b: string, ns: string, e: Entry, y: string)
    requires !Dotted(y)
    ensures var t, n := RegisterOne(s, b, ns, e, false), |OwnersOf(s, y)|;
      if y == Original(e) then |OwnersOf(t, y)| == n + 1 && (y in t.tools <==> n == 0 || (n >= 2 && y in s.tools))
      else |OwnersOf(t, y)| == n && (y in t.tools <==> y in s.tools)
  {
    NsKeyDotted(ns, Original(e));
  }

  /** What one bare name needs for the registration to keep the promise. */
  ghost predicate KeptBy(r: Index, b: string, list: seq<Entry>, cached: bool, x: string) {
    if Owns(r, b, x) then x in ToolMap(list) else !cached || x !in ToolMap(list)
  }

  lemma RegisterSoleAt(r: Index, m: Model, b: string, ns: string, list: seq<Entry>, cached: bool, x: string)
    requires Refines(r, m) && SoleOwned(r) && Proper(list) && !Dotted(x)
    ensures var t := Register(r, b, ns, list, cached);
      (x in t.tools ==> |OwnersOf(t, x)| == 1) <==> (Stays(r, b, x) ==> KeptBy(r, b, list, cached, x))
  {
    var q := CleanUp(r, b);
    ForgottenKey(r, m, b, x);
    var s, t := RegisterTools(q, b, ns, list, cached), Register(r, b, ns, list, cached);
    assert s.tools == t.tools && OwnersOf(s, x) == OwnersOf(t, x);
    if cached { CachedTools(q, b, ns, list, x); } else { LiveToolsAt(q, b, ns, list, x); }
  }

  /** A registration, fresh or in place, keeps "every bare key has exactly one owner" exactly if every bare key the
      backend owns without remembering it is on the list and, for a cached one, no other bare key is that stays. */
  lemma RegisterSoleIff(r: Index, m: Model, b: string, ns: string, list: seq<Entry>, cached: bool)
    requires Refines(r, m) && SoleOwned(r) && Proper(list)
    ensures SoleOwned(Register(r, b, ns, list, cached))
            <==> forall x :: Stays(r, b, x) ==> KeptBy(r, b, list, cached, x)
  {
    var t := Register(r, b, ns, list, cached);
    forall x | !Dotted(x)
      ensures (x in t.tools ==> |OwnersOf(t, x)| == 1) <==> (Stays(r, b, x) ==> KeptBy(r, b, list, cached, x))
    {
      RegisterSoleAt(r, m, b, ns, list, cached, x);
    }
  }

  // ---- Removal ----

  lemma RemoveSoleAt(r: Index, m: Model, b: string, order: seq<string>, x: string)
    requires Refines(r, m) && SoleOwned(r) && Enumerates(order, Resolved(r, b)) && b in m && !Dotted(x)
    ensures var t := Remove(r, b, order);
      (x in t.tools ==> |OwnersOf(t, x)| == 1) <==> (Stays(r, b, x) ==> !Owns(r, b, x))
  {
    var q, t := CleanUp(r, b), Remove(r, b, order);
    ForgottenKey(r, m, b, x);
    RestoreAllBare(q.tools, order, q.owners);
    assert OwnersOf(t, x) == OwnersOf(q, x);
  }

  /** A removal keeps it exactly if the backend remembers every bare key it owns. */
  lemma RemoveSoleIff(r: Index, m: Model, b: string, order: seq<string>)
    requires Refines(r, m) && SoleOwned(r) && Enumerates(order, Resolved(r, b))
    ensures SoleOwned(Remove(r, b, order)) <==> forall x :: Stays(r, b, x) ==> !Owns(r, b, x)
  {
    if b in m {
      var t := Remove(r, b, order);
      forall x | !Dotted(x)
        ensures (x in t.tools ==> |OwnersOf(t, x)| == 1) <==> (Stays(r, b, x) ==> !Owns(r, b, x))
      {
        RemoveSoleAt(r, m, b, order, x);
      }
    } else {
      forall x | Stays(r, b, x) ensures !Owns(r, b, x) {
        assert OwnersOfOk(r.owners[x], m, x);
        forall o | o in OwnersOf(r, x) ensures o.backend != b { assert Has(m, o.backend, x); }
      }
    }
  }

  lemma EmptiedInPlace(r: Index, m: Model, b: string, x: string)
    requires Refines(r, m) && Resolves(r, m) && Has(m, b, x) && |OwnersOf(r, x)| == 1 && x !in r.backendTools[b]
    ensures var t := Register(r, b, b, [], false); x in t.tools && x !in t.owners
  {
    SoleOwner(r, m, b, x);
    OneLeft(Owner(b, m[b].ns), b);
    assert RegisterTools(CleanUp(r, b), b, b, [], false) == CleanUp(r, b);
  }

  /** Registering again in place can leave an alias without owner too: the restored one is not remembered. */
  lemma InPlaceLeavesAlias() returns (r: Index, m: Model)
    ensures Reached(r, m) && "b" in m
    ensures var t := Register(r, "b", "b", [], false); "x" in t.tools && "x" !in t.owners
  {
    ReachedClosed();
    ReachedEmpty();
    r, m := SharedThenLeft((r, m) => Reached(r, m));
    LeftFacts(r, m);
  }

  lemma LeftFacts(r: Index, m: Model)
    requires Reached(r, m) && m == map["b" := Reg("b", ONLY_X)]
    requires "b" in r.backendTools && "x" !in r.backendTools["b"]
    ensures var t := Register(r, "b", "b", [], false); "x" in t.tools && "x" !in t.owners
  {
    ReachedFacts(r, m);
    OnlyOwner(r, m, "b", "x");
    EmptiedInPlace(r, m, "b", "x");
  }
}
