/** The edit distance of src/registry.rs, on bytes. */
module Levenshtein {

  import opened ByteStrings
  import opened Numbers

  /** The recurrence behind the dynamic programme, on the last bytes. */
  function Lev(a: Bytes, b: Bytes): nat
    decreases |a| + |b|
  {
    if a == [] then |b|
    else if b == [] then |a|
    else
      var a', b' := a[..|a| - 1], b[..|b| - 1];
      Least(Least(Lev(a', b) + 1, Lev(a, b') + 1), Lev(a', b') + if a[|a| - 1] == b[|b| - 1] then 0 else 1)
  }

  // ---- Scripts of single edits ----

  datatype Edit = Insert(at: nat, c: byte) | Delete(at: nat) | Substitute(at: nat, c: byte)

  predicate CanApply(e: Edit, s: Bytes) { if e.Insert? then e.at <= |s| else e.at < |s| }

  function Apply(e: Edit, s: Bytes): Bytes
    requires CanApply(e, s)
  {
    match e
    case Insert(at, c) => s[..at] + [c] + s[at..]
    case Delete(at) => s[..at] + s[at + 1..]
    case Substitute(at, c) => s[..at] + [c] + s[at + 1..]
  }

  /** The script turns a into b, one edit after the other. */
  ghost predicate Rewrites(script: seq<Edit>, a: Bytes, b: Bytes) {
    if script == [] then a == b
    else CanApply(script[0], a) && Rewrites(script[1..], Apply(script[0], a), b)
  }

  lemma FirstEdit(s: seq<Edit>, t: seq<Edit>)
    requires s != []
    ensures (s + t)[0] == s[0] && (s + t)[1..] == s[1..] + t
  {
  }

  lemma {:induction false} Then(s: seq<Edit>, t: seq<Edit>, a: Bytes, b: Bytes, c: Bytes)
    requires Rewrites(s, a, b) && Rewrites(t, b, c)
    ensures Rewrites(s + t, a, c)
  {
    if s == [] {
      assert s + t == t;
    } else {
      Then(s[1..], t, Apply(s[0], a), b, c);
      FirstEdit(s, t);
    }
  }

  lemma OneEdit(e: Edit, a: Bytes)
    requires CanApply(e, a)
    ensures Rewrites([e], a, Apply(e, a))
  {
    assert Rewrites([e][1..], Apply(e, a), Apply(e, a));
  }

  lemma Cut(a: Bytes, x: Bytes, i: nat)
    requires i <= |a|
    ensures (a + x)[..i] == a[..i] && (a + x)[i..] == a[i..] + x
  {
  }

  lemma ApplyBefore(e: Edit, a: Bytes, x: Bytes)
    requires CanApply(e, a)
    ensures CanApply(e, a + x) && Apply(e, a + x) == Apply(e, a) + x
  {
    Cut(a, x, e.at);
    if !e.Insert? { Cut(a, x, e.at + 1); }
  }

  /** Edits leave alone what follows. */
  lemma {:induction false} KeepsSuffix(script: seq<Edit>, a: Bytes, b: Bytes, x: Bytes)
    requires Rewrites(script, a, b)
    ensures Rewrites(script, a + x, b + x)
  {
    if script != [] {
      ApplyBefore(script[0], a, x);
      KeepsSuffix(script[1..], Apply(script[0], a), b, x);
    }
  }

  lemma Chop(s: Bytes)
    requires s != []
    ensures s == s[..|s| - 1] + [s[|s| - 1]]
  {
  }

  lemma InsertLast(script: seq<Edit>, a: Bytes, b: Bytes) returns (longer: seq<Edit>)
    requires b != [] && Rewrites(script, a, b[..|b| - 1])
    ensures Rewrites(longer, a, b) && |longer| == |script| + 1
  {
    var b', e := b[..|b| - 1], Insert(|b| - 1, b[|b| - 1]);
    Chop(b);
    assert Apply(e, b') == b;
    OneEdit(e, b');
    Then(script, [e], a, b', b);
    longer := script + [e];
  }

  lemma DeleteLast(script: seq<Edit>, a: Bytes, b: Bytes) returns (longer: seq<Edit>)
    requires a != [] && Rewrites(script, a[..|a| - 1], b)
    ensures Rewrites(longer, a, b) && |longer| == |script| + 1
  {
    var e := Delete(|a| - 1);
    assert Apply(e, a) == a[..|a| - 1];
    OneEdit(e, a);
    Then([e], script, a, a[..|a| - 1], b);
    longer := [e] + script;
  }

  lemma MatchLast(script: seq<Edit>, a: Bytes, b: Bytes) returns (longer: seq<Edit>)
    requires a != [] && b != [] && Rewrites(script, a[..|a| - 1], b[..|b| - 1])
    ensures Rewrites(longer, a, b)
    ensures |longer| == |script| + if a[|a| - 1] == b[|b| - 1] then 0 else 1
  {
    var x, y, b' := a[|a| - 1], b[|b| - 1], b[..|b| - 1];
    KeepsSuffix(script, a[..|a| - 1], b', [x]);
    Chop(a);
    Chop(b);
    if x == y {
      longer := script;
    } else {
      var e := Substitute(|b'|, y);
      assert Apply(e, b' + [x]) == b;
      OneEdit(e, b' + [x]);
      Then(script, [e], a, b' + [x], b);
      longer := script + [e];
    }
  }

  /** Some script is as short as the recurrence says. */
  lemma {:induction false} ScriptOf(a: Bytes, b: Bytes) returns (script: seq<Edit>)
    ensures Rewrites(script, a, b) && |script| == Lev(a, b)
    decreases |a| + |b|
  {
    if a == [] && b == [] {
      script := [];
    } else if a == [] || (b != [] && Lev(a, b) == Lev(a, b[..|b| - 1]) + 1) {
      script := ScriptOf(a, b[..|b| - 1]);
      script := InsertLast(script, a, b);
    } else if b == [] || Lev(a, b) == Lev(a[..|a| - 1], b) + 1 {
      script := ScriptOf(a[..|a| - 1], b);
      script := DeleteLast(script, a, b);
    } else {
      script := ScriptOf(a[..|a| - 1], b[..|b| - 1]);
      script := MatchLast(script, a, b);
    }
  }

  // ---- One edit moves the distance by at most one ----

  /** The three inequalities of the recurrence, with the empty cases folded in. */
  lemma LastBytes(a: Bytes, b: Bytes)
    ensures a != [] ==> Lev(a, b) <= Lev(a[..|a| - 1], b) + 1
    ensures b != [] ==> Lev(a, b) <= Lev(a, b[..|b| - 1]) + 1
    ensures a != [] && b != [] ==>
              Lev(a, b) <= Lev(a[..|a| - 1], b[..|b| - 1]) + if a[|a| - 1] == b[|b| - 1] then 0 else 1
  {
  }

  /** Two strings with the same last byte, if their distances to b' and b are close without it. */
  lemma SameLast(s: Bytes, t: Bytes, b: Bytes)
    requires s != [] && t != [] && b != [] && s[|s| - 1] == t[|t| - 1]
    requires Lev(s[..|s| - 1], b) <= Lev(t[..|t| - 1], b) + 1
    requires Lev(s[..|s| - 1], b[..|b| - 1]) <= Lev(t[..|t| - 1], b[..|b| - 1]) + 1
    requires Lev(s, b[..|b| - 1]) <= Lev(t, b[..|b| - 1]) + 1
    ensures Lev(s, b) <= Lev(t, b) + 1
  {
    LastBytes(s, b);
  }

  lemma {:induction false} WithoutByte(u: Bytes, c: byte, v: Bytes, b: Bytes)
    ensures Lev(u + [c] + v, b) <= Lev(u + v, b) + 1
    decreases |v| + |b|
  {
    var s, t := u + [c] + v, u + v;
    if v == [] {
      assert t == u && s[..|s| - 1] == u;
      LastBytes(s, b);
    } else if b != [] {
      var v' := v[..|v| - 1];
      assert s[..|s| - 1] == u + [c] + v' && t[..|t| - 1] == u + v';
      WithoutByte(u, c, v', b);
      WithoutByte(u, c, v', b[..|b| - 1]);
      WithoutByte(u, c, v, b[..|b| - 1]);
      SameLast(s, t, b);
    }
  }

  lemma {:induction false} WithByte(u: Bytes, c: byte, v: Bytes, b: Bytes)
    ensures Lev(u + v, b) <= Lev(u + [c] + v, b) + 1
    decreases |v| + |b|
  {
    var s, t := u + v, u + [c] + v;
    if b == [] {
    } else if v == [] {
      assert s == u && t[..|t| - 1] == u;
      WithByte(u, c, v, b[..|b| - 1]);
      LastBytes(u, b);
    } else {
      var v' := v[..|v| - 1];
      assert s[..|s| - 1] == u + v' && t[..|t| - 1] == u + [c] + v';
      WithByte(u, c, v', b);
      WithByte(u, c, v', b[..|b| - 1]);
      WithByte(u, c, v, b[..|b| - 1]);
      SameLast(s, t, b);
    }
  }

  lemma {:induction false} OtherByte(u: Bytes, c: byte, d: byte, v: Bytes, b: Bytes)
    ensures Lev(u + [c] + v, b) <= Lev(u + [d] + v, b) + 1
    decreases |v| + |b|
  {
    var s, t := u + [c] + v, u + [d] + v;
    if b == [] {
    } else if v == [] {
      assert s[..|s| - 1] == u && t[..|t| - 1] == u;
      OtherByte(u, c, d, v, b[..|b| - 1]);
      LastBytes(s, b);
    } else {
      var v' := v[..|v| - 1];
      assert s[..|s| - 1] == u + [c] + v' && t[..|t| - 1] == u + [d] + v';
      OtherByte(u, c, d, v', b);
      OtherByte(u, c, d, v', b[..|b| - 1]);
      OtherByte(u, c, d, v, b[..|b| - 1]);
      SameLast(s, t, b);
    }
  }

  lemma EditByOne(e: Edit, a: Bytes, b: Bytes)
    requires CanApply(e, a)
    ensures Lev(a, b) <= Lev(Apply(e, a), b) + 1
  {
    var i := e.at;
    if e.Insert? {
      assert a == a[..i] + a[i..];
      WithByte(a[..i], e.c, a[i..], b);
    } else {
      assert a == a[..i] + [a[i]] + a[i + 1..];
      if e.Delete? {
        WithoutByte(a[..i], a[i], a[i + 1..], b);
      } else {
        OtherByte(a[..i], a[i], e.c, a[i + 1..], b);
      }
    }
  }

  lemma {:induction false} Equal(a: Bytes)
    ensures Lev(a, a) == 0
  {
    if a != [] { Equal(a[..|a| - 1]); }
  }

  /** No script is shorter. */
  lemma {:induction false} NoShorter(script: seq<Edit>, a: Bytes, b: Bytes)
    requires Rewrites(script, a, b)
    ensures Lev(a, b) <= |script|
  {
    if script == [] {
      Equal(a);
    } else {
      NoShorter(script[1..], Apply(script[0], a), b);
      EditByOne(script[0], a, b);
    }
  }

  // ---- What callers use ----

  function Gap(a: Bytes, b: Bytes): nat { if |a| <= |b| then |b| - |a| else |a| - |b| }

  lemma {:induction false} AtLeastGap(a: Bytes, b: Bytes)
    ensures Gap(a, b) <= Lev(a, b)
    decreases |a| + |b|
  {
    if a != [] && b != [] {
      AtLeastGap(a[..|a| - 1], b);
      AtLeastGap(a, b[..|b| - 1]);
      AtLeastGap(a[..|a| - 1], b[..|b| - 1]);
    }
  }

  lemma {:induction false} ZeroIffEqual(a: Bytes, b: Bytes)
    ensures Lev(a, b) == 0 <==> a == b
  {
    Equal(a);
    if Lev(a, b) == 0 {
      var script := ScriptOf(a, b);
      assert script == [];
    }
  }

  /** The recurrence gives the length of the shortest script. */
  lemma ShortestScript(a: Bytes, b: Bytes)
    ensures exists script :: Rewrites(script, a, b) && |script| == Lev(a, b)
    ensures forall script :: Rewrites(script, a, b) ==> Lev(a, b) <= |script|
  {
    var shortest := ScriptOf(a, b);
    forall script | Rewrites(script, a, b) ensures Lev(a, b) <= |script| { NoShorter(script, a, b); }
  }

  // ---- The dynamic programme ----

  /** The cells of the row of u up to the j-th prefix of b. */
  ghost predicate Row(row: seq<nat>, u: Bytes, b: Bytes, j: nat) {
    j < |row| && j <= |b| && forall k :: 0 <= k <= j ==> row[k] == Lev(u, b[..k])
  }

  lemma LastCell(x: Bytes, c: byte, y: Bytes, d: byte)
    ensures Lev(x + [c], y + [d])
         == Least(Least(Lev(x, y + [d]) + 1, Lev(x + [c], y) + 1), Lev(x, y) + if c == d then 0 else 1)
  {
    assert (x + [c])[..|x|] == x && (y + [d])[..|y|] == y;
  }

  lemma Prefix(s: Bytes, i: nat)
    requires 1 <= i <= |s|
    ensures s[..i] == s[..i - 1] + [s[i - 1]]
  {
  }

  /** One cell from its neighbours. */
  lemma NextCell(prev: seq<nat>, curr: seq<nat>, u: Bytes, c: byte, b: Bytes, j: nat, cell: nat)
    requires 1 <= j <= |b| && Row(prev, u, b, |b|) && Row(curr, u + [c], b, j - 1) && j < |curr|
    requires cell == Least(Least(prev[j] + 1, curr[j - 1] + 1), prev[j - 1] + if c == b[j - 1] then 0 else 1)
    ensures Row(curr[j := cell], u + [c], b, j)
  {
    Prefix(b, j);
    LastCell(u, c, b[..j - 1], b[j - 1]);
  }

  /** `levenshtein`: two rows, swapped after each byte of a.  The result is the length of the shortest script. */
  method Distance(a: Bytes, b: Bytes) returns (dist: nat)
    ensures dist == Lev(a, b)
    ensures exists script :: Rewrites(script, a, b) && |script| == dist
    ensures forall script :: Rewrites(script, a, b) ==> dist <= |script|
  {
    hide Rewrites;
    var m, n := |a|, |b|;
    var prev := new nat[n + 1](j => j);
    var curr := new nat[n + 1](j => 0);
    assert a[..0] == [];
    var i := 1;
    while i <= m
      invariant 1 <= i <= m + 1 && prev != curr && prev.Length == curr.Length == n + 1
      invariant fresh(prev) && fresh(curr)
      invariant Row(prev[..], a[..i - 1], b, n)
    {
      curr[0] := i;
      Prefix(a, i);
      FillRow(a[..i - 1], a[i - 1], b, prev, curr);
      prev, curr := curr, prev;
      i := i + 1;
    }
    assert a[..m] == a && b[..n] == b;
    dist := prev[n];
    ShortestScript(a, b);
  }

  /** The inner loop: the row of u followed by c, from the row of u. */
  method FillRow(u: Bytes, c: byte, b: Bytes, prev: array<nat>, curr: array<nat>)
    requires prev != curr && prev.Length == curr.Length == |b| + 1 && curr[0] == |u| + 1
    requires Row(prev[..], u, b, |b|)
    modifies curr
    ensures Row(curr[..], u + [c], b, |b|)
  {
    assert b[..0] == [];
    var j := 1;
    while j <= |b|
      invariant 1 <= j <= |b| + 1 && Row(curr[..], u + [c], b, j - 1)
    {
      var cost := if c == b[j - 1] then 0 else 1;
      var cell := Least(Least(prev[j] + 1, curr[j - 1] + 1), prev[j - 1] + cost);
      NextCell(prev[..], curr[..], u, c, b, j, cell);
      ghost var was := curr[..];
      curr[j] := cell;
      assert curr[..] == was[j := cell];
      j := j + 1;
    }
  }
}
