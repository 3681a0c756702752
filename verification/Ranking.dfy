/** Ranked results: by score, best first, then by name. */
module Ranking {
  import opened Numbers

  /** Names compared character by character. */
  predicate Less(a: string, b: string) {
    b != [] && (a == [] || a[0] < b[0] || (a[0] == b[0] && Less(a[1..], b[1..])))
  }

  lemma {:induction false} LessTotal(a: string, b: string)
    ensures Less(a, b) || Less(b, a) || a == b
    ensures !(Less(a, b) && Less(b, a)) && !(a == b && Less(a, b))
  {
    if a != [] && b != [] && a[0] == b[0] {
      LessTotal(a[1..], b[1..]);
      assert a == [a[0]] + a[1..] && b == [b[0]] + b[1..];
    }
  }

  lemma {:induction false} LessTransitive(a: string, b: string, c: string)
    requires Less(a, b) && Less(b, c)
    ensures Less(a, c)
  {
    if a != [] && a[0] == b[0] == c[0] { LessTransitive(a[1..], b[1..], c[1..]); }
  }

  predicate Before(score: string -> real, a: string, b: string) {
    score(a) > score(b) || (score(a) == score(b) && Less(a, b))
  }

  lemma BeforeTotal(score: string -> real, a: string, b: string)
    ensures Before(score, a, b) || Before(score, b, a) || a == b
    ensures !(Before(score, a, b) && Before(score, b, a)) && !(a == b && Before(score, a, b))
  {
    LessTotal(a, b);
  }

  lemma BeforeTransitive(score: string -> real, a: string, b: string, c: string)
    requires Before(score, a, b) && Before(score, b, c)
    ensures Before(score, a, c)
  {
    if score(a) == score(b) == score(c) { LessTransitive(a, b, c); }
  }

  ghost predicate Sorted(score: string -> real, r: seq<string>) {
    forall i, j :: 0 <= i < j < |r| ==> Before(score, r[i], r[j])
  }

  /** The best `limit` of the hits, in rank order. */
  ghost predicate IsTop(hits: set<string>, score: string -> real, limit: nat, r: seq<string>) {
    && Sorted(score, r) && |r| == Least(limit, |hits|)
    && (forall x :: x in r ==> x in hits)
    && (forall x, i :: x in hits && x !in r && 0 <= i < |r| ==> Before(score, r[i], x))
  }

  lemma NotEarlier(hits: set<string>, score: string -> real, limit: nat, r: seq<string>, r': seq<string>, i: nat)
    requires IsTop(hits, score, limit, r) && IsTop(hits, score, limit, r')
    requires i < |r| && r[..i] == r'[..i]
    ensures !Before(score, r[i], r'[i])
  {
    var x := r[i];
    BeforeTotal(score, x, r'[i]);
    BeforeTotal(score, x, x);
    forall k | 0 <= k < i ensures r[k] == r'[k] && r'[k] != x { assert r[..i][k] == r'[..i][k]; }
    if Before(score, x, r'[i]) && x in r' {
      var p :| 0 <= p < |r'| && r'[p] == x;
    }
  }

  lemma {:induction false} TopPrefix(hits: set<string>, score: string -> real, limit: nat,
                                     r: seq<string>, r': seq<string>, i: nat)
    requires IsTop(hits, score, limit, r) && IsTop(hits, score, limit, r') && i <= |r|
    ensures r[..i] == r'[..i]
  {
    if i > 0 {
      TopPrefix(hits, score, limit, r, r', i - 1);
      NotEarlier(hits, score, limit, r, r', i - 1);
      NotEarlier(hits, score, limit, r', r, i - 1);
      BeforeTotal(score, r[i - 1], r'[i - 1]);
      assert r[..i] == r[..i - 1] + [r[i - 1]] && r'[..i] == r'[..i - 1] + [r'[i - 1]];
    }
  }

  /** There is one such list. */
  lemma TopUnique(hits: set<string>, score: string -> real, limit: nat, r: seq<string>, r': seq<string>)
    requires IsTop(hits, score, limit, r) && IsTop(hits, score, limit, r')
    ensures r == r'
  {
    TopPrefix(hits, score, limit, r, r', |r|);
    assert r[..|r|] == r && r'[..|r|] == r';
  }

  // ---- Sorting, for the library's sort ----

  function Insert(score: string -> real, r: seq<string>, x: string): seq<string> {
    if r == [] then [x]
    else
      var n := |r| - 1;
      if Before(score, r[n], x) then r + [x] else Insert(score, r[..n], x) + [r[n]]
  }

  function Sort(score: string -> real, list: seq<string>): seq<string> {
    if list == [] then [] else Insert(score, Sort(score, list[..|list| - 1]), list[|list| - 1])
  }

  lemma {:induction false} InsertElements(score: string -> real, r: seq<string>, x: string)
    ensures |Insert(score, r, x)| == |r| + 1
    ensures forall y :: y in Insert(score, r, x) <==> y in r || y == x
  {
    if r != [] {
      var n := |r| - 1;
      assert r == r[..n] + [r[n]];
      InsertElements(score, r[..n], x);
    }
  }

  lemma {:induction false} InsertSorted(score: string -> real, r: seq<string>, x: string)
    requires Sorted(score, r) && x !in r
    ensures Sorted(score, Insert(score, r, x))
  {
    if r != [] {
      var n := |r| - 1;
      if Before(score, r[n], x) {
        forall i | 0 <= i < n ensures Before(score, r[i], x) { BeforeTransitive(score, r[i], r[n], x); }
      } else {
        var t := Insert(score, r[..n], x);
        InsertSorted(score, r[..n], x);
        InsertElements(score, r[..n], x);
        BeforeTotal(score, r[n], x);
        forall i | 0 <= i < |t| ensures Before(score, t[i], r[n]) { assert t[i] in t; }
      }
    }
  }

  lemma {:induction false} SortSorted(score: string -> real, list: seq<string>)
    requires forall i, j :: 0 <= i < j < |list| ==> list[i] != list[j]
    ensures Sorted(score, Sort(score, list)) && |Sort(score, list)| == |list|
    ensures forall y :: y in Sort(score, list) <==> y in list
  {
    if list != [] {
      var n := |list| - 1;
      assert list == list[..n] + [list[n]];
      SortSorted(score, list[..n]);
      InsertElements(score, Sort(score, list[..n]), list[n]);
      InsertSorted(score, Sort(score, list[..n]), list[n]);
    }
  }

  function Truncate(r: seq<string>, limit: nat): seq<string> { if limit < |r| then r[..limit] else r }

  lemma {:induction false} DistinctCount(list: seq<string>, hits: set<string>)
    requires forall i, j :: 0 <= i < j < |list| ==> list[i] != list[j]
    requires forall x :: x in list <==> x in hits
    ensures |list| == |hits|
  {
    if list != [] {
      var n := |list| - 1;
      assert list == list[..n] + [list[n]];
      DistinctCount(list[..n], hits - {list[n]});
    }
  }

  /** What is kept comes before what is cut off. */
  lemma BeforeCut(score: string -> real, s: seq<string>, limit: nat, x: string, i: nat)
    requires Sorted(score, s) && x in s && x !in Truncate(s, limit) && i < |Truncate(s, limit)|
    ensures Before(score, Truncate(s, limit)[i], x)
  {
    var p :| 0 <= p < |s| && s[p] == x;
  }

  /** Sort and truncate give the best `limit` of the hits, whatever order these came in. */
  lemma SortedTop(score: string -> real, list: seq<string>, hits: set<string>, limit: nat)
    requires forall i, j :: 0 <= i < j < |list| ==> list[i] != list[j]
    requires forall x :: x in list <==> x in hits
    ensures IsTop(hits, score, limit, Truncate(Sort(score, list), limit))
  {
    hide Sort;
    var s := Sort(score, list);
    SortSorted(score, list);
    DistinctCount(list, hits);
    var r := Truncate(s, limit);
    forall x, i | x in hits && x !in r && 0 <= i < |r| ensures Before(score, r[i], x) {
      BeforeCut(score, s, limit, x, i);
    }
  }
}
