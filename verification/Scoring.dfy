/**
 BM25 over a registry (src/registry.rs).  Texts are split by functions given from outside, as is the logarithm;
 scores are reals.
 */
module Scoring {
  import opened ByteStrings
  import opened Options
  import opened Registry
  import opened Ranking

  datatype Texts = Texts(
    tokens: string -> seq<Bytes>,
    trigrams: string -> set<Bytes>,
    ln: real -> real,
    usage: Option<string -> nat>
  )

  ghost predicate Logarithm(ln: real -> real) { ln(1.0) == 0.0 && forall x {:trigger ln(x)} :: x > 1.0 ==> ln(x) > 0.0 }

  const K1 := 1.2
  const B := 0.75

  // ---- The corpus ----

  predicate Matches(e: Entry, filter: Option<seq<string>>) {
    filter.Some? ==> exists i :: 0 <= i < |e.tags| && e.tags[i] in filter.value
  }

  function Corpus(tools: map<string, Entry>, filter: Option<seq<string>>): set<string> {
    set k | k in tools && Matches(tools[k], filter)
  }

  /** The tokens of a tool, those of its name twice. */
  function Doc(x: Texts, tools: map<string, Entry>, k: string): seq<Bytes> {
    if k !in tools then []
    else x.tokens(tools[k].name) + x.tokens(tools[k].name) + x.tokens(tools[k].description)
  }

  function Length(x: Texts, tools: map<string, Entry>): string -> nat { k => |Doc(x, tools, k)| }

  function Contains(x: Texts, tools: map<string, Entry>, t: Bytes): string -> nat {
    k => if t in Doc(x, tools, k) then 1 else 0
  }

  function Total(order: seq<string>, f: string -> nat): nat {
    if order == [] then 0 else Total(order[..|order| - 1], f) + f(order[|order| - 1])
  }

  // ---- Scores ----

  function Idf(ln: real -> real, n: nat, df: nat): real {
    ln((n as real - df as real + 0.5) / (df as real + 0.5) + 1.0)
  }

  function TfNorm(tf: nat, dl: nat, avgdl: real): real
    requires tf > 0 && avgdl > 0.0
  {
    NormPositive(tf, dl, avgdl);
    (tf as real * (K1 + 1.0)) / (tf as real + K1 * (1.0 - B + B * dl as real / avgdl))
  }

  lemma NormPositive(tf: nat, dl: nat, avgdl: real)
    requires tf > 0 && avgdl > 0.0
    ensures tf as real + K1 * (1.0 - B + B * dl as real / avgdl) > 0.0
  {
    assert B * dl as real / avgdl >= 0.0;
  }

  /** Over a corpus of n tools and `all` tokens; both are positive whenever the term occurs in a document of it. */
  function TermScore(x: Texts, doc: seq<Bytes>, n: nat, all: nat, df: nat, t: Bytes): real {
    var tf := multiset(doc)[t];
    if tf == 0 || n == 0 || all == 0 then 0.0
    else Idf(x.ln, n, df) * TfNorm(tf, |doc|, all as real / n as real)
  }

  function BaseScore(x: Texts, tools: map<string, Entry>, order: seq<string>, query: seq<Bytes>, k: string): real {
    if query == [] then 0.0
    else
      var t := query[|query| - 1];
      BaseScore(x, tools, order, query[..|query| - 1], k)
      + TermScore(x, Doc(x, tools, k), |order|, Total(order, Length(x, tools)), Total(order, Contains(x, tools, t)), t)
  }

  /** The usage of a tool lifts its score. */
  function Boost(x: Texts, k: string): real {
    match x.usage
    case None => 1.0
    case Some(count) => 1.0 + 0.3 * x.ln(1.0 + count(k) as real)
  }

  function Score(x: Texts, tools: map<string, Entry>, order: seq<string>, query: seq<Bytes>): string -> real {
    k => BaseScore(x, tools, order, query, k) * Boost(x, k)
  }

  function Hits(x: Texts, tools: map<string, Entry>, order: seq<string>, query: seq<Bytes>): set<string> {
    set k | k in order && BaseScore(x, tools, order, query, k) > 0.0
  }

  // ---- Who is a hit ----

  lemma {:induction false} TotalAtLeast(order: seq<string>, f: string -> nat, k: string)
    requires k in order
    ensures Total(order, f) >= f(k)
  {
    var n := |order| - 1;
    if k != order[n] {
      assert k in order[..n];
      TotalAtLeast(order[..n], f, k);
    }
  }

  lemma {:induction false} AtMostAll(x: Texts, tools: map<string, Entry>, order: seq<string>, t: Bytes)
    ensures Total(order, Contains(x, tools, t)) <= |order|
  {
    if order != [] { AtMostAll(x, tools, order[..|order| - 1], t); }
  }

  lemma IdfPositive(ln: real -> real, n: nat, df: nat)
    requires Logarithm(ln) && df <= n
    ensures Idf(ln, n, df) > 0.0
  {
    var p, q := n as real - df as real + 0.5, df as real + 0.5;
    assert p > 0.0 && q > 0.0;
    Quotient(p, q);
  }

  lemma Quotient(p: real, q: real)
    requires p > 0.0 && q > 0.0
    ensures p / q > 0.0
  {
  }

  lemma Product(p: real, q: real)
    requires p > 0.0 && q > 0.0
    ensures p * q > 0.0
  {
  }

  lemma TfNormPositive(tf: nat, dl: nat, avgdl: real)
    requires tf > 0 && avgdl > 0.0
    ensures TfNorm(tf, dl, avgdl) > 0.0
  {
    NormPositive(tf, dl, avgdl);
    Quotient(tf as real * (K1 + 1.0), tf as real + K1 * (1.0 - B + B * dl as real / avgdl));
  }

  lemma TermScoreSign(x: Texts, doc: seq<Bytes>, n: nat, all: nat, df: nat, t: Bytes)
    requires Logarithm(x.ln) && df <= n && n > 0 && |doc| <= all
    ensures TermScore(x, doc, n, all, df, t) >= 0.0
    ensures TermScore(x, doc, n, all, df, t) > 0.0 <==> t in doc
  {
    if t in doc {
      var avgdl := all as real / n as real;
      Quotient(all as real, n as real);
      IdfPositive(x.ln, n, df);
      TfNormPositive(multiset(doc)[t], |doc|, avgdl);
      Product(Idf(x.ln, n, df), TfNorm(multiset(doc)[t], |doc|, avgdl));
    }
  }

  /** A tool of the corpus scores exactly if it contains a token of the query. */
  lemma {:induction false} ScoresIff(x: Texts, tools: map<string, Entry>, order: seq<string>, query: seq<Bytes>,
                                     k: string)
    requires Logarithm(x.ln) && k in order
    ensures BaseScore(x, tools, order, query, k) >= 0.0
    ensures BaseScore(x, tools, order, query, k) > 0.0 <==> exists t :: t in query && t in Doc(x, tools, k)
  {
    if query != [] {
      var n := |query| - 1;
      var t := query[n];
      ScoresIff(x, tools, order, query[..n], k);
      TotalAtLeast(order, Length(x, tools), k);
      AtMostAll(x, tools, order, t);
      var all, df := Total(order, Length(x, tools)), Total(order, Contains(x, tools, t));
      TermScoreSign(x, Doc(x, tools, k), |order|, all, df, t);
      assert query == query[..n] + [t];
    }
  }

  // ---- The order the map is walked in does not matter ----

  lemma {:induction false} TotalWithout(order: seq<string>, f: string -> nat, p: nat)
    requires p < |order|
    ensures Total(order, f) == Total(order[..p] + order[p + 1..], f) + f(order[p])
  {
    var n := |order| - 1;
    if p < n {
      TotalWithout(order[..n], f, p);
      assert (order[..p] + order[p + 1..])[..n - 1] == order[..n][..p] + order[..n][p + 1..];
    } else {
      assert order[..p] + order[p + 1..] == order[..n];
    }
  }

  lemma WithoutOne(order: seq<string>, xs: set<string>, p: nat)
    requires Enumerates(order, xs) && p < |order|
    ensures Enumerates(order[..p] + order[p + 1..], xs - {order[p]})
  {
    var rest := order[..p] + order[p + 1..];
    forall y | y in xs - {order[p]} ensures y in rest {
      var i :| 0 <= i < |order| && order[i] == y;
      assert rest[if i < p then i else i - 1] == y;
    }
  }

  lemma NotEmpty(order: seq<string>, xs: set<string>)
    requires Enumerates(order, xs)
    ensures order != [] ==> xs != {}
  {
    if order != [] { assert order[0] in xs; }
  }

  lemma {:induction false} TotalAnyOrder(order: seq<string>, order': seq<string>, xs: set<string>, f: string -> nat)
    requires Enumerates(order, xs) && Enumerates(order', xs)
    ensures Total(order, f) == Total(order', f) && |order| == |order'|
    decreases |order|
  {
    if order == [] {
      assert xs == {};
      NotEmpty(order', xs);
    } else {
      var n := |order| - 1;
      assert order[n] in order';
      var p :| 0 <= p < |order'| && order'[p] == order[n];
      assert order[..n] + order[n + 1..] == order[..n];
      WithoutOne(order, xs, n);
      WithoutOne(order', xs, p);
      TotalAnyOrder(order[..n], order'[..p] + order'[p + 1..], xs - {order[n]}, f);
      TotalWithout(order', f, p);
    }
  }

  lemma {:induction false} ScoreAnyOrder(x: Texts, tools: map<string, Entry>, order: seq<string>, order': seq<string>,
                                         xs: set<string>, query: seq<Bytes>, k: string)
    requires Enumerates(order, xs) && Enumerates(order', xs)
    ensures BaseScore(x, tools, order, query, k) == BaseScore(x, tools, order', query, k)
  {
    if query != [] {
      var n := |query| - 1;
      ScoreAnyOrder(x, tools, order, order', xs, query[..n], k);
      TotalAnyOrder(order, order', xs, Length(x, tools));
      TotalAnyOrder(order, order', xs, Contains(x, tools, query[n]));
    }
  }

  lemma SameScores(x: Texts, tools: map<string, Entry>, order: seq<string>, order': seq<string>, xs: set<string>,
                   query: seq<Bytes>)
    requires Enumerates(order, xs) && Enumerates(order', xs)
    ensures forall k :: Score(x, tools, order, query)(k) == Score(x, tools, order', query)(k)
    ensures Hits(x, tools, order, query) == Hits(x, tools, order', query)
  {
    forall k ensures BaseScore(x, tools, order, query, k) == BaseScore(x, tools, order', query, k) {
      ScoreAnyOrder(x, tools, order, order', xs, query, k);
    }
  }

  lemma SameTop(hits: set<string>, score: string -> real, score': string -> real, limit: nat, r: seq<string>)
    requires forall k :: score(k) == score'(k)
    ensures IsTop(hits, score, limit, r) ==> IsTop(hits, score', limit, r)
  {
    forall a, b ensures Before(score, a, b) == Before(score', a, b) {}
  }

  ghost predicate IsBest(x: Texts, tools: map<string, Entry>, order: seq<string>, query: seq<Bytes>, limit: nat,
                         r: seq<string>)
  {
    IsTop(Hits(x, tools, order, query), Score(x, tools, order, query), limit, r)
  }

  /** The same list is the top of the hits in either order. */
  lemma BestAnyOrder(x: Texts, tools: map<string, Entry>, order: seq<string>, order': seq<string>, xs: set<string>,
                     query: seq<Bytes>, limit: nat, r: seq<string>)
    requires Enumerates(order, xs) && Enumerates(order', xs)
    ensures IsBest(x, tools, order, query, limit, r) ==> IsBest(x, tools, order', query, limit, r)
  {
    SameScores(x, tools, order, order', xs, query);
    SameTop(Hits(x, tools, order, query), Score(x, tools, order, query), Score(x, tools, order', query), limit, r);
  }
}
