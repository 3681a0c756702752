/** Which tool a search puts first, in terms of occurrences, lengths, document counts and usage. */
module SearchOrder {
  import opened ByteStrings
  import opened Options
  import opened Registry
  import opened Ranking
  import opened Fuzzy
  import opened Scoring
  import opened Search

  // ---- What the results are about ----

  /** A strictly increasing logarithm. */
  ghost predicate Increasing(ln: real -> real) {
    ln(1.0) == 0.0 && forall x, y {:trigger ln(x), ln(y)} :: 0.0 < x < y ==> ln(x) < ln(y)
  }

  function Times(s: seq<Bytes>, t: Bytes): nat { multiset(s)[t] }

  /** How often a tool has a term, and how long it is: its name counts twice. */
  function Occurs(x: Texts, tools: map<string, Entry>, k: string, t: Bytes): nat
    requires k in tools
  {
    2 * Times(x.tokens(tools[k].name), t) + Times(x.tokens(tools[k].description), t)
  }

  function Extent(x: Texts, tools: map<string, Entry>, k: string): nat
    requires k in tools
  {
    2 * |x.tokens(tools[k].name)| + |x.tokens(tools[k].description)|
  }

  /** How many of the tools searched have the term. */
  function Having(x: Texts, tools: map<string, Entry>, filter: Option<seq<string>>, t: Bytes): nat {
    |set k | k in Corpus(tools, filter) && Occurs(x, tools, k, t) > 0|
  }

  function Used(x: Texts, k: string): nat { if x.usage.Some? then x.usage.value(k) else 0 }

  /** Wherever b is in the result, a is before it. */
  ghost predicate ComesFirst(r: seq<string>, a: string, b: string) {
    b in r ==> exists i, j :: 0 <= i < j < |r| && r[i] == a && r[j] == b
  }

  lemma HigherFirst(hits: set<string>, score: string -> real, limit: nat, r: seq<string>, a: string, b: string)
    requires IsTop(hits, score, limit, r) && a in hits && score(a) > score(b)
    ensures ComesFirst(r, a, b)
  {
    if b in r {
      var j :| 0 <= j < |r| && r[j] == b;
      assert !Before(score, r[j], a);
      assert a in r;
      var i :| 0 <= i < |r| && r[i] == a;
      assert i <= j;
    }
  }

  // ---- Fractions ----

  lemma Cross(p: real, q: real, p': real, q': real)
    requires q > 0.0 && q' > 0.0 && p * q' < p' * q
    ensures p / q < p' / q'
  {
    var f, f' := p / q, p' / q';
    assert p == f * q && p' == f' * q';
    assert (f * q) * q' == f * (q * q') && (f' * q') * q == f' * (q * q');
    if f >= f' { Larger(f, f', q * q'); }
  }

  lemma Larger(f: real, f': real, m: real)
    requires f >= f' && m >= 0.0
    ensures f * m >= f' * m
  {
  }

  lemma Strictly(f: real, f': real, m: real)
    requires f > f' && m > 0.0
    ensures f * m > f' * m
  {
  }

  // ---- The parts of a score ----

  /** A rarer term weighs more. */
  lemma RarerWeighsMore(ln: real -> real, n: nat, df: nat, df': nat)
    requires Increasing(ln) && df < df' <= n
    ensures Idf(ln, n, df) > Idf(ln, n, df')
  {
    var p, q := n as real - df as real + 0.5, df as real + 0.5;
    var p', q' := n as real - df' as real + 0.5, df' as real + 0.5;
    assert p' < p && q < q' && 0.0 < p' && 0.0 < q;
    Strictly(p, p', q);
    Strictly(q', q, p);
    assert p' * q < p * q';
    Cross(p', q', p, q);
    Quotient(p', q');
  }

  /** The share of a document's length in the denominator. */
  function Spread(dl: nat, avgdl: real): real
    requires avgdl > 0.0
  {
    K1 * (1.0 - B + B * dl as real / avgdl)
  }

  lemma SpreadGrows(dl: nat, dl': nat, avgdl: real)
    requires avgdl > 0.0 && dl < dl'
    ensures 0.0 < Spread(dl, avgdl) < Spread(dl', avgdl)
  {
    var f, f' := B * dl as real / avgdl, B * dl' as real / avgdl;
    Cross(B * dl as real, avgdl, B * dl' as real, avgdl) by { Strictly(B * dl' as real, B * dl as real, avgdl); }
    assert f >= 0.0;
    Strictly(1.0 - B + f', 1.0 - B + f, K1);
  }

  lemma SpreadPositive(dl: nat, avgdl: real)
    requires avgdl > 0.0
    ensures Spread(dl, avgdl) > 0.0
  {
    SpreadGrows(dl, dl + 1, avgdl);
  }

  /** More occurrences count more, */
  lemma OftenerCountsMore(tf: nat, tf': nat, dl: nat, avgdl: real)
    requires 0 < tf < tf' && avgdl > 0.0
    ensures TfNorm(tf, dl, avgdl) < TfNorm(tf', dl, avgdl)
  {
    var c, u, v := Spread(dl, avgdl), tf as real * (K1 + 1.0), tf' as real * (K1 + 1.0);
    SpreadPositive(dl, avgdl);
    Strictly(v, u, c);
    assert u * tf' as real == v * tf as real;
    assert u * (tf' as real + c) == u * tf' as real + u * c;
    assert v * (tf as real + c) == v * tf as real + v * c;
    Cross(u, tf as real + c, v, tf' as real + c);
  }

  /** and so do occurrences in a shorter document. */
  lemma ShorterCountsMore(tf: nat, dl: nat, dl': nat, avgdl: real)
    requires 0 < tf && dl < dl' && avgdl > 0.0
    ensures TfNorm(tf, dl, avgdl) > TfNorm(tf, dl', avgdl)
  {
    var c, c', u := Spread(dl, avgdl), Spread(dl', avgdl), tf as real * (K1 + 1.0);
    SpreadGrows(dl, dl', avgdl);
    Strictly(tf as real + c', tf as real + c, u);
    Cross(u, tf as real + c', u, tf as real + c);
  }

  lemma Share(p: real, q: real, f: real)
    requires q > 0.0 && p == f * q
    ensures p / q == f
  {
  }

  /** In numbers: an occurrence in a document of average length counts 1, in one twice as long 22/31; no number of
      occurrences counts 2.2 or more. */
  lemma OccurrencesInNumbers(tf: nat, dl: nat, avgdl: real)
    requires tf > 0 && avgdl > 0.0
    ensures TfNorm(tf, dl, avgdl) < 2.2
    ensures dl as real == avgdl ==> TfNorm(1, dl, avgdl) == 1.0
    ensures dl as real == 2.0 * avgdl ==> TfNorm(1, dl, avgdl) == 22.0 / 31.0
  {
    var c := Spread(dl, avgdl);
    SpreadPositive(dl, avgdl);
    Strictly(tf as real + c, tf as real, K1 + 1.0);
    Cross(tf as real * (K1 + 1.0), tf as real + c, 2.2, 1.0);
    if dl as real == avgdl { Share(B * dl as real, avgdl, B); }
    if dl as real == 2.0 * avgdl { Share(B * dl as real, avgdl, 2.0 * B); }
  }

  /** And a tool lifts its score by three tenths of the logarithm of one more than its uses. */
  lemma UsageInNumbers(x: Texts, k: string)
    requires Increasing(x.ln)
    ensures Used(x, k) == 0 ==> Boost(x, k) == 1.0
    ensures x.ln((Used(x, k) + 1) as real) == 1.0 ==> Boost(x, k) == 1.3
    ensures x.ln((Used(x, k) + 1) as real) == 2.0 ==> Boost(x, k) == 1.6
  {
    assert 1.0 + Used(x, k) as real == (Used(x, k) + 1) as real;
  }

  // ---- Documents ----

  lemma DocOf(x: Texts, tools: map<string, Entry>, k: string, t: Bytes)
    requires k in tools
    ensures multiset(Doc(x, tools, k))[t] == Occurs(x, tools, k, t) && |Doc(x, tools, k)| == Extent(x, tools, k)
    ensures t in Doc(x, tools, k) <==> Occurs(x, tools, k, t) > 0
  {
    var n, d := x.tokens(tools[k].name), x.tokens(tools[k].description);
    assert multiset(n + n + d) == multiset(n) + multiset(n) + multiset(d);
    assert t in Doc(x, tools, k) <==> multiset(Doc(x, tools, k))[t] > 0;
  }

  lemma {:induction false} CountsThoseIn(order: seq<string>, xs: set<string>, p: string -> nat)
    requires Enumerates(order, xs) && forall k :: p(k) <= 1
    ensures Total(order, p) == |set k | k in xs && p(k) == 1|
  {
    var having := set k | k in xs && p(k) == 1;
    if order == [] {
      assert having == {};
    } else {
      var n := |order| - 1;
      assert order[..n] + order[n + 1..] == order[..n];
      WithoutOne(order, xs, n);
      CountsThoseIn(order[..n], xs - {order[n]}, p);
      var rest := set k | k in xs - {order[n]} && p(k) == 1;
      assert order[n] in xs;
      assert having == if p(order[n]) == 1 then rest + {order[n]} else rest;
    }
  }

  lemma CountsDocs(x: Texts, tools: map<string, Entry>, filter: Option<seq<string>>, order: seq<string>, t: Bytes)
    requires Enumerates(order, Corpus(tools, filter))
    ensures Total(order, Contains(x, tools, t)) == Having(x, tools, filter, t)
  {
    var xs, p := Corpus(tools, filter), Contains(x, tools, t);
    CountsThoseIn(order, xs, p);
    forall k | k in xs ensures p(k) == 1 <==> Occurs(x, tools, k, t) > 0 { DocOf(x, tools, k, t); }
    assert (set k | k in xs && p(k) == 1) == set k | k in xs && Occurs(x, tools, k, t) > 0;
  }

  // ---- Scores of two tools ----

  /** What a search scores by: the corpus in some order, with its size and number of tokens. */
  datatype Setting = Setting(x: Texts, tools: map<string, Entry>, filter: Option<seq<string>>, order: seq<string>) {
    ghost predicate Valid() { Enumerates(order, Corpus(tools, filter)) && Increasing(x.ln) }

    function All(): nat { Total(order, Length(x, tools)) }

    function Term(k: string, t: Bytes): real {
      TermScore(x, Doc(x, tools, k), |order|, All(), Total(order, Contains(x, tools, t)), t)
    }

    function Base(query: seq<Bytes>, k: string): real { BaseScore(x, tools, order, query, k) }
  }

  function Weight(idf: real, norm: real): real { idf * norm }

  lemma HeavierNorm(idf: real, norm: real, norm': real)
    requires idf > 0.0 && norm > norm'
    ensures Weight(idf, norm) > Weight(idf, norm')
  {
    Strictly(norm, norm', idf);
  }

  lemma HeavierIdf(idf: real, idf': real, norm: real)
    requires idf > idf' && norm > 0.0
    ensures Weight(idf, norm) > Weight(idf', norm)
  {
    Strictly(idf, idf', norm);
  }

  lemma WeightPositive(idf: real, norm: real)
    requires idf > 0.0 && norm > 0.0
    ensures Weight(idf, norm) > 0.0
  {
    Product(idf, norm);
  }

  /** The numbers a score is made of, where a tool has the term. */
  lemma Sizes(c: Setting, k: string, t: Bytes)
    requires c.Valid() && k in Corpus(c.tools, c.filter) && Occurs(c.x, c.tools, k, t) > 0
    ensures |c.order| > 0 && c.All() > 0 && Having(c.x, c.tools, c.filter, t) <= |c.order|
    ensures multiset(Doc(c.x, c.tools, k))[t] == Occurs(c.x, c.tools, k, t)
    ensures |Doc(c.x, c.tools, k)| == Extent(c.x, c.tools, k)
    ensures Total(c.order, Contains(c.x, c.tools, t)) == Having(c.x, c.tools, c.filter, t)
  {
    hide Having, Extent, Total;
    assert k in c.order;
    DocOf(c.x, c.tools, k, t);
    CountsDocs(c.x, c.tools, c.filter, c.order, t);
    TotalAtLeast(c.order, Length(c.x, c.tools), k);
    AtMostAll(c.x, c.tools, c.order, t);
  }

  /** The term's score of a tool that has it. */
  lemma TermIs(c: Setting, k: string, t: Bytes)
    requires c.Valid() && k in Corpus(c.tools, c.filter) && Occurs(c.x, c.tools, k, t) > 0
    ensures |c.order| > 0 && c.All() > 0 && Having(c.x, c.tools, c.filter, t) <= |c.order|
    ensures c.All() as real / |c.order| as real > 0.0
    ensures c.Term(k, t) == Weight(Idf(c.x.ln, |c.order|, Having(c.x, c.tools, c.filter, t)),
                                   TfNorm(Occurs(c.x, c.tools, k, t), Extent(c.x, c.tools, k),
                                          c.All() as real / |c.order| as real))
    ensures Idf(c.x.ln, |c.order|, Having(c.x, c.tools, c.filter, t)) > 0.0
  {
    hide Idf, TfNorm, Doc, Total, Occurs, Extent, Having, Corpus, Contains;
    Sizes(c, k, t);
    Quotient(c.All() as real, |c.order| as real);
    IncreasingIsLog(c.x.ln);
    IdfPositive(c.x.ln, |c.order|, Having(c.x, c.tools, c.filter, t));
  }

  lemma TermMissing(c: Setting, k: string, t: Bytes)
    requires k in c.tools && Occurs(c.x, c.tools, k, t) == 0
    ensures c.Term(k, t) == 0.0
  {
    DocOf(c.x, c.tools, k, t);
  }

  lemma IncreasingIsLog(ln: real -> real)
    requires Increasing(ln)
    ensures Logarithm(ln)
  {
    forall x | x > 1.0 ensures ln(x) > 0.0 { assert ln(1.0) < ln(x); }
  }

  /** Tools with the same terms equally often and of one length score alike. */
  lemma SameTerm(c: Setting, a: string, b: string, t: Bytes)
    requires c.Valid() && a in Corpus(c.tools, c.filter) && b in Corpus(c.tools, c.filter)
    requires Occurs(c.x, c.tools, a, t) == Occurs(c.x, c.tools, b, t)
    requires Extent(c.x, c.tools, a) == Extent(c.x, c.tools, b)
    ensures c.Term(a, t) == c.Term(b, t)
  {
    hide Idf, TfNorm, TermScore, Weight;
    if Occurs(c.x, c.tools, a, t) > 0 {
      TermIs(c, a, t);
      TermIs(c, b, t);
    } else {
      TermMissing(c, a, t);
      TermMissing(c, b, t);
    }
  }

  lemma OftenerTerm(c: Setting, a: string, b: string, t: Bytes)
    requires c.Valid() && a in Corpus(c.tools, c.filter) && b in Corpus(c.tools, c.filter)
    requires Occurs(c.x, c.tools, a, t) > Occurs(c.x, c.tools, b, t)
    requires Extent(c.x, c.tools, a) == Extent(c.x, c.tools, b)
    ensures c.Term(a, t) > c.Term(b, t)
  {
    hide Idf, TfNorm, TermScore, Weight;
    TermIs(c, a, t);
    var idf, avgdl := Idf(c.x.ln, |c.order|, Having(c.x, c.tools, c.filter, t)), c.All() as real / |c.order| as real;
    var tf, dl := Occurs(c.x, c.tools, a, t), Extent(c.x, c.tools, a);
    if Occurs(c.x, c.tools, b, t) > 0 {
      TermIs(c, b, t);
      OftenerCountsMore(Occurs(c.x, c.tools, b, t), tf, dl, avgdl);
      HeavierNorm(idf, TfNorm(tf, dl, avgdl), TfNorm(Occurs(c.x, c.tools, b, t), dl, avgdl));
    } else {
      TermMissing(c, b, t);
      TfNormPositive(tf, dl, avgdl);
      WeightPositive(idf, TfNorm(tf, dl, avgdl));
    }
  }

  lemma ShorterTerm(c: Setting, a: string, b: string, t: Bytes)
    requires c.Valid() && a in Corpus(c.tools, c.filter) && b in Corpus(c.tools, c.filter)
    requires Occurs(c.x, c.tools, a, t) == Occurs(c.x, c.tools, b, t)
    requires Extent(c.x, c.tools, a) < Extent(c.x, c.tools, b)
    ensures c.Term(a, t) >= c.Term(b, t)
    ensures Occurs(c.x, c.tools, a, t) > 0 ==> c.Term(a, t) > c.Term(b, t)
  {
    hide Idf, TfNorm, TermScore, Weight;
    var tf := Occurs(c.x, c.tools, a, t);
    if tf > 0 {
      TermIs(c, a, t);
      TermIs(c, b, t);
      var idf, avgdl := Idf(c.x.ln, |c.order|, Having(c.x, c.tools, c.filter, t)), c.All() as real / |c.order| as real;
      var dl, dl' := Extent(c.x, c.tools, a), Extent(c.x, c.tools, b);
      ShorterCountsMore(tf, dl, dl', avgdl);
      HeavierNorm(idf, TfNorm(tf, dl, avgdl), TfNorm(tf, dl', avgdl));
    } else {
      TermMissing(c, a, t);
      TermMissing(c, b, t);
    }
  }

  /** One tool has the rarer term as often as the other has the commoner one. */
  lemma RarerTerm(c: Setting, a: string, b: string, t: Bytes, u: Bytes)
    requires c.Valid() && a in Corpus(c.tools, c.filter) && b in Corpus(c.tools, c.filter)
    requires Occurs(c.x, c.tools, a, t) == Occurs(c.x, c.tools, b, u) > 0
    requires Extent(c.x, c.tools, a) == Extent(c.x, c.tools, b)
    requires Having(c.x, c.tools, c.filter, t) < Having(c.x, c.tools, c.filter, u)
    ensures c.Term(a, t) > c.Term(b, u)
  {
    hide Idf, TfNorm, TermScore, Weight;
    TermIs(c, a, t);
    TermIs(c, b, u);
    var n, avgdl := |c.order|, c.All() as real / |c.order| as real;
    var df, df' := Having(c.x, c.tools, c.filter, t), Having(c.x, c.tools, c.filter, u);
    var norm := TfNorm(Occurs(c.x, c.tools, a, t), Extent(c.x, c.tools, a), avgdl);
    RarerWeighsMore(c.x.ln, n, df, df');
    TfNormPositive(Occurs(c.x, c.tools, a, t), Extent(c.x, c.tools, a), avgdl);
    HeavierIdf(Idf(c.x.ln, n, df), Idf(c.x.ln, n, df'), norm);
  }

  // ---- Scores of a whole query ----

  lemma BaseStep(c: Setting, query: seq<Bytes>, k: string)
    requires query != []
    ensures var n := |query| - 1; c.Base(query, k) == c.Base(query[..n], k) + c.Term(k, query[n])
  {
    hide TermScore, Doc, Total;
  }

  /** Scores of two tools compare as those of the terms do. */
  lemma {:induction false} BaseAtLeast(c: Setting, query: seq<Bytes>, a: string, b: string)
    requires forall t :: t in query ==> c.Term(a, t) >= c.Term(b, t)
    ensures c.Base(query, a) >= c.Base(query, b)
    ensures (exists t :: t in query && c.Term(a, t) > c.Term(b, t)) ==> c.Base(query, a) > c.Base(query, b)
  {
    hide TermScore, Doc, Total;
    if query != [] {
      var n := |query| - 1;
      assert query == query[..n] + [query[n]];
      BaseAtLeast(c, query[..n], a, b);
      BaseStep(c, query, a);
      BaseStep(c, query, b);
    }
  }

  lemma TimesMore(query: seq<Bytes>, w: Bytes)
    requires query != []
    ensures var n := |query| - 1; Times(query, w) == Times(query[..n], w) + if query[n] == w then 1 else 0
  {
    assert query == query[..|query| - 1] + [query[|query| - 1]];
  }

  /** How far one more term of the query takes two sums apart. */
  lemma Apart(d: real, d': real, m: nat, n: nat, v: real, w: real, first: bool, second: bool)
    requires d == m as real * v - n as real * w && !(first && second)
    requires d' == d + (if first then v else 0.0) - (if second then w else 0.0)
    ensures d' == (m + if first then 1 else 0) as real * v - (n + if second then 1 else 0) as real * w
  {
    OneMore(m, v);
    OneMore(n, w);
  }

  /** A query of equally many of two terms, and of others on which the tools agree. */
  lemma {:induction false} BaseDifference(c: Setting, query: seq<Bytes>, a: string, b: string, t: Bytes, u: Bytes)
    requires t != u && c.Term(b, t) == 0.0 && c.Term(a, u) == 0.0
    requires forall w :: w in query && w != t && w != u ==> c.Term(a, w) == c.Term(b, w)
    ensures c.Base(query, a) - c.Base(query, b)
         == Times(query, t) as real * c.Term(a, t) - Times(query, u) as real * c.Term(b, u)
  {
    hide TermScore, Doc, Total, Times;
    if query == [] {
      NoTimes(t);
      NoTimes(u);
    } else {
      var n := |query| - 1;
      var rest, w := query[..n], query[n];
      BaseDifference(c, rest, a, b, t, u);
      BaseStep(c, query, a);
      BaseStep(c, query, b);
      TimesMore(query, t);
      TimesMore(query, u);
      Apart(c.Base(rest, a) - c.Base(rest, b), c.Base(query, a) - c.Base(query, b),
            Times(rest, t), Times(rest, u), c.Term(a, t), c.Term(b, u), w == t, w == u);
    }
  }

  lemma NoTimes(t: Bytes)
    ensures Times([], t) == 0
  {
  }

  lemma Dearer(v: real, w: real, n: nat)
    requires v > w && n > 0
    ensures n as real * v - n as real * w > 0.0
  {
    Strictly(v, w, n as real);
  }

  lemma OneMore(n: nat, v: real)
    ensures (n + 1) as real * v == n as real * v + v
  {
  }

  lemma BoostPositive(x: Texts, k: string)
    requires Increasing(x.ln)
    ensures Boost(x, k) >= 1.0
  {
    if x.usage.Some? && x.usage.value(k) > 0 { assert x.ln(1.0) < x.ln(1.0 + x.usage.value(k) as real); }
  }

  lemma EqualBoost(x: Texts, a: string, b: string)
    requires Used(x, a) == Used(x, b)
    ensures Boost(x, a) == Boost(x, b)
  {
  }

  /** A higher base score comes first, among tools equally used. */
  lemma BaseFirst(c: Setting, query: seq<Bytes>, limit: nat, r: seq<string>, a: string, b: string)
    requires c.Valid() && a in Corpus(c.tools, c.filter) && b in Corpus(c.tools, c.filter)
    requires IsBest(c.x, c.tools, c.order, query, limit, r) && Used(c.x, a) == Used(c.x, b)
    requires c.Base(query, a) > c.Base(query, b)
    ensures ComesFirst(r, a, b)
  {
    hide TermScore, Boost, IsTop, Idf, TfNorm;
    IncreasingIsLog(c.x.ln);
    ScoresIff(c.x, c.tools, c.order, query, b);
    EqualBoost(c.x, a, b);
    BoostPositive(c.x, a);
    Strictly(c.Base(query, a), c.Base(query, b), Boost(c.x, a));
    HigherFirst(Hits(c.x, c.tools, c.order, query), Score(c.x, c.tools, c.order, query), limit, r, a, b);
  }

  // ---- What comes first in tier 1 ----

  /** Both tools are searched. */
  ghost predicate Both(tools: map<string, Entry>, filter: Option<seq<string>>, a: string, b: string) {
    a in Corpus(tools, filter) && b in Corpus(tools, filter)
  }

  lemma RarerBase(c: Setting, query: seq<Bytes>, a: string, b: string, t: Bytes, u: Bytes)
    requires c.Valid() && Both(c.tools, c.filter, a, b) && Extent(c.x, c.tools, a) == Extent(c.x, c.tools, b)
    requires Occurs(c.x, c.tools, a, u) == Occurs(c.x, c.tools, b, t) == 0 && c.Term(a, t) > c.Term(b, u)
    requires Times(query, t) == Times(query, u) > 0 && t != u
    requires forall w :: w in query && w != t && w != u ==> Occurs(c.x, c.tools, a, w) == Occurs(c.x, c.tools, b, w)
    ensures c.Base(query, a) > c.Base(query, b)
  {
    hide TermScore, Doc, Total, Times, Occurs, Extent, BaseScore;
    TermMissing(c, b, t);
    TermMissing(c, a, u);
    forall w | w in query && w != t && w != u ensures c.Term(a, w) == c.Term(b, w) { SameTerm(c, a, b, w); }
    BaseDifference(c, query, a, b, t, u);
    var m, v, w := Times(query, t), c.Term(a, t), c.Term(b, u);
    assert c.Base(query, a) - c.Base(query, b) == m as real * v - m as real * w;
    Dearer(v, w, m);
  }

  /** Of two tools of one length, equally used, one having the first of two terms as often as the other has the second,
      and agreeing on the rest of the query, the one with the rarer term comes first. */
  lemma RarerFirst(x: Texts, tools: map<string, Entry>, query: seq<Bytes>, limit: nat, filter: Option<seq<string>>,
                   r: seq<string>, a: string, b: string, t: Bytes, u: Bytes)
    requires Increasing(x.ln) && IsBm25(x, tools, query, limit, filter, r) && Both(tools, filter, a, b)
    requires Times(query, t) == Times(query, u) > 0 && Used(x, a) == Used(x, b)
    requires Extent(x, tools, a) == Extent(x, tools, b)
    requires Occurs(x, tools, a, t) == Occurs(x, tools, b, u) > 0
    requires Occurs(x, tools, a, u) == Occurs(x, tools, b, t) == 0
    requires forall w :: w in query && w != t && w != u ==> Occurs(x, tools, a, w) == Occurs(x, tools, b, w)
    requires Having(x, tools, filter, t) < Having(x, tools, filter, u)
    ensures ComesFirst(r, a, b)
  {
    hide TermScore, IsBest, Occurs, Extent, Having;
    var order :| Enumerates(order, Corpus(tools, filter)) && IsBest(x, tools, order, query, limit, r);
    var c := Setting(x, tools, filter, order);
    RarerTerm(c, a, b, t, u);
    RarerBase(c, query, a, b, t, u);
    BaseFirst(c, query, limit, r, a, b);
  }

  /** Of two tools of one length, equally used, the one that has a term of the query oftener, and no other less often,
      comes first. */
  lemma OftenerFirst(x: Texts, tools: map<string, Entry>, query: seq<Bytes>, limit: nat, filter: Option<seq<string>>,
                     r: seq<string>, a: string, b: string, t: Bytes)
    requires Increasing(x.ln) && IsBm25(x, tools, query, limit, filter, r) && Both(tools, filter, a, b)
    requires t in query && Used(x, a) == Used(x, b) && Extent(x, tools, a) == Extent(x, tools, b)
    requires Occurs(x, tools, a, t) > Occurs(x, tools, b, t)
    requires forall w :: w in query ==> Occurs(x, tools, a, w) >= Occurs(x, tools, b, w)
    ensures ComesFirst(r, a, b)
  {
    hide TermScore, IsBest, Occurs, Extent;
    var order :| Enumerates(order, Corpus(tools, filter)) && IsBest(x, tools, order, query, limit, r);
    var c := Setting(x, tools, filter, order);
    forall w | w in query ensures c.Term(a, w) >= c.Term(b, w) {
      if Occurs(x, tools, a, w) > Occurs(x, tools, b, w) { OftenerTerm(c, a, b, w); } else { SameTerm(c, a, b, w); }
    }
    OftenerTerm(c, a, b, t);
    BaseAtLeast(c, query, a, b);
    BaseFirst(c, query, limit, r, a, b);
  }

  /** Of two tools with the terms of the query equally often, some at all, and equally used, the shorter comes first. */
  lemma ShorterFirst(x: Texts, tools: map<string, Entry>, query: seq<Bytes>, limit: nat, filter: Option<seq<string>>,
                     r: seq<string>, a: string, b: string, t: Bytes)
    requires Increasing(x.ln) && IsBm25(x, tools, query, limit, filter, r) && Both(tools, filter, a, b)
    requires t in query && Used(x, a) == Used(x, b) && Extent(x, tools, a) < Extent(x, tools, b)
    requires Occurs(x, tools, a, t) > 0
    requires forall w :: w in query ==> Occurs(x, tools, a, w) == Occurs(x, tools, b, w)
    ensures ComesFirst(r, a, b)
  {
    hide TermScore, IsBest, Occurs, Extent;
    var order :| Enumerates(order, Corpus(tools, filter)) && IsBest(x, tools, order, query, limit, r);
    var c := Setting(x, tools, filter, order);
    forall w | w in query ensures c.Term(a, w) >= c.Term(b, w) { ShorterTerm(c, a, b, w); }
    ShorterTerm(c, a, b, t);
    BaseAtLeast(c, query, a, b);
    BaseFirst(c, query, limit, r, a, b);
  }

  lemma {:induction false} SameBase(c: Setting, query: seq<Bytes>, a: string, b: string)
    requires forall t :: t in query ==> c.Term(a, t) == c.Term(b, t)
    ensures c.Base(query, a) == c.Base(query, b)
  {
    hide TermScore, Doc, Total;
    if query != [] {
      var n := |query| - 1;
      assert query == query[..n] + [query[n]];
      SameBase(c, query[..n], a, b);
      BaseStep(c, query, a);
      BaseStep(c, query, b);
    }
  }

  /** Of two tools alike in length and in the terms of the query, some of which they have, the more used comes first. */
  lemma MoreUsedFirst(x: Texts, tools: map<string, Entry>, query: seq<Bytes>, limit: nat, filter: Option<seq<string>>,
                      r: seq<string>, a: string, b: string, t: Bytes)
    requires Increasing(x.ln) && IsBm25(x, tools, query, limit, filter, r) && Both(tools, filter, a, b)
    requires t in query && Occurs(x, tools, a, t) > 0 && Extent(x, tools, a) == Extent(x, tools, b)
    requires forall w :: w in query ==> Occurs(x, tools, a, w) == Occurs(x, tools, b, w)
    requires Used(x, a) > Used(x, b)
    ensures ComesFirst(r, a, b)
  {
    hide TermScore, Boost, IsTop, Doc, Total;
    var order :| Enumerates(order, Corpus(tools, filter)) && IsBest(x, tools, order, query, limit, r);
    var c := Setting(x, tools, filter, order);
    forall w | w in query ensures c.Term(a, w) == c.Term(b, w) { SameTerm(c, a, b, w); }
    SameBase(c, query, a, b);
    IncreasingIsLog(x.ln);
    ScoresIff(x, tools, order, query, a);
    DocOf(x, tools, a, t);
    MoreBoost(x, a, b);
    Strictly(Boost(x, a), Boost(x, b), c.Base(query, a));
    HigherFirst(Hits(x, tools, order, query), Score(x, tools, order, query), limit, r, a, b);
  }

  lemma MoreBoost(x: Texts, a: string, b: string)
    requires Increasing(x.ln) && Used(x, a) > Used(x, b)
    ensures Boost(x, a) > Boost(x, b)
  {
    assert x.ln(1.0 + x.usage.value(b) as real) < x.ln(1.0 + x.usage.value(a) as real);
  }

  // ---- Tier 2 ----

  /** The trigrams the query and a tool have in common, and those of either. */
  function Shared(x: Texts, tools: map<string, Entry>, query: string, k: string): nat
    requires k in tools
  {
    |x.trigrams(query) * x.trigrams(tools[k].name + " " + tools[k].description)|
  }

  function Either(x: Texts, tools: map<string, Entry>, query: string, k: string): nat
    requires k in tools
  {
    |x.trigrams(query) + x.trigrams(tools[k].name + " " + tools[k].description)|
  }

  lemma SimilarityIs(x: Texts, tools: map<string, Entry>, query: string, k: string)
    requires k in tools && Either(x, tools, query, k) > 0
    ensures TrigramScore(x, tools, query, k)
         == Shared(x, tools, query, k) as real / Either(x, tools, query, k) as real
  {
    if DocTrigrams(x, tools[k]) == {} { assert x.trigrams(query) * DocTrigrams(x, tools[k]) == {}; }
  }

  lemma ShareOver(p: nat, q: nat)
    requires q > 0
    ensures p as real / q as real > 0.05 <==> 20 * p > q
  {
    if 20 * p > q {
      Cross(1.0, 20.0, p as real, q as real);
    } else if 20 * p < q {
      Cross(p as real, q as real, 1.0, 20.0);
    } else {
      Quotients(p as real, q as real);
    }
  }

  lemma Quotients(p: real, q: real)
    requires q > 0.0 && 20.0 * p == q
    ensures p / q == 0.05
  {
  }

  lemma NothingEither(p: set<Bytes>, q: set<Bytes>)
    requires |p + q| == 0
    ensures q == {} && |p * q| == 0
  {
    assert p + q == {};
    assert q <= p + q && p * q <= p + q;
  }

  /** A tool is similar exactly if more than one trigram in twenty is shared. */
  lemma SimilarIff(x: Texts, tools: map<string, Entry>, query: string, filter: Option<seq<string>>, k: string)
    requires k in Corpus(tools, filter)
    ensures k in TrigramHits(x, tools, query, Corpus(tools, filter))
            <==> 20 * Shared(x, tools, query, k) > Either(x, tools, query, k)
  {
    if Either(x, tools, query, k) > 0 {
      hide Similarity;
      SimilarityIs(x, tools, query, k);
      ShareOver(Shared(x, tools, query, k), Either(x, tools, query, k));
    } else {
      NothingEither(x.trigrams(query), DocTrigrams(x, tools[k]));
    }
  }

  lemma LargerShare(p: nat, q: nat, p': nat, q': nat)
    requires q > 0 && q' > 0 && p * q' > p' * q
    ensures p as real / q as real > p' as real / q' as real
  {
    assert (p' * q) as real == p' as real * q as real && (p * q') as real == p as real * q' as real;
    Cross(p' as real, q' as real, p as real, q as real);
  }

  lemma HigherRank(x: Texts, tools: map<string, Entry>, query: string, a: string, b: string)
    requires Increasing(x.ln) && Used(x, a) == Used(x, b)
    requires TrigramScore(x, tools, query, a) > TrigramScore(x, tools, query, b)
    ensures TrigramRank(x, tools, query)(a) > TrigramRank(x, tools, query)(b)
  {
    hide TrigramScore, Boost;
    EqualBoost(x, a, b);
    BoostPositive(x, a);
    Strictly(TrigramScore(x, tools, query, a), TrigramScore(x, tools, query, b), Boost(x, a));
  }

  /** Of two similar tools equally used, the one sharing the larger part of the trigrams comes first. */
  lemma MoreSimilarFirst(x: Texts, tools: map<string, Entry>, query: string, limit: nat, filter: Option<seq<string>>,
                         r: seq<string>, a: string, b: string)
    requires Increasing(x.ln) && IsTrigram(x, tools, query, limit, filter, r) && Both(tools, filter, a, b)
    requires Used(x, a) == Used(x, b)
    requires Shared(x, tools, query, a) * Either(x, tools, query, b)
           > Shared(x, tools, query, b) * Either(x, tools, query, a)
    requires 20 * Shared(x, tools, query, a) > Either(x, tools, query, a) > 0 && Either(x, tools, query, b) > 0
    ensures ComesFirst(r, a, b)
  {
    hide Boost, IsTop, Similarity, TrigramRank, TrigramHits;
    SimilarIff(x, tools, query, filter, a);
    SimilarityIs(x, tools, query, a);
    SimilarityIs(x, tools, query, b);
    var p, q := Shared(x, tools, query, a), Either(x, tools, query, a);
    var p', q' := Shared(x, tools, query, b), Either(x, tools, query, b);
    LargerShare(p, q, p', q');
    HigherRank(x, tools, query, a, b);
    HigherFirst(TrigramHits(x, tools, query, Corpus(tools, filter)), TrigramRank(x, tools, query), limit, r, a, b);
  }

  // ---- What is found at all ----

  lemma Bm25Within(x: Texts, tools: map<string, Entry>, query: seq<Bytes>, limit: nat, filter: Option<seq<string>>,
                   r: seq<string>)
    requires IsBm25(x, tools, query, limit, filter, r)
    ensures |r| <= limit && forall k :: k in r ==> k in Corpus(tools, filter)
  {
    var order :| Enumerates(order, Corpus(tools, filter)) && IsBest(x, tools, order, query, limit, r);
  }

  /** A search returns at most `limit` tools, and only tools that have one of the tags asked for. */
  lemma FoundHasTag(x: Texts, tools: map<string, Entry>, query: string, limit: nat, filter: Option<seq<string>>,
                    r: seq<string>, k: string)
    requires IsSearch(x, tools, query, limit, filter, r) && k in r
    ensures |r| <= limit && k in tools
    ensures filter.Some? ==> exists tag :: tag in tools[k].tags && tag in filter.value
  {
    var terms := x.tokens(query);
    if !IsBm25(x, tools, terms, limit, filter, []) {
      Bm25Within(x, tools, terms, limit, filter, r);
    } else if !IsTrigram(x, tools, query, limit, filter, []) {
      assert k in TrigramHits(x, tools, query, Corpus(tools, filter));
    } else {
      var corrected :| CorrectsAll(terms, Vocabulary(x, tools), corrected)
        && if corrected == terms then r == [] else IsBm25(x, tools, corrected, limit, filter, r);
      Bm25Within(x, tools, corrected, limit, filter, r);
    }
    TagsMatch(tools, filter, k);
  }

  lemma TagsMatch(tools: map<string, Entry>, filter: Option<seq<string>>, k: string)
    requires k in Corpus(tools, filter)
    ensures k in tools && (filter.Some? ==> exists tag :: tag in tools[k].tags && tag in filter.value)
  {
    if filter.Some? {
      var i :| 0 <= i < |tools[k].tags| && tools[k].tags[i] in filter.value;
      assert tools[k].tags[i] in tools[k].tags;
    }
  }

  /** A tool searched that has a token of the query. */
  ghost predicate HasToken(x: Texts, tools: map<string, Entry>, filter: Option<seq<string>>, terms: seq<Bytes>,
                           k: string)
  {
    k in Corpus(tools, filter) && exists t :: t in terms && Occurs(x, tools, k, t) > 0
  }

  lemma HitIff(x: Texts, tools: map<string, Entry>, order: seq<string>, filter: Option<seq<string>>, terms: seq<Bytes>,
               k: string)
    requires Logarithm(x.ln) && Enumerates(order, Corpus(tools, filter))
    ensures k in Hits(x, tools, order, terms) <==> HasToken(x, tools, filter, terms, k)
  {
    if k in order {
      assert k in Corpus(tools, filter);
      ScoresIff(x, tools, order, terms, k);
      forall t ensures t in Doc(x, tools, k) <==> Occurs(x, tools, k, t) > 0 { DocOf(x, tools, k, t); }
    }
  }

  /** If some tool has a token of the query, a search returns tools that have one, and all of them if the limit
      allows. */
  lemma ExactFirst(x: Texts, tools: map<string, Entry>, query: string, limit: nat, filter: Option<seq<string>>,
                   r: seq<string>, k: string)
    requires Logarithm(x.ln) && limit >= 1 && IsSearch(x, tools, query, limit, filter, r)
    requires exists l :: HasToken(x, tools, filter, x.tokens(query), l)
    ensures k in r ==> HasToken(x, tools, filter, x.tokens(query), k)
    ensures HasToken(x, tools, filter, x.tokens(query), k) && |Corpus(tools, filter)| <= limit ==> k in r
  {
    var terms := x.tokens(query);
    var l :| HasToken(x, tools, filter, terms, l);
    SomeTokenHeld(x, tools, filter, terms, l);
    Bm25EmptyIff(x, tools, terms, limit, filter);
    var order :| Enumerates(order, Corpus(tools, filter)) && IsBest(x, tools, order, terms, limit, r);
    HitIff(x, tools, order, filter, terms, k);
    AllShown(Hits(x, tools, order, terms), Score(x, tools, order, terms), limit, r, Corpus(tools, filter), k);
  }

  lemma SomeTokenHeld(x: Texts, tools: map<string, Entry>, filter: Option<seq<string>>, terms: seq<Bytes>, l: string)
    requires HasToken(x, tools, filter, terms, l)
    ensures SomeToken(x, tools, terms, filter)
  {
    var t :| t in terms && Occurs(x, tools, l, t) > 0;
    DocOf(x, tools, l, t);
  }

  /** With room for all, the top of the hits is all of them. */
  lemma AllShown(hits: set<string>, score: string -> real, limit: nat, r: seq<string>, corpus: set<string>, k: string)
    requires IsTop(hits, score, limit, r)
    ensures k in r ==> k in hits
    ensures k in hits && hits <= corpus && |corpus| <= limit ==> k in r
  {
    if k in hits && hits <= corpus && |corpus| <= limit && k !in r {
      Fewer(hits, corpus);
      var shown := set y | y in r;
      Shown(r, shown, score);
      assert shown <= hits - {k};
      Fewer(shown, hits - {k});
    }
  }

  lemma Fewer(p: set<string>, q: set<string>)
    requires p <= q
    ensures |p| <= |q|
  {
    assert q == p + (q - p);
  }

  /** A sorted list has no name twice. */
  lemma {:induction false} Shown(r: seq<string>, shown: set<string>, score: string -> real)
    requires Sorted(score, r) && shown == set y | y in r
    ensures |shown| == |r|
  {
    if r != [] {
      var n := |r| - 1;
      var rest := set y | y in r[..n];
      Shown(r[..n], rest, score);
      forall i | 0 <= i < n ensures r[i] != r[n] { BeforeTotal(score, r[i], r[n]); }
      assert r == r[..n] + [r[n]] && shown == rest + {r[n]} && r[n] !in rest;
    }
  }

  // ---- Ties, and the words corrections come from ----

  /** One name is a beginning of the other, or has the lesser character where they first differ. */
  ghost predicate Alphabetical(a: string, b: string) {
    || (|a| < |b| && a == b[..|a|])
    || exists i :: 0 <= i < |a| && i < |b| && a[..i] == b[..i] && a[i] < b[i]
  }

  lemma {:induction false} AlphabeticalIsLess(a: string, b: string)
    requires Alphabetical(a, b)
    ensures Less(a, b)
  {
    if a != [] && a[0] == b[0] {
      if i :| 0 <= i < |a| && i < |b| && a[..i] == b[..i] && a[i] < b[i] {
        assert a[1..][..i - 1] == a[..i][1..] && b[1..][..i - 1] == b[..i][1..];
        assert a[1..][i - 1] == a[i] && b[1..][i - 1] == b[i];
      } else {
        assert a[1..] == b[..|a|][1..] && b[1..][..|a| - 1] == b[..|a|][1..];
      }
      AlphabeticalIsLess(a[1..], b[1..]);
    } else if a != [] {
      FirstDiffers(a, b);
    }
  }

  lemma FirstDiffers(a: string, b: string)
    requires Alphabetical(a, b) && a != [] && b != [] && a[0] != b[0]
    ensures a[0] < b[0]
  {
  }

  /** Of two tools alike in length, terms of the query and usage, the alphabetically first comes first. */
  lemma TieByName(x: Texts, tools: map<string, Entry>, query: seq<Bytes>, limit: nat, filter: Option<seq<string>>,
                  r: seq<string>, a: string, b: string, t: Bytes)
    requires Increasing(x.ln) && IsBm25(x, tools, query, limit, filter, r) && Both(tools, filter, a, b)
    requires t in query && Occurs(x, tools, a, t) > 0 && Extent(x, tools, a) == Extent(x, tools, b)
    requires forall w :: w in query ==> Occurs(x, tools, a, w) == Occurs(x, tools, b, w)
    requires Used(x, a) == Used(x, b) && Alphabetical(a, b)
    ensures ComesFirst(r, a, b)
  {
    hide TermScore, Boost, IsTop, Doc, Total, Alphabetical, Less;
    var order :| Enumerates(order, Corpus(tools, filter)) && IsBest(x, tools, order, query, limit, r);
    var c := Setting(x, tools, filter, order);
    forall w | w in query ensures c.Term(a, w) == c.Term(b, w) { SameTerm(c, a, b, w); }
    SameBase(c, query, a, b);
    EqualBoost(x, a, b);
    IncreasingIsLog(x.ln);
    ScoresIff(x, tools, order, query, a);
    DocOf(x, tools, a, t);
    AlphabeticalIsLess(a, b);
    EarlierFirst(Hits(x, tools, order, query), Score(x, tools, order, query), limit, r, a, b);
  }

  lemma EarlierFirst(hits: set<string>, score: string -> real, limit: nat, r: seq<string>, a: string, b: string)
    requires IsTop(hits, score, limit, r) && a in hits && Before(score, a, b)
    ensures ComesFirst(r, a, b)
  {
    if b in r {
      var j :| 0 <= j < |r| && r[j] == b;
      BeforeTotal(score, a, b);
      assert a in r;
      var i :| 0 <= i < |r| && r[i] == a;
      assert i <= j;
    }
  }

  /** Terms are corrected to tokens of three bytes or more, from the name or the description of any tool. */
  lemma VocabularyIff(x: Texts, tools: map<string, Entry>, t: Bytes)
    ensures t in Vocabulary(x, tools) <==>
            |t| >= 3 && exists k :: k in tools && (t in x.tokens(tools[k].name) || t in x.tokens(tools[k].description))
  {
    if |t| >= 3 {
      if k :| k in tools && (t in x.tokens(tools[k].name) || t in x.tokens(tools[k].description)) {
        assert t in ToolWords(x, tools[k]);
      }
    }
  }
}
