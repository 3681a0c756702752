/** Tiered search (src/registry.rs): exact tokens, then trigrams, then corrected tokens.  Results are tool keys. */
module Search {
  import opened ByteStrings
  import opened Options
  import opened Registry
  import opened Fuzzy
  import opened Ranking
  import opened Scoring

  // ---- Trigrams ----

  function DocTrigrams(x: Texts, e: Entry): set<Bytes> { x.trigrams(e.name + " " + e.description) }

  lemma UnionNotEmpty(p: set<Bytes>, q: set<Bytes>)
    requires q != {}
    ensures |p + q| > 0
  {
    var t :| t in q;
    assert t in p + q;
  }

  /** The share of trigrams in common. */
  function Similarity(p: set<Bytes>, q: set<Bytes>): real {
    if q == {} then 0.0
    else
      UnionNotEmpty(p, q);
      |p * q| as real / |p + q| as real
  }

  function TrigramScore(x: Texts, tools: map<string, Entry>, query: string, k: string): real {
    if k in tools then Similarity(x.trigrams(query), DocTrigrams(x, tools[k])) else 0.0
  }

  function TrigramRank(x: Texts, tools: map<string, Entry>, query: string): string -> real {
    k => TrigramScore(x, tools, query, k) * Boost(x, k)
  }

  function TrigramHits(x: Texts, tools: map<string, Entry>, query: string, corpus: set<string>): set<string> {
    set k | k in corpus && TrigramScore(x, tools, query, k) > 0.05
  }

  /** Nothing is similar to no trigrams. */
  lemma NoTrigrams(x: Texts, tools: map<string, Entry>, query: string, corpus: set<string>)
    requires x.trigrams(query) == {}
    ensures TrigramHits(x, tools, query, corpus) == {}
  {
    forall k | k in corpus ensures TrigramScore(x, tools, query, k) == 0.0 {
      if k in tools { assert x.trigrams(query) * DocTrigrams(x, tools[k]) == {}; }
    }
  }

  // ---- Results of the tiers ----

  ghost predicate IsBm25(x: Texts, tools: map<string, Entry>, query: seq<Bytes>, limit: nat,
                         filter: Option<seq<string>>, r: seq<string>) {
    exists order :: Enumerates(order, Corpus(tools, filter)) && IsBest(x, tools, order, query, limit, r)
  }

  ghost predicate IsTrigram(x: Texts, tools: map<string, Entry>, query: string, limit: nat,
                            filter: Option<seq<string>>, r: seq<string>) {
    IsTop(TrigramHits(x, tools, query, Corpus(tools, filter)), TrigramRank(x, tools, query), limit, r)
  }

  /** The corpus in the order the concurrent map happens to be walked. */
  method BuildCorpus(tools: map<string, Entry>, filter: Option<seq<string>>) returns (order: seq<string>)
    ensures Enumerates(order, Corpus(tools, filter))
  {
    order := [];
    var left := tools.Keys;
    while left != {}
      invariant left <= tools.Keys && Enumerates(order, Corpus(tools, filter) - left)
      decreases |left|
    {
      var k :| k in left;
      left := left - {k};
      if Matches(tools[k], filter) { order := order + [k]; }
    }
    assert Corpus(tools, filter) - left == Corpus(tools, filter);
  }

  method Sum(order: seq<string>, f: string -> nat) returns (total: nat)
    ensures total == Total(order, f)
  {
    total := 0;
    var i := 0;
    while i < |order|
      invariant i <= |order| && total == Total(order[..i], f)
    {
      assert order[..i + 1][..i] == order[..i];
      total := total + f(order[i]);
      i := i + 1;
    }
    assert order[..i] == order;
  }

  /** In how many documents each term of the query occurs. */
  method DocFrequencies(x: Texts, tools: map<string, Entry>, order: seq<string>, query: seq<Bytes>)
    returns (df: map<Bytes, nat>)
    ensures forall t :: t in query ==> t in df && df[t] == Total(order, Contains(x, tools, t))
  {
    df := map[];
    var i := 0;
    while i < |query|
      invariant i <= |query|
      invariant forall t :: t in query[..i] ==> t in df && df[t] == Total(order, Contains(x, tools, t))
    {
      var count := Sum(order, Contains(x, tools, query[i]));
      df := df[query[i] := count];
      i := i + 1;
    }
    assert query[..i] == query;
  }

  method ScoreDoc(x: Texts, tools: map<string, Entry>, order: seq<string>, query: seq<Bytes>, k: string,
                  all: nat, df: map<Bytes, nat>)
    returns (score: real)
    requires all == Total(order, Length(x, tools))
    requires forall t :: t in query ==> t in df && df[t] == Total(order, Contains(x, tools, t))
    ensures score == BaseScore(x, tools, order, query, k)
  {
    score := 0.0;
    var i := 0;
    while i < |query|
      invariant i <= |query| && score == BaseScore(x, tools, order, query[..i], k)
    {
      assert query[..i + 1][..i] == query[..i];
      score := score + TermScore(x, Doc(x, tools, k), |order|, all, df[query[i]], query[i]);
      i := i + 1;
    }
    assert query[..i] == query;
  }

  method CollectHits(x: Texts, tools: map<string, Entry>, order: seq<string>, query: seq<Bytes>,
                     all: nat, df: map<Bytes, nat>)
    returns (scored: seq<string>)
    requires forall p, q :: 0 <= p < q < |order| ==> order[p] != order[q]
    requires all == Total(order, Length(x, tools))
    requires forall t :: t in query ==> t in df && df[t] == Total(order, Contains(x, tools, t))
    ensures forall k :: k in scored <==> k in Hits(x, tools, order, query)
    ensures forall p, q :: 0 <= p < q < |scored| ==> scored[p] != scored[q]
  {
    scored := [];
    ghost var hits := Hits(x, tools, order, query);
    var i := 0;
    while i < |order|
      invariant i <= |order|
      invariant forall k :: k in scored <==> k in hits && k in order[..i]
      invariant forall p, q :: 0 <= p < q < |scored| ==> scored[p] != scored[q]
    {
      var score := ScoreDoc(x, tools, order, query, order[i], all, df);
      assert order[i] !in order[..i];
      if score > 0.0 { scored := scored + [order[i]]; }
      i := i + 1;
    }
    assert order[..i] == order;
  }

  /** `bm25_search`. */
  method Bm25Search(x: Texts, tools: map<string, Entry>, query: seq<Bytes>, limit: nat, filter: Option<seq<string>>)
    returns (r: seq<string>)
    ensures IsBm25(x, tools, query, limit, filter, r)
  {
    var order := BuildCorpus(tools, filter);
    var all := Sum(order, Length(x, tools));
    var df := DocFrequencies(x, tools, order, query);
    var scored := CollectHits(x, tools, order, query, all, df);
    SortedTop(Score(x, tools, order, query), scored, Hits(x, tools, order, query), limit);
    r := Truncate(Sort(Score(x, tools, order, query), scored), limit);
  }

  /** `trigram_search`. */
  method TrigramSearch(x: Texts, tools: map<string, Entry>, query: string, limit: nat, filter: Option<seq<string>>)
    returns (r: seq<string>)
    ensures IsTrigram(x, tools, query, limit, filter, r)
  {
    if x.trigrams(query) == {} {
      NoTrigrams(x, tools, query, Corpus(tools, filter));
      return [];
    }
    var order := BuildCorpus(tools, filter);
    var scored: seq<string> := [];
    ghost var hits := TrigramHits(x, tools, query, Corpus(tools, filter));
    var i := 0;
    while i < |order|
      invariant i <= |order|
      invariant forall k :: k in scored <==> k in hits && k in order[..i]
      invariant forall p, q :: 0 <= p < q < |scored| ==> scored[p] != scored[q]
    {
      assert order[i] in order && order[i] !in order[..i];
      if TrigramScore(x, tools, query, order[i]) > 0.05 { scored := scored + [order[i]]; }
      i := i + 1;
    }
    assert order[..i] == order;
    SortedTop(TrigramRank(x, tools, query), scored, hits, limit);
    r := Truncate(Sort(TrigramRank(x, tools, query), scored), limit);
  }

  // ---- The three tiers ----

  function ToolWords(x: Texts, e: Entry): set<Bytes> {
    set t | t in x.tokens(e.name) + x.tokens(e.description) && |t| >= 3
  }

  function WordsOf(x: Texts, tools: map<string, Entry>, keys: set<string>): set<Bytes> {
    set k, t | k in keys && k in tools && t in ToolWords(x, tools[k]) :: t
  }

  /** The words of three bytes or more of all tools, whatever their tags. */
  function Vocabulary(x: Texts, tools: map<string, Entry>): set<Bytes> { WordsOf(x, tools, tools.Keys) }

  lemma WordsOfOneMore(x: Texts, tools: map<string, Entry>, keys: set<string>, k: string)
    requires k in tools
    ensures WordsOf(x, tools, keys + {k}) == WordsOf(x, tools, keys) + ToolWords(x, tools[k])
  {
    forall t | t in ToolWords(x, tools[k]) ensures t in WordsOf(x, tools, keys + {k}) { assert k in keys + {k}; }
  }

  method ListVocabulary(x: Texts, tools: map<string, Entry>) returns (vocabulary: seq<Bytes>)
    ensures Words(vocabulary) == Vocabulary(x, tools)
  {
    var left, vocab: set<Bytes> := tools.Keys, {};
    while left != {}
      invariant left <= tools.Keys && vocab == WordsOf(x, tools, tools.Keys - left)
      decreases |left|
    {
      var k :| k in left;
      WordsOfOneMore(x, tools, tools.Keys - left, k);
      assert tools.Keys - (left - {k}) == tools.Keys - left + {k};
      left := left - {k};
      vocab := vocab + ToolWords(x, tools[k]);
    }
    assert tools.Keys - left == tools.Keys;
    vocabulary := ListOf(vocab);
  }

  method ListOf(words: set<Bytes>) returns (list: seq<Bytes>)
    ensures Words(list) == words
  {
    var left := words;
    list := [];
    while left != {}
      invariant left <= words && Words(list) == words - left
      decreases |left|
    {
      var w :| w in left;
      assert Words(list + [w]) == Words(list) + {w};
      left, list := left - {w}, list + [w];
    }
  }

  /** What `search` may return. */
  ghost predicate IsSearch(x: Texts, tools: map<string, Entry>, query: string, limit: nat,
                           filter: Option<seq<string>>, r: seq<string>) {
    var terms := x.tokens(query);
    if terms == [] then r == []
    else if !IsBm25(x, tools, terms, limit, filter, []) then IsBm25(x, tools, terms, limit, filter, r)
    else if !IsTrigram(x, tools, query, limit, filter, []) then IsTrigram(x, tools, query, limit, filter, r)
    else exists corrected :: CorrectsAll(terms, Vocabulary(x, tools), corrected)
           && if corrected == terms then r == [] else IsBm25(x, tools, corrected, limit, filter, r)
  }

  /** A tier that finds something has no empty result. */
  lemma Bm25Unique(x: Texts, tools: map<string, Entry>, query: seq<Bytes>, limit: nat, filter: Option<seq<string>>,
                   r: seq<string>, r': seq<string>)
    requires IsBm25(x, tools, query, limit, filter, r) && IsBm25(x, tools, query, limit, filter, r')
    ensures r == r'
  {
    var order :| Enumerates(order, Corpus(tools, filter)) && IsBest(x, tools, order, query, limit, r);
    var order' :| Enumerates(order', Corpus(tools, filter)) && IsBest(x, tools, order', query, limit, r');
    BestAnyOrder(x, tools, order', order, Corpus(tools, filter), query, limit, r');
    TopUnique(Hits(x, tools, order, query), Score(x, tools, order, query), limit, r, r');
  }

  lemma TrigramUnique(x: Texts, tools: map<string, Entry>, query: string, limit: nat, filter: Option<seq<string>>,
                      r: seq<string>, r': seq<string>)
    requires IsTrigram(x, tools, query, limit, filter, r) && IsTrigram(x, tools, query, limit, filter, r')
    ensures r == r'
  {
    TopUnique(TrigramHits(x, tools, query, Corpus(tools, filter)), TrigramRank(x, tools, query), limit, r, r');
  }

  method Search(x: Texts, tools: map<string, Entry>, query: string, limit: nat, filter: Option<seq<string>>)
    returns (r: seq<string>)
    ensures IsSearch(x, tools, query, limit, filter, r)
  {
    var terms := x.tokens(query);
    if terms == [] { return []; }
    r := Bm25Search(x, tools, terms, limit, filter);
    if r != [] {
      if IsBm25(x, tools, terms, limit, filter, []) { Bm25Unique(x, tools, terms, limit, filter, r, []); }
      return;
    }
    r := TrigramSearch(x, tools, query, limit, filter);
    if r != [] {
      if IsTrigram(x, tools, query, limit, filter, []) { TrigramUnique(x, tools, query, limit, filter, r, []); }
      return;
    }
    var vocabulary := ListVocabulary(x, tools);
    var corrected := CorrectQuery(terms, vocabulary);
    if corrected != terms {
      r := Bm25Search(x, tools, corrected, limit, filter);
    }
  }

  // ---- When search finds something ----

  ghost predicate SomeToken(x: Texts, tools: map<string, Entry>, query: seq<Bytes>, filter: Option<seq<string>>) {
    exists k, t :: k in Corpus(tools, filter) && t in query && t in Doc(x, tools, k)
  }

  lemma TopEmptyIff(hits: set<string>, score: string -> real, limit: nat, r: seq<string>)
    requires IsTop(hits, score, limit, r) && limit >= 1
    ensures r == [] <==> hits == {}
  {
  }

  /** Tier 1 is empty exactly when no tool that matches the tags contains a token of the query. */
  lemma Tier1EmptyIff(x: Texts, tools: map<string, Entry>, query: seq<Bytes>, limit: nat,
                      filter: Option<seq<string>>, r: seq<string>)
    requires Logarithm(x.ln) && limit >= 1 && IsBm25(x, tools, query, limit, filter, r)
    ensures r == [] <==> !SomeToken(x, tools, query, filter)
  {
    var order :| Enumerates(order, Corpus(tools, filter)) && IsBest(x, tools, order, query, limit, r);
    TopEmptyIff(Hits(x, tools, order, query), Score(x, tools, order, query), limit, r);
    forall k | k in order
      ensures k in Hits(x, tools, order, query) <==> exists t :: t in query && t in Doc(x, tools, k)
    {
      ScoresIff(x, tools, order, query, k);
    }
    if SomeToken(x, tools, query, filter) {
      var k, t :| k in Corpus(tools, filter) && t in query && t in Doc(x, tools, k);
      assert k in order;
    }
  }

  ghost predicate SomeCandidate(x: Texts, tools: map<string, Entry>, terms: seq<Bytes>) {
    exists i :: 0 <= i < |terms| && |terms[i]| >= 3 && Candidates(terms[i], Vocabulary(x, tools)) != {}
  }

  lemma WordsAreTokens(x: Texts, tools: map<string, Entry>, query: seq<Bytes>)
    requires exists t :: t in query && t in Vocabulary(x, tools)
    ensures SomeToken(x, tools, query, None)
  {
    var t :| t in query && t in Vocabulary(x, tools);
    var k :| k in tools && t in ToolWords(x, tools[k]);
    assert k in Corpus(tools, None) && t in Doc(x, tools, k);
  }

  lemma Bm25EmptyIff(x: Texts, tools: map<string, Entry>, query: seq<Bytes>, limit: nat, filter: Option<seq<string>>)
    requires Logarithm(x.ln) && limit >= 1
    ensures IsBm25(x, tools, query, limit, filter, []) <==> !SomeToken(x, tools, query, filter)
  {
    var order := Enumeration(Corpus(tools, filter));
    SortedTopExists(Score(x, tools, order, query), Hits(x, tools, order, query), limit);
    var r :| IsTop(Hits(x, tools, order, query), Score(x, tools, order, query), limit, r);
    assert IsBest(x, tools, order, query, limit, r);
    Tier1EmptyIff(x, tools, query, limit, filter, r);
    if IsBm25(x, tools, query, limit, filter, []) { Tier1EmptyIff(x, tools, query, limit, filter, []); }
  }

  lemma SortedTopExists(score: string -> real, hits: set<string>, limit: nat)
    ensures exists r :: IsTop(hits, score, limit, r)
  {
    var list := Enumeration(hits);
    SortedTop(score, list, hits, limit);
  }

  lemma CorrectionFinds(x: Texts, tools: map<string, Entry>, terms: seq<Bytes>, corrected: seq<Bytes>, limit: nat,
                        r: seq<string>)
    requires Logarithm(x.ln) && limit >= 1 && CorrectsAll(terms, Vocabulary(x, tools), corrected)
    requires if corrected == terms then r == [] else IsBm25(x, tools, corrected, limit, None, r)
    ensures r == [] <==> !SomeCandidate(x, tools, terms)
  {
    ChangedIff(terms, Vocabulary(x, tools), corrected);
    if corrected != terms {
      WordsAreTokens(x, tools, corrected);
      Tier1EmptyIff(x, tools, corrected, limit, None, r);
    }
  }

  /** Without tags a search comes back empty exactly if no tool contains a token of the query, none is similar to
      it, and no token is close to a word: a correction always finds something. */
  lemma SearchEmptyIff(x: Texts, tools: map<string, Entry>, query: string, limit: nat, r: seq<string>)
    requires Logarithm(x.ln) && limit >= 1 && IsSearch(x, tools, query, limit, None, r) && x.tokens(query) != []
    ensures r == [] <==>
              && !SomeToken(x, tools, x.tokens(query), None)
              && TrigramHits(x, tools, query, Corpus(tools, None)) == {}
              && !SomeCandidate(x, tools, x.tokens(query))
  {
    var terms, hits := x.tokens(query), TrigramHits(x, tools, query, Corpus(tools, None));
    Bm25EmptyIff(x, tools, terms, limit, None);
    assert IsTrigram(x, tools, query, limit, None, []) <==> hits == {};
    if SomeToken(x, tools, terms, None) {
      Tier1EmptyIff(x, tools, terms, limit, None, r);
    } else if hits == {} {
      var corrected :| CorrectsAll(terms, Vocabulary(x, tools), corrected)
        && if corrected == terms then r == [] else IsBm25(x, tools, corrected, limit, None, r);
      CorrectionFinds(x, tools, terms, corrected, limit, r);
    }
  }
}
