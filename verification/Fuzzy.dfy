/** Correcting query terms against the vocabulary of the tools (src/registry.rs). */
module Fuzzy {
  import opened ByteStrings
  import opened Levenshtein

  function MaxEditDistance(len: nat): nat { if len <= 4 then 1 else if len <= 12 then 2 else 3 }

  /** Close, but not the term itself. */
  function Candidates(term: Bytes, words: set<Bytes>): set<Bytes> {
    set w | w in words && 0 < Lev(term, w) <= MaxEditDistance(|term|)
  }

  /** A word of the vocabulary at the least positive distance allowed, or else the term unchanged. */
  ghost predicate Corrects(term: Bytes, words: set<Bytes>, r: Bytes) {
    if |term| < 3 || Candidates(term, words) == {} then r == term
    else r in Candidates(term, words) && forall w :: w in words && w != term ==> Lev(term, r) <= Lev(term, w)
  }

  ghost predicate CorrectsAll(terms: seq<Bytes>, words: set<Bytes>, r: seq<Bytes>) {
    |r| == |terms| && forall i :: 0 <= i < |terms| ==> Corrects(terms[i], words, r[i])
  }

  function Words(vocabulary: seq<Bytes>): set<Bytes> { set w | w in vocabulary }

  datatype Best = NoneYet | Word(word: Bytes, dist: nat)

  /** The best of the words seen so far. */
  ghost predicate BestOf(term: Bytes, words: set<Bytes>, best: Best) {
    match best
    case NoneYet => Candidates(term, words) == {}
    case Word(w, dist) =>
      && w in Candidates(term, words) && dist == Lev(term, w)
      && forall c :: c in Candidates(term, words) ==> dist <= Lev(term, c)
  }

  predicate Better(term: Bytes, best: Best, dist: nat) {
    0 < dist <= MaxEditDistance(|term|) && (best.Word? ==> dist < best.dist)
  }

  lemma SeeWord(term: Bytes, words: set<Bytes>, best: Best, w: Bytes)
    requires BestOf(term, words, best)
    ensures BestOf(term, words + {w}, if Better(term, best, Lev(term, w)) then Word(w, Lev(term, w)) else best)
  {
    var near := Candidates(term, words);
    assert Candidates(term, words + {w}) == if 0 < Lev(term, w) <= MaxEditDistance(|term|) then near + {w} else near;
  }

  lemma BestCorrects(term: Bytes, words: set<Bytes>, best: Best)
    requires |term| >= 3 && BestOf(term, words, best)
    ensures Corrects(term, words, if best.Word? then best.word else term)
  {
    if best.Word? {
      forall w | w in words && w != term ensures best.dist <= Lev(term, w) {
        ZeroIffEqual(term, w);
        assert w in Candidates(term, words) || Lev(term, w) > MaxEditDistance(|term|);
      }
    }
  }

  /** One term, over the vocabulary in any order.  The test on lengths loses no candidate. */
  method CorrectTerm(term: Bytes, vocabulary: seq<Bytes>) returns (r: Bytes)
    ensures Corrects(term, Words(vocabulary), r)
  {
    if |term| < 3 { return term; }
    var maxDist := MaxEditDistance(|term|);
    var best := NoneYet;
    var i := 0;
    while i < |vocabulary|
      invariant i <= |vocabulary| && BestOf(term, Words(vocabulary[..i]), best)
    {
      var candidate := vocabulary[i];
      assert Words(vocabulary[..i + 1]) == Words(vocabulary[..i]) + {candidate};
      SeeWord(term, Words(vocabulary[..i]), best, candidate);
      AtLeastGap(term, candidate);
      i := i + 1;
      if Gap(term, candidate) > maxDist { continue; }
      var dist := Distance(term, candidate);
      if dist <= maxDist && dist > 0 && (best.NoneYet? || dist < best.dist) {
        best := Word(candidate, dist);
      }
    }
    assert vocabulary[..i] == vocabulary;
    BestCorrects(term, Words(vocabulary), best);
    r := if best.Word? then best.word else term;
  }

  method CorrectQuery(terms: seq<Bytes>, vocabulary: seq<Bytes>) returns (r: seq<Bytes>)
    ensures CorrectsAll(terms, Words(vocabulary), r)
  {
    r := [];
    while |r| < |terms|
      invariant |r| <= |terms|
      invariant forall i :: 0 <= i < |r| ==> Corrects(terms[i], Words(vocabulary), r[i])
    {
      var word := CorrectTerm(terms[|r|], vocabulary);
      r := r + [word];
    }
  }

  /** In numbers: a term of three bytes or more changes exactly if another word is within one edit, from five bytes on
      two, and from thirteen on three; and then it becomes one of those nearest. */
  lemma CorrectedIff(term: Bytes, words: set<Bytes>, r: Bytes)
    requires Corrects(term, words, r)
    ensures var reach := if |term| >= 13 then 3 else if |term| >= 5 then 2 else 1;
      && (r != term <==> |term| >= 3 && exists w :: w in words && w != term && Lev(term, w) <= reach)
      && (r != term ==> r in words && Lev(term, r) <= reach
                        && forall w :: w in words && w != term ==> Lev(term, r) <= Lev(term, w))
  {
    ZeroIffEqual(term, r);
    if w :| w in words && w != term && Lev(term, w) <= MaxEditDistance(|term|) {
      ZeroIffEqual(term, w);
      assert w in Candidates(term, words);
    }
  }

  /** A query changes exactly if one of its terms has a candidate, and that term becomes a word. */
  lemma ChangedIff(terms: seq<Bytes>, words: set<Bytes>, r: seq<Bytes>)
    requires CorrectsAll(terms, words, r)
    ensures r != terms <==> exists i :: 0 <= i < |terms| && |terms[i]| >= 3 && Candidates(terms[i], words) != {}
    ensures r != terms ==> exists t :: t in r && t in words
  {
    forall i | 0 <= i < |terms|
      ensures r[i] != terms[i] <==> |terms[i]| >= 3 && Candidates(terms[i], words) != {}
      ensures r[i] != terms[i] ==> r[i] in r && r[i] in words
    {
      ZeroIffEqual(terms[i], r[i]);
      assert Corrects(terms[i], words, r[i]);
    }
    if r != terms {
      var i :| 0 <= i < |terms| && r[i] != terms[i];
    }
  }
}
