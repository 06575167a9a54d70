/**
 * dataherb/core/search.py: ranking the registry's Herbs against keywords, and picking Herbs by id.
 */
module Search {

  import opened Wrappers
  import opened Json
  import opened Base

  /** `{"id": ..., "herb": ..., "score": ...}`: one registry entry with its search score. */
  datatype ScoredHerb = ScoredHerb(id: Value, herb: Herb, score: real)

  /** `{"herb": ..., "id": ...}`: one registry entry whose id was asked for. */
  datatype IdMatch = IdMatch(herb: Herb, id: Value)

  /** The default threshold. */
  const DefaultMinScore: real := 50.0

  // ----- Ranking -----

  /** `herb_scores`: one entry per Herb, in registry order, scored against the wrapped keywords. */
  function Scored(flora: seq<Herb>, keywords: Value, scorer: Scorer): seq<ScoredHerb>
    reads flora
  {
    seq(|flora|, i reads flora requires 0 <= i < |flora| => Entry(flora[i], Ranker(keywords, scorer)))
  }

  /** The score of a Herb's metadata against the keywords wrapped in a list. */
  function Ranker(keywords: Value, scorer: Scorer): seq<Member> -> real {
    meta => Score(meta, List(AsList(keywords)), None, scorer)
  }

  /** The entry of one Herb under a scoring of metadata. */
  function Entry(h: Herb, rank: seq<Member> -> real): ScoredHerb
    reads h
  {
    ScoredHerb(h.id, h, rank(h.metaJson))
  }

  /** Entries from the highest score down. */
  ghost predicate NonIncreasing(s: seq<ScoredHerb>) {
    forall i, j :: 0 <= i < j < |s| ==> s[i].score >= s[j].score
  }

  /** Puts `x` into a non-increasing sequence after every entry scoring at least as much. */
  function Insert(s: seq<ScoredHerb>, x: ScoredHerb): seq<ScoredHerb> {
    if s == [] || s[|s| - 1].score >= x.score then s + [x]
    else Insert(s[..|s| - 1], x) + [s[|s| - 1]]
  }

  /** `sorted(s, key=score, reverse=True)`: a stable sort by descending score. */
  function SortDesc(s: seq<ScoredHerb>): seq<ScoredHerb> {
    if s == [] then [] else Insert(SortDesc(s[..|s| - 1]), s[|s| - 1])
  }

  /** `[i for i in s if i["score"] >= min_score]`. */
  function AtLeast(s: seq<ScoredHerb>, minScore: real): seq<ScoredHerb> {
    if s == [] then []
    else AtLeast(s[..|s| - 1], minScore) + (if s[|s| - 1].score >= minScore then [s[|s| - 1]] else [])
  }

  /** The entries with score `v`, in order; stability is a statement about these. */
  function WithScore(s: seq<ScoredHerb>, v: real): seq<ScoredHerb> {
    if s == [] then []
    else WithScore(s[..|s| - 1], v) + (if s[|s| - 1].score == v then [s[|s| - 1]] else [])
  }

  /** `search_by_keywords_in_flora(flora, keywords, min_score=minScore)`. */
  method SearchByKeywords(flora: seq<Herb>, keywords: Value, minScore: real, scorer: Scorer)
    returns (rankedHerbs: seq<ScoredHerb>)
    ensures rankedHerbs == AtLeast(SortDesc(Scored(flora, keywords, scorer)), minScore)
  {
    var kws := List(AsList(keywords));
    var herbScores: seq<ScoredHerb> := [];
    var i := 0;
    while i < |flora|
      invariant 0 <= i <= |flora|
      invariant herbScores == Scored(flora[..i], keywords, scorer)
    {
      var herb := flora[i];
      var score := herb.SearchScore(kws, None, scorer);
      assert herbScores == Scored(flora[..i], keywords, scorer);
      ScoredStep(flora, i, keywords, scorer);
      herbScores := herbScores + [ScoredHerb(herb.id, herb, score)];
      i := i + 1;
    }
    assert flora[..|flora|] == flora;
    rankedHerbs := AtLeast(SortDesc(herbScores), minScore);
  }

  lemma {:induction false} ScoredStep(flora: seq<Herb>, i: nat, keywords: Value, scorer: Scorer)
    requires i < |flora|
    ensures Scored(flora[..i + 1], keywords, scorer) == Scored(flora[..i], keywords, scorer)
              + [Entry(flora[i], Ranker(keywords, scorer))]
  {
    var rank := Ranker(keywords, scorer);
    var a, b := Scored(flora[..i + 1], keywords, scorer), Scored(flora[..i], keywords, scorer) + [Entry(flora[i], rank)];
    assert |a| == |b|;
    forall j | 0 <= j < |a| ensures a[j] == b[j] {
      assert flora[..i + 1][j] == flora[j];
      if j < i {
        assert flora[..i][j] == flora[j];
      }
    }
  }

  /** Each Herb gets exactly one entry, in registry order, carrying its id, itself and its score. */
  lemma ScoredEntries(flora: seq<Herb>, keywords: Value, scorer: Scorer)
    ensures forall i :: 0 <= i < |flora| ==>
              Scored(flora, keywords, scorer)[i]
                == ScoredHerb(flora[i].id, flora[i], Score(flora[i].metaJson, keywords, None, scorer))
  {
    forall i | 0 <= i < |flora|
      ensures Scored(flora, keywords, scorer)[i]
                == ScoredHerb(flora[i].id, flora[i], Score(flora[i].metaJson, keywords, None, scorer))
    {
      ScoreOfWrapped(flora[i].metaJson, keywords, scorer);
    }
  }

  /** Wrapping the keywords in a list, as `search_by_keywords_in_flora` does, does not change a score. */
  lemma {:induction false} ScoreOfWrapped(meta: seq<Member>, keywords: Value, scorer: Scorer)
    ensures Ranker(keywords, scorer)(meta) == Score(meta, keywords, None, scorer)
  {
    assert AsList(List(AsList(keywords))) == AsList(keywords);
  }

  lemma {:induction false} WithScoreConcat(a: seq<ScoredHerb>, b: seq<ScoredHerb>, v: real)
    ensures WithScore(a + b, v) == WithScore(a, v) + WithScore(b, v)
    decreases |b|
  {
    if b == [] {
      assert a + b == a;
    } else {
      var b' := b[..|b| - 1];
      WithScoreConcat(a, b', v);
      assert (a + b)[..|a + b| - 1] == a + b';
    }
  }

  lemma {:induction false} AtLeastConcat(a: seq<ScoredHerb>, b: seq<ScoredHerb>, m: real)
    ensures AtLeast(a + b, m) == AtLeast(a, m) + AtLeast(b, m)
    decreases |b|
  {
    if b == [] {
      assert a + b == a;
    } else {
      var b' := b[..|b| - 1];
      AtLeastConcat(a, b', m);
      assert (a + b)[..|a + b| - 1] == a + b';
    }
  }

  lemma {:induction false} InsertContents(s: seq<ScoredHerb>, x: ScoredHerb)
    ensures multiset(Insert(s, x)) == multiset(s) + multiset{x}
    decreases |s|
  {
    if !(s == [] || s[|s| - 1].score >= x.score) {
      var p := s[..|s| - 1];
      InsertContents(p, x);
      assert s == p + [s[|s| - 1]];
    }
  }

  lemma {:induction false} InsertSorted(s: seq<ScoredHerb>, x: ScoredHerb)
    requires NonIncreasing(s)
    ensures NonIncreasing(Insert(s, x))
    decreases |s|
  {
    if !(s == [] || s[|s| - 1].score >= x.score) {
      var p := s[..|s| - 1];
      var last := s[|s| - 1];
      InsertSorted(p, x);
      var q := Insert(p, x);
      assert forall k :: 0 <= k < |p| ==> p[k] == s[k];
      InsertLowerBound(p, x, last.score);
      var r := q + [last];
      assert Insert(s, x) == r;
      forall i, j | 0 <= i < j < |r| ensures r[i].score >= r[j].score {
        if j < |q| {
          assert r[i] == q[i] && r[j] == q[j];
        } else {
          assert r[i] == q[i];
        }
      }
    }
  }

  /** Inserting keeps a lower bound that the sequence and the new entry share. */
  lemma {:induction false} InsertLowerBound(s: seq<ScoredHerb>, x: ScoredHerb, b: real)
    requires forall k :: 0 <= k < |s| ==> s[k].score >= b
    requires x.score >= b
    ensures |Insert(s, x)| == |s| + 1
    ensures forall k :: 0 <= k < |Insert(s, x)| ==> Insert(s, x)[k].score >= b
    decreases |s|
  {
    if !(s == [] || s[|s| - 1].score >= x.score) {
      var p := s[..|s| - 1];
      assert forall k :: 0 <= k < |p| ==> p[k] == s[k];
      InsertLowerBound(p, x, b);
    }
  }

  lemma {:induction false} WithScoreSingle(e: ScoredHerb, v: real)
    ensures WithScore([e], v) == if e.score == v then [e] else []
  {
    assert [e][..0] == [];
  }

  lemma {:induction false} InsertStable(s: seq<ScoredHerb>, x: ScoredHerb, v: real)
    ensures WithScore(Insert(s, x), v) == WithScore(s, v) + (if x.score == v then [x] else [])
    decreases |s|
  {
    WithScoreSingle(x, v);
    if s == [] || s[|s| - 1].score >= x.score {
      assert Insert(s, x) == s + [x];
      WithScoreConcat(s, [x], v);
    } else {
      var p := s[..|s| - 1];
      var last := s[|s| - 1];
      assert Insert(s, x) == Insert(p, x) + [last];
      InsertStable(p, x, v);
      WithScoreConcat(Insert(p, x), [last], v);
      WithScoreSingle(last, v);
      assert WithScore(s, v) == WithScore(p, v) + WithScore([last], v);
    }
  }

  /** The ranking is non-increasing in score. */
  lemma {:induction false} SortDescSorted(s: seq<ScoredHerb>)
    ensures NonIncreasing(SortDesc(s))
  {
    if s != [] {
      SortDescSorted(s[..|s| - 1]);
      InsertSorted(SortDesc(s[..|s| - 1]), s[|s| - 1]);
    }
  }

  /** The ranking is a permutation of the entries. */
  lemma {:induction false} SortDescPermutation(s: seq<ScoredHerb>)
    ensures multiset(SortDesc(s)) == multiset(s)
  {
    if s != [] {
      var p, last := s[..|s| - 1], s[|s| - 1];
      SortDescPermutation(p);
      InsertContents(SortDesc(p), last);
      assert s == p + [last];
      calc {
        multiset(SortDesc(s));
        multiset(Insert(SortDesc(p), last));
        multiset(SortDesc(p)) + multiset{last};
        multiset(p) + multiset{last};
        multiset(p + [last]);
      }
    }
  }

  /** The sort is stable: entries with equal scores keep their relative order. */
  lemma {:induction false} SortDescStable(s: seq<ScoredHerb>, v: real)
    ensures WithScore(SortDesc(s), v) == WithScore(s, v)
  {
    if s != [] {
      var p := s[..|s| - 1];
      SortDescStable(p, v);
      InsertStable(SortDesc(p), s[|s| - 1], v);
    }
  }

  lemma {:induction false} AtLeastContents(s: seq<ScoredHerb>, m: real)
    ensures forall e: ScoredHerb :: e.score >= m ==> multiset(AtLeast(s, m))[e] == multiset(s)[e]
    ensures forall e: ScoredHerb :: e.score < m ==> multiset(AtLeast(s, m))[e] == 0
  {
    if s != [] {
      var p := s[..|s| - 1];
      AtLeastContents(p, m);
      assert s == p + [s[|s| - 1]];
    }
  }

  lemma {:induction false} AtLeastFrom(s: seq<ScoredHerb>, m: real)
    ensures forall e :: e in AtLeast(s, m) ==> e in s && e.score >= m
  {
    if s != [] {
      var p := s[..|s| - 1];
      AtLeastFrom(p, m);
      assert s == p + [s[|s| - 1]];
    }
  }

  lemma {:induction false} AtLeastSorted(s: seq<ScoredHerb>, m: real)
    requires NonIncreasing(s)
    ensures NonIncreasing(AtLeast(s, m))
  {
    if s != [] {
      var p := s[..|s| - 1];
      var last := s[|s| - 1];
      AtLeastSorted(p, m);
      AtLeastFrom(p, m);
      var q := AtLeast(p, m);
      if last.score >= m {
        forall e | e in q ensures e.score >= last.score {
          var k :| 0 <= k < |p| && p[k] == e;
          assert s[k] == e;
        }
        forall i, j | 0 <= i < j < |q + [last]| ensures (q + [last])[i].score >= (q + [last])[j].score {
          if j == |q| {
            assert (q + [last])[i] in q;
          }
        }
      }
    }
  }

  lemma {:induction false} AtLeastStable(s: seq<ScoredHerb>, m: real, v: real)
    ensures WithScore(AtLeast(s, m), v) == if v >= m then WithScore(s, v) else []
  {
    if s != [] {
      var p := s[..|s| - 1];
      var last := s[|s| - 1];
      AtLeastStable(p, m, v);
      var tail := if last.score >= m then [last] else [];
      WithScoreConcat(AtLeast(p, m), tail, v);
      assert WithScore([last], v) == WithScore([], v) + (if last.score == v then [last] else []);
    }
  }

  /**
   * What `search_by_keywords_in_flora` returns, for any scored entries `s`: the result is
   * non-increasing in score; it holds every entry scoring at least `minScore` exactly as often as
   * `s` does and no other entry; and entries with equal scores keep their order in `s`. There is no
   * truncation to ten entries.
   */
  lemma {:induction false} RankingMeaning(s: seq<ScoredHerb>, minScore: real)
    ensures var r := AtLeast(SortDesc(s), minScore);
      && NonIncreasing(r)
      && (forall e :: e in r ==> e.score >= minScore)
      && (forall e: ScoredHerb :: e.score >= minScore ==> multiset(r)[e] == multiset(s)[e])
      && (forall v :: WithScore(r, v) == if v >= minScore then WithScore(s, v) else [])
  {
    var t := SortDesc(s);
    SortDescSorted(s);
    AtLeastSorted(t, minScore);
    SortDescPermutation(s);
    AtLeastContents(t, minScore);
    AtLeastFrom(t, minScore);
    forall v ensures WithScore(AtLeast(t, minScore), v) == if v >= minScore then WithScore(s, v) else [] {
      AtLeastStable(t, minScore, v);
      SortDescStable(s, v);
    }
  }

  /** The ranking is empty exactly when no Herb reaches the threshold. */
  lemma {:induction false} RankingEmpty(s: seq<ScoredHerb>, minScore: real)
    ensures AtLeast(SortDesc(s), minScore) == [] <==> forall e :: e in s ==> e.score < minScore
  {
    var t := SortDesc(s);
    var r := AtLeast(t, minScore);
    SortDescPermutation(s);
    AtLeastContents(t, minScore);
    AtLeastFrom(t, minScore);
    if r == [] {
      forall e | e in s ensures e.score < minScore {
        assert multiset(s)[e] > 0;
      }
    } else {
      assert r[0] in r;
      assert multiset(s)[r[0]] > 0;
    }
  }

  // ----- Lookup by id -----

  /** The entries whose id is among `ids`, in registry order. */
  function IdMatches(flora: seq<Herb>, ids: seq<Value>): seq<IdMatch> {
    if flora == [] then []
    else
      var h := flora[|flora| - 1];
      IdMatches(flora[..|flora| - 1], ids) + (if h.id in ids then [IdMatch(h, h.id)] else [])
  }

  /** `search_by_ids_in_flora(flora, ids)`; a lone id is wrapped into a list. */
  method SearchByIds(flora: seq<Herb>, ids: Value) returns (herbs: seq<IdMatch>)
    ensures herbs == IdMatches(flora, AsList(ids))
  {
    var idList := AsList(ids);
    herbs := [];
    for i := 0 to |flora|
      invariant herbs == IdMatches(flora[..i], idList)
    {
      var herb := flora[i];
      if herb.id in idList {
        herbs := herbs + [IdMatch(herb, herb.id)];
      }
      assert flora[..i + 1][..i] == flora[..i];
    }
    assert flora[..|flora|] == flora;
  }

  /** The id filter keeps registry order: filtering a concatenation concatenates the filtered parts. */
  lemma {:induction false} IdMatchesConcat(a: seq<Herb>, b: seq<Herb>, ids: seq<Value>)
    ensures IdMatches(a + b, ids) == IdMatches(a, ids) + IdMatches(b, ids)
    decreases |b|
  {
    if b == [] {
      assert a + b == a;
    } else {
      var b' := b[..|b| - 1];
      IdMatchesConcat(a, b', ids);
      assert (a + b)[..|a + b| - 1] == a + b';
    }
  }

  /**
   * Every match is a Herb of the registry with its own id, that id is asked for, and every Herb
   * whose id is asked for is matched; a registry holding two Herbs with an asked-for id yields
   * both.
   */
  lemma {:induction false} IdMatchesMeaning(flora: seq<Herb>, ids: seq<Value>)
    ensures forall m :: m in IdMatches(flora, ids) ==> m.herb in flora && m.id == m.herb.id && m.id in ids
    ensures forall i :: 0 <= i < |flora| && flora[i].id in ids ==> IdMatch(flora[i], flora[i].id) in IdMatches(flora, ids)
    ensures forall i, j :: 0 <= i < j < |flora| && flora[i].id in ids && flora[j].id in ids ==>
              |IdMatches(flora, ids)| >= 2
  {
    if flora != [] {
      var p := flora[..|flora| - 1];
      IdMatchesMeaning(p, ids);
      assert forall i :: 0 <= i < |p| ==> p[i] == flora[i];
      forall i, j | 0 <= i < j < |flora| && flora[i].id in ids && flora[j].id in ids
        ensures |IdMatches(flora, ids)| >= 2
      {
        if j < |p| {
        } else {
          assert IdMatch(p[i], p[i].id) in IdMatches(p, ids);
        }
      }
    }
  }

  /** The first Herb, in registry order, whose id is among `ids`. */
  function FirstMatch(flora: seq<Herb>, ids: seq<Value>): Option<Herb> {
    if flora == [] then None
    else if flora[0].id in ids then Some(flora[0])
    else FirstMatch(flora[1..], ids)
  }

  /** The first match is a registry Herb whose id is asked for, and no earlier Herb's id is. */
  lemma {:induction false} FirstMatchMeaning(flora: seq<Herb>, ids: seq<Value>)
    ensures FirstMatch(flora, ids).None? <==> forall i :: 0 <= i < |flora| ==> flora[i].id !in ids
    ensures FirstMatch(flora, ids).Some? ==>
              exists k :: 0 <= k < |flora| && FirstMatch(flora, ids).value == flora[k]
                && flora[k].id in ids && forall i :: 0 <= i < k ==> flora[i].id !in ids
  {
    if flora != [] && flora[0].id !in ids {
      FirstMatchMeaning(flora[1..], ids);
      if FirstMatch(flora, ids).Some? {
        var k :| 0 <= k < |flora[1..]| && FirstMatch(flora[1..], ids).value == flora[1..][k]
          && flora[1..][k].id in ids && forall i :: 0 <= i < k ==> flora[1..][i].id !in ids;
        assert FirstMatch(flora, ids).value == flora[k + 1];
      }
    }
  }

  /** The head of the id search's result is the first match, and the result is empty when there is none. */
  lemma {:induction false} IdMatchesHead(flora: seq<Herb>, ids: seq<Value>)
    ensures IdMatches(flora, ids) == [] <==> FirstMatch(flora, ids).None?
    ensures IdMatches(flora, ids) != [] ==> IdMatches(flora, ids)[0].herb == FirstMatch(flora, ids).value
  {
    if flora != [] {
      IdMatchesConcat([flora[0]], flora[1..], ids);
      assert [flora[0]] + flora[1..] == flora;
      IdMatchesHead(flora[1..], ids);
      assert [flora[0]][..0] == [];
    }
  }
}
