/**
  `OpenAIReranker.rerank` of `src/context/reranking.py` (and its twin in
  `src/reranker.py`): the candidates a language model ranked come first in its
  order of scores, every candidate it did not rank follows at score 0 in the
  original order, and the stable sort by descending score is cut to `top_k`.

  The model call is not modelled: the reranker receives the parsed `ranking`
  array, or `None` when the call, the JSON decoding or the `ranking` lookup
  failed. Scores are ordered values; `float(score)` failing gives 0 before the
  reranker sees the entry.
*/
module Reranking {
  import opened Maybe
  import opened PyText
  import opened StableSort
  import opened VectorStore

  /** An element of the `ranking` array: an object with an optional `id` and a score, or something else. */
  datatype RankItem = Entry(id: Option<string>, score: int) | NotAnObject

  /** A candidate with the score it is sorted by. */
  datatype Scored = Scored(score: int, doc: VectorDocument)

  function ScoreOf(s: Scored): int {
    s.score
  }

  /** `[doc for _, doc in scored]`. */
  function DocsOf(ss: seq<Scored>): (r: seq<VectorDocument>)
    ensures |r| == |ss|
    ensures forall i | 0 <= i < |ss| :: r[i] == ss[i].doc
  {
    seq(|ss|, i requires 0 <= i < |ss| => ss[i].doc)
  }

  /** `{doc.id: doc for doc in documents}`: a later candidate with the same id wins. */
  function DocMap(ds: seq<VectorDocument>): map<string, VectorDocument> {
    if ds == [] then map[] else DocMap(ds[..|ds| - 1])[ds[|ds| - 1].id := ds[|ds| - 1]]
  }

  /** The state of the ranking loop: the scored candidates and the ids taken. */
  datatype Merge = Merge(scored: seq<Scored>, seen: set<string>)

  /** An entry is taken when it has a non-empty id not taken before that names a candidate. */
  predicate Accepts(item: RankItem, m: map<string, VectorDocument>, seen: set<string>) {
    item.Entry? && item.id.Some? && item.id.value != "" && item.id.value !in seen && item.id.value in m
  }

  /** The ranking loop over the first `k` entries. */
  function Merged(items: seq<RankItem>, m: map<string, VectorDocument>, k: nat): Merge
    requires k <= |items|
  {
    if k == 0 then Merge([], {})
    else
      var prev := Merged(items, m, k - 1);
      var item := items[k - 1];
      if Accepts(item, m, prev.seen) then
        Merge(prev.scored + [Scored(item.score, m[item.id.value])], prev.seen + {item.id.value})
      else prev
  }

  /** The fill loop over the first `k` candidates: those whose id was not taken, at score 0. */
  function Unranked(ds: seq<VectorDocument>, seen: set<string>, k: nat): seq<Scored>
    requires k <= |ds|
  {
    if k == 0 then []
    else Unranked(ds, seen, k - 1) + (if ds[k - 1].id in seen then [] else [Scored(0, ds[k - 1])])
  }

  /** The scored list before sorting: the ranked candidates, then the unranked ones. */
  function Combined(ds: seq<VectorDocument>, items: seq<RankItem>): seq<Scored> {
    var mg := Merged(items, DocMap(ds), |items|);
    mg.scored + Unranked(ds, mg.seen, |ds|)
  }

  /** Some element of the ranking is not an object: `item.get` raises. */
  predicate Malformed(items: seq<RankItem>) {
    exists i | 0 <= i < |items| :: items[i].NotAnObject?
  }

  /** What `rerank` returns; `None` when it raises. */
  function RerankSpec(ds: seq<VectorDocument>, topK: int, ranking: Option<seq<RankItem>>): Option<seq<VectorDocument>> {
    if ds == [] || |ds| <= topK then Some(ds)
    else if ranking.None? then Some(PyTake(ds, topK))
    else if Malformed(ranking.value) then None
    else Some(DocsOf(PyTake(SortDesc(Combined(ds, ranking.value), ScoreOf), topK)))
  }

  /**
    `OpenAIReranker.rerank` of `src/context/reranking.py`: few candidates are
    returned as they are, a failed call keeps the first `topK`, and otherwise the
    merged list is sorted and cut.
  */
  method Rerank(ds: seq<VectorDocument>, topK: int, ranking: Option<seq<RankItem>>)
    returns (r: Option<seq<VectorDocument>>)
    ensures r == RerankSpec(ds, topK, ranking)
    ensures ds == [] || |ds| <= topK ==> r == Some(ds)
    ensures |ds| > topK && ranking.None? ==> r == Some(PyTake(ds, topK))
  {
    if ds == [] || |ds| <= topK {
      return Some(ds);
    }
    if ranking.None? {
      return Some(PyTake(ds, topK));
    }
    var items := ranking.value;
    var docMap := DocMap(ds);
    var scored: seq<Scored> := [];
    var seen: set<string> := {};
    var k := 0;
    while k < |items|
      invariant 0 <= k <= |items|
      invariant Merge(scored, seen) == Merged(items, docMap, k)
      invariant forall j | 0 <= j < k :: items[j].Entry?
    {
      if items[k].NotAnObject? {
        return None;
      }
      var id := items[k].id;
      if id.Some? && id.value != "" && id.value !in seen && id.value in docMap {
        scored := scored + [Scored(items[k].score, docMap[id.value])];
        seen := seen + {id.value};
      }
      k := k + 1;
    }
    var merged := Merged(items, docMap, |items|);
    k := 0;
    while k < |ds|
      invariant 0 <= k <= |ds|
      invariant seen == merged.seen
      invariant scored == merged.scored + Unranked(ds, seen, k)
    {
      if ds[k].id !in seen {
        scored := scored + [Scored(0, ds[k])];
      }
      k := k + 1;
    }
    var sorted := SortDesc(scored, ScoreOf);
    r := Some(DocsOf(PyTake(sorted, topK)));
  }

  /**
    `OpenAIReranker.rerank` of `src/reranker.py`: an explicit branch returns `[]`
    for no candidates, and the rest is the same merge.
  */
  method LegacyRerank(ds: seq<VectorDocument>, topK: int, ranking: Option<seq<RankItem>>)
    returns (r: Option<seq<VectorDocument>>)
    ensures r == RerankSpec(ds, topK, ranking)
    ensures ds == [] ==> r == Some([])
  {
    if ds == [] {
      return Some([]);
    }
    r := Rerank(ds, topK, ranking);
  }

  // ---------------------------------------------------------------------------
  // What the merge keeps

  /** No two candidates share an id. */
  ghost predicate UniqueIds(ds: seq<VectorDocument>) {
    forall i, j | 0 <= i < j < |ds| :: ds[i].id != ds[j].id
  }

  /** The candidate `DocMap` keeps for an id is a candidate with that id. */
  lemma {:induction false} DocMapSpec(ds: seq<VectorDocument>, id: string)
    ensures id in DocMap(ds) ==> DocMap(ds)[id] in ds && DocMap(ds)[id].id == id
  {
    if ds != [] {
      DocMapSpec(ds[..|ds| - 1], id);
    }
  }

  /** The ids of the scored candidates. */
  function IdsOf(ss: seq<Scored>): set<string> {
    if ss == [] then {} else IdsOf(ss[..|ss| - 1]) + {ss[|ss| - 1].doc.id}
  }

  lemma {:induction false} IdsOfHas(ss: seq<Scored>, i: int)
    requires 0 <= i < |ss|
    ensures ss[i].doc.id in IdsOf(ss)
  {
    if i < |ss| - 1 {
      IdsOfHas(ss[..|ss| - 1], i);
    }
  }

  lemma {:induction false} IdsOfWitness(ss: seq<Scored>, id: string) returns (i: int)
    requires id in IdsOf(ss)
    ensures 0 <= i < |ss| && ss[i].doc.id == id
  {
    if ss[|ss| - 1].doc.id == id {
      i := |ss| - 1;
    } else {
      i := IdsOfWitness(ss[..|ss| - 1], id);
    }
  }

  /** Scored candidates drawn from `ds`, no id twice, with `seen` their ids. */
  ghost predicate MergeOk(mg: Merge, ds: seq<VectorDocument>) {
    (forall i | 0 <= i < |mg.scored| :: mg.scored[i].doc in ds)
    && mg.seen == IdsOf(mg.scored)
    && forall i, j | 0 <= i < j < |mg.scored| :: mg.scored[i].doc.id != mg.scored[j].doc.id
  }

  /**
    The ranking loop takes each candidate at most once: the scored candidates are
    candidates, their ids are exactly the ids taken, and no id appears twice.
  */
  lemma {:induction false} MergedSpec(items: seq<RankItem>, ds: seq<VectorDocument>, k: nat)
    requires k <= |items|
    ensures MergeOk(Merged(items, DocMap(ds), k), ds)
    decreases k
  {
    if k > 0 {
      var m := DocMap(ds);
      var prev := Merged(items, m, k - 1);
      var item := items[k - 1];
      MergedSpec(items, ds, k - 1);
      if Accepts(item, m, prev.seen) {
        var x := Scored(item.score, m[item.id.value]);
        var sc := prev.scored + [x];
        DocMapSpec(ds, item.id.value);
        assert sc[..|prev.scored|] == prev.scored;
        forall i | 0 <= i < |prev.scored| ensures prev.scored[i].doc.id != x.doc.id {
          IdsOfHas(prev.scored, i);
        }
        assert Merged(items, m, k) == Merge(sc, prev.seen + {item.id.value});
      }
    }
  }

  /** The fill loop takes the candidates whose id was not taken, in their order. */
  lemma {:induction false} UnrankedSpec(ds: seq<VectorDocument>, seen: set<string>, k: nat)
    requires k <= |ds| && UniqueIds(ds)
    ensures forall i | 0 <= i < |Unranked(ds, seen, k)| ::
              Unranked(ds, seen, k)[i].doc in ds[..k] && Unranked(ds, seen, k)[i].doc.id !in seen
    ensures forall i, j | 0 <= i < j < |Unranked(ds, seen, k)| ::
              Unranked(ds, seen, k)[i].doc.id != Unranked(ds, seen, k)[j].doc.id
    ensures forall j | 0 <= j < k && ds[j].id !in seen :: Scored(0, ds[j]) in Unranked(ds, seen, k)
    decreases k
  {
    if k > 0 {
      UnrankedSpec(ds, seen, k - 1);
      var prev := Unranked(ds, seen, k - 1);
      var u := Unranked(ds, seen, k);
      assert ds[..k] == ds[..k - 1] + [ds[k - 1]];
      forall i | 0 <= i < |prev| ensures prev[i].doc.id != ds[k - 1].id {
        var j :| 0 <= j < k - 1 && ds[j] == prev[i].doc;
      }
      forall i | 0 <= i < |u| ensures u[i].doc in ds[..k] {
        if i < |prev| {
          assert u[i] == prev[i];
        }
      }
    }
  }

  /** Without repeated ids, a sequence of candidates holds each of its elements once. */
  lemma {:induction false} UniqueCount(ds: seq<VectorDocument>, x: VectorDocument)
    requires UniqueIds(ds)
    ensures multiset(ds)[x] == if x in ds then 1 else 0
  {
    if ds != [] {
      var init := ds[..|ds| - 1];
      var last := ds[|ds| - 1];
      UniqueCount(init, x);
      assert ds == init + [last];
      if x == last {
        forall j | 0 <= j < |init| ensures init[j] != x {
          assert init[j].id != last.id;
        }
      }
    }
  }

  /** The ids in the scored list are pairwise distinct when the candidates' ids are. */
  lemma CombinedUniqueIds(ds: seq<VectorDocument>, items: seq<RankItem>)
    requires UniqueIds(ds)
    ensures UniqueIds(DocsOf(Combined(ds, items)))
  {
    var mg := Merged(items, DocMap(ds), |items|);
    var fill := Unranked(ds, mg.seen, |ds|);
    var c := DocsOf(Combined(ds, items));
    MergedSpec(items, ds, |items|);
    UnrankedSpec(ds, mg.seen, |ds|);
    forall i, j | 0 <= i < j < |c| ensures c[i].id != c[j].id {
      if j < |mg.scored| {
        assert c[i] == mg.scored[i].doc && c[j] == mg.scored[j].doc;
      } else if i >= |mg.scored| {
        assert c[i] == fill[i - |mg.scored|].doc && c[j] == fill[j - |mg.scored|].doc;
      } else {
        IdsOfHas(mg.scored, i);
        assert c[i] == mg.scored[i].doc && c[j] == fill[j - |mg.scored|].doc;
      }
    }
  }

  /** A candidate is in the scored list. */
  lemma CombinedHasCandidate(ds: seq<VectorDocument>, items: seq<RankItem>, j: int)
    requires UniqueIds(ds) && 0 <= j < |ds|
    ensures ds[j] in DocsOf(Combined(ds, items))
  {
    var mg := Merged(items, DocMap(ds), |items|);
    var fill := Unranked(ds, mg.seen, |ds|);
    var c := DocsOf(Combined(ds, items));
    MergedSpec(items, ds, |items|);
    if ds[j].id in mg.seen {
      var i := IdsOfWitness(mg.scored, ds[j].id);
      var j2 :| 0 <= j2 < |ds| && ds[j2] == mg.scored[i].doc;
      assert j2 == j;
      assert c[i] == ds[j];
    } else {
      UnrankedSpec(ds, mg.seen, |ds|);
      var i :| 0 <= i < |fill| && fill[i] == Scored(0, ds[j]);
      assert c[|mg.scored| + i] == ds[j];
    }
  }

  /**
    The fill loop walks the candidates in their order and appends, at score 0,
    exactly those whose id was not taken: `idx` lists their positions, strictly
    increasing.
  */
  lemma {:induction false} UnrankedFrom(ds: seq<VectorDocument>, seen: set<string>, k: nat) returns (idx: seq<int>)
    requires k <= |ds|
    ensures |idx| == |Unranked(ds, seen, k)|
    ensures forall i | 0 <= i < |idx| ::
              0 <= idx[i] < k && Unranked(ds, seen, k)[i] == Scored(0, ds[idx[i]]) && ds[idx[i]].id !in seen
    ensures forall i, j | 0 <= i < j < |idx| :: idx[i] < idx[j]
    ensures forall j | 0 <= j < k && ds[j].id !in seen :: j in idx
    ensures forall i | 0 <= i < |Unranked(ds, seen, k)| ::
              Unranked(ds, seen, k)[i].doc in ds && Unranked(ds, seen, k)[i].doc.id !in seen
    decreases k
  {
    if k == 0 {
      idx := [];
    } else {
      var prev := UnrankedFrom(ds, seen, k - 1);
      var before := Unranked(ds, seen, k - 1);
      var u := Unranked(ds, seen, k);
      if ds[k - 1].id in seen {
        assert u == before;
        idx := prev;
      } else {
        assert u == before + [Scored(0, ds[k - 1])];
        idx := prev + [k - 1];
        forall i | 0 <= i < |idx| ensures 0 <= idx[i] < k && u[i] == Scored(0, ds[idx[i]]) && ds[idx[i]].id !in seen {
          if i < |prev| {
            assert idx[i] == prev[i] && u[i] == before[i];
          }
        }
        forall j | 0 <= j < k && ds[j].id !in seen ensures j in idx {
          if j < k - 1 {
            assert j in prev;
          } else {
            assert idx[|prev|] == j;
          }
        }
      }
      forall i | 0 <= i < |u| ensures u[i].doc in ds && u[i].doc.id !in seen {
        assert u[i] == Scored(0, ds[idx[i]]);
      }
    }
  }

  /** Everything in the scored list is a candidate. */
  lemma CombinedOnlyCandidates(ds: seq<VectorDocument>, items: seq<RankItem>, i: int)
    requires 0 <= i < |Combined(ds, items)|
    ensures DocsOf(Combined(ds, items))[i] in ds
  {
    var mg := Merged(items, DocMap(ds), |items|);
    var fill := Unranked(ds, mg.seen, |ds|);
    var c := DocsOf(Combined(ds, items));
    MergedSpec(items, ds, |items|);
    if i >= |mg.scored| {
      var idx := UnrankedFrom(ds, mg.seen, |ds|);
      assert c[i] == fill[i - |mg.scored|].doc;
    }
  }

  /**
    When no two candidates share an id, every candidate enters the scored list
    exactly once: the list is a permutation of the candidates.
  */
  lemma CombinedPermutation(ds: seq<VectorDocument>, items: seq<RankItem>)
    requires UniqueIds(ds)
    ensures multiset(DocsOf(Combined(ds, items))) == multiset(ds)
  {
    var c := DocsOf(Combined(ds, items));
    CombinedUniqueIds(ds, items);
    forall x ensures multiset(c)[x] == multiset(ds)[x] {
      UniqueCount(c, x);
      UniqueCount(ds, x);
      if x in ds {
        var j :| 0 <= j < |ds| && ds[j] == x;
        CombinedHasCandidate(ds, items, j);
      }
      if x in c {
        var i :| 0 <= i < |c| && c[i] == x;
        CombinedOnlyCandidates(ds, items, i);
      }
    }
    assert multiset(c) == multiset(ds);
  }

  lemma DocsOfCons(a: Scored, b: seq<Scored>)
    ensures DocsOf([a] + b) == [a.doc] + DocsOf(b)
  {
    assert forall i | 1 <= i < |b| + 1 :: ([a] + b)[i] == b[i - 1];
  }

  lemma DocsOfAppend(a: seq<Scored>, b: seq<Scored>)
    ensures DocsOf(a + b) == DocsOf(a) + DocsOf(b)
  {
    assert forall i | |a| <= i < |a| + |b| :: (a + b)[i] == b[i - |a|];
  }

  lemma {:induction false} InsertKeepsDocs(s: seq<Scored>, x: Scored)
    ensures multiset(DocsOf(Insert(s, x, ScoreOf))) == multiset(DocsOf(s)) + multiset{x.doc}
    decreases |s|
  {
    if s == [] {
      DocsOfCons(x, []);
    } else if ScoreOf(s[0]) >= ScoreOf(x) {
      InsertKeepsDocs(s[1..], x);
      DocsOfCons(s[0], Insert(s[1..], x, ScoreOf));
      DocsOfCons(s[0], s[1..]);
      assert s == [s[0]] + s[1..];
    } else {
      DocsOfCons(x, s);
    }
  }

  /** The sort reorders the scored list, and with it the documents. */
  lemma {:induction false} SortKeepsDocs(c: seq<Scored>)
    ensures multiset(DocsOf(SortDesc(c, ScoreOf))) == multiset(DocsOf(c))
  {
    if c != [] {
      var init := c[..|c| - 1];
      var last := c[|c| - 1];
      SortKeepsDocs(init);
      InsertKeepsDocs(SortDesc(init, ScoreOf), last);
      DocsOfAppend(init, [last]);
      assert c == init + [last];
    }
  }

  /**
    With unique candidate ids and more candidates than `topK >= 0`, a well-formed
    ranking gives exactly `topK` candidates, drawn from the candidates without
    repetition.
  */
  lemma RerankTopK(ds: seq<VectorDocument>, topK: int, items: seq<RankItem>)
    requires UniqueIds(ds) && 0 <= topK < |ds| && !Malformed(items)
    ensures RerankSpec(ds, topK, Some(items)).Some?
    ensures |RerankSpec(ds, topK, Some(items)).value| == topK
    ensures multiset(RerankSpec(ds, topK, Some(items)).value) <= multiset(ds)
  {
    var c := Combined(ds, items);
    var s := SortDesc(c, ScoreOf);
    CombinedPermutation(ds, items);
    SortKeepsDocs(c);
    SortDescSortedPermutation(c, ScoreOf);
    var t := PyTake(s, topK);
    assert s == t + s[|t|..];
    DocsOfAppend(t, s[|t|..]);
  }

  /**
    With more candidates than `topK >= 0` and a well-formed ranking, the answer
    is the first `topK` of the scored list sorted by score: it is in
    non-increasing score order, no scored candidate left out outscores one
    returned, and candidates of equal score keep their order in the scored list.
  */
  lemma RerankOrdered(ds: seq<VectorDocument>, topK: int, items: seq<RankItem>)
    requires 0 <= topK < |ds| && !Malformed(items)
    ensures var c := Combined(ds, items);
            var s := SortDesc(c, ScoreOf);
            var t := PyTake(s, topK);
            RerankSpec(ds, topK, Some(items)) == Some(DocsOf(t))
            && SortedDesc(t, ScoreOf)
            && multiset(t) <= multiset(c)
            && (forall x | x in multiset(c) - multiset(t) :: forall y | y in t :: ScoreOf(y) >= ScoreOf(x))
            && (forall k :: WithKey(s, ScoreOf, k) == WithKey(c, ScoreOf, k))
  {
    var c := Combined(ds, items);
    var s := SortDesc(c, ScoreOf);
    var t := PyTake(s, topK);
    SortDescSortedPermutation(c, ScoreOf);
    SortedPrefixBest(s, ScoreOf, |t|);
    forall k ensures WithKey(s, ScoreOf, k) == WithKey(c, ScoreOf, k) {
      SortDescStable(c, ScoreOf, k);
    }
  }

  /**
    Whatever the ranking, the reranked list holds only candidates, and for
    `topK >= 0` at most `topK` of them.
  */
  lemma RerankDrawsFromCandidates(ds: seq<VectorDocument>, topK: int, ranking: Option<seq<RankItem>>)
    requires RerankSpec(ds, topK, ranking).Some?
    ensures forall d | d in RerankSpec(ds, topK, ranking).value :: d in ds
    ensures 0 <= topK ==> |RerankSpec(ds, topK, ranking).value| <= topK
  {
    if !(ds == [] || |ds| <= topK) && ranking.Some? {
      var c := Combined(ds, ranking.value);
      var s := SortDesc(c, ScoreOf);
      var t := PyTake(s, topK);
      var r := DocsOf(t);
      SortKeepsDocs(c);
      forall d | d in r ensures d in ds {
        var i :| 0 <= i < |r| && r[i] == d;
        assert DocsOf(s)[i] == d;
        assert d in multiset(DocsOf(c));
        var j :| 0 <= j < |DocsOf(c)| && DocsOf(c)[j] == d;
        CombinedOnlyCandidates(ds, ranking.value, j);
      }
    }
  }

  /**
    The worked example of the reranker's tests: over candidates `a, b, c`, a
    ranking that scores `b` at 5 and `c` at 3 gives `b, c` for `topK = 2`, and
    the unranked `a` is cut.
  */
  lemma RerankExample(a: VectorDocument, b: VectorDocument, c: VectorDocument)
    requires a.id != b.id && a.id != c.id && b.id != c.id && b.id != "" && c.id != ""
    ensures RerankSpec([a, b, c], 2, Some([Entry(Some(b.id), 5), Entry(Some(c.id), 3)])) == Some([b, c])
  {
    var items := [Entry(Some(b.id), 5), Entry(Some(c.id), 3)];
    var combined := [Scored(5, b), Scored(3, c), Scored(0, a)];
    ExampleCombined(a, b, c);
    assert !Malformed(items);
    assert combined[..2] == [Scored(5, b), Scored(3, c)] && combined[..2][..1] == [Scored(5, b)];
    assert SortDesc(combined[..1], ScoreOf) == [Scored(5, b)];
    assert Insert([Scored(5, b)], Scored(3, c), ScoreOf) == [Scored(5, b), Scored(3, c)];
    assert SortDesc(combined[..2], ScoreOf) == [Scored(5, b), Scored(3, c)];
    InsertAtEnd([Scored(5, b), Scored(3, c)], Scored(0, a), ScoreOf);
    assert SortDesc(combined, ScoreOf) == combined;
    assert PyTake(combined, 2) == [Scored(5, b), Scored(3, c)];
    assert DocsOf([Scored(5, b), Scored(3, c)]) == [b, c];
  }

  /** The scored list of the example: `b` at 5 and `c` at 3 from the ranking, then `a` at 0. */
  lemma ExampleCombined(a: VectorDocument, b: VectorDocument, c: VectorDocument)
    requires a.id != b.id && a.id != c.id && b.id != c.id && b.id != "" && c.id != ""
    ensures Combined([a, b, c], [Entry(Some(b.id), 5), Entry(Some(c.id), 3)])
            == [Scored(5, b), Scored(3, c), Scored(0, a)]
  {
    var ds := [a, b, c];
    var items := [Entry(Some(b.id), 5), Entry(Some(c.id), 3)];
    var m := DocMap(ds);
    assert ds[..2] == [a, b] && [a, b][..1] == [a] && [a][..0] == [];
    assert m == DocMap([a, b])[c.id := c];
    assert DocMap([a, b]) == DocMap([a])[b.id := b];
    assert b.id in m && m[b.id] == b && c.id in m && m[c.id] == c;
    assert Merged(items, m, 1) == Merge([Scored(5, b)], {b.id});
    var mg := Merged(items, m, 2);
    assert mg == Merge([Scored(5, b), Scored(3, c)], {b.id, c.id});
    assert Unranked(ds, mg.seen, 1) == [Scored(0, a)];
    assert Unranked(ds, mg.seen, 3) == [Scored(0, a)];
  }
}
