/** The candidate merge of `_retrieve_candidates` (api/engine.py): for each
    selected docset, the union of its BM25 and vector top-k chunks becomes
    candidates, and the candidates are merged by document reference,
    keeping the highest score of each kind. The BM25 and vector scores of
    the chunks are inputs (integers standing for the source's floats). */
module Retrieval {
  import opened Wrappers
  import opened Text
  import opened Index
  import opened Ranking

  datatype Candidate = Candidate(
    docRef: string,
    docset: Docset,
    section: DocSection,
    chunk: Chunk,
    bm25Score: int,
    vectorScore: int)

  /** The scores of one docset's chunks for the query, in chunk order. */
  datatype ChunkScores = ChunkScores(bm25: seq<int>, vector: seq<int>)

  /** Both score vectors of an index have one entry per chunk, as the BM25
      model and the embedding matrix are built from the chunks. */
  predicate ScoresEveryChunk(state: IndexState, scores: map<string, ChunkScores>) {
    forall id :: id in state.indexes ==>
      && id in scores
      && |scores[id].bm25| == |state.indexes[id].chunks|
      && |scores[id].vector| == |state.indexes[id].chunks|
  }

  function Max(a: int, b: int): int {
    if a >= b then a else b
  }

  /** The positions below `n` in `a` or `b`, in ascending order. */
  function UnionBelow(a: seq<nat>, b: seq<nat>, n: nat): (r: seq<nat>)
    ensures forall x :: x in r <==> x < n && (x in a || x in b)
    ensures forall i, j :: 0 <= i < j < |r| ==> r[i] < r[j]
  {
    if n == 0 then []
    else
      var prev := UnionBelow(a, b, n - 1);
      assert forall i :: 0 <= i < |prev| ==> prev[i] in prev;
      prev + (if n - 1 in a || n - 1 in b then [n - 1] else [])
  }

  /** `set(bm25_idx) | set(vec_idx)`, iterated in ascending order. */
  function CandidateIndices(sc: ChunkScores, bm25TopK: int, vectorTopK: int): (r: seq<nat>)
    ensures forall k :: 0 <= k < |r| ==> r[k] < |sc.bm25|
  {
    var bm25Idx := TopKIndices(sc.bm25, Min(bm25TopK, |sc.bm25|));
    var vecIdx := TopKIndices(sc.vector, Min(vectorTopK, |sc.vector|));
    var r := UnionBelow(bm25Idx, vecIdx, |sc.bm25|);
    assert forall k :: 0 <= k < |r| ==> r[k] in r;
    r
  }

  /** The candidate of chunk `i`; a chunk whose section is missing raises `KeyError`. */
  function HitAt(docset: Docset, index: DocsetIndex, sc: ChunkScores, i: nat): Result<Candidate, LookupError>
    requires i < |index.chunks| && i < |sc.bm25| && i < |sc.vector|
  {
    var chunk := index.chunks[i];
    if chunk.sectionRef !in index.sections then Err(MissingSection(chunk.sectionRef))
    else Ok(Candidate(chunk.docRef, docset, index.sections[chunk.sectionRef], chunk, sc.bm25[i], sc.vector[i]))
  }

  /** The candidates of the chunks at `idxs`, in order, or the first error. */
  function DocsetHits(docset: Docset, index: DocsetIndex, sc: ChunkScores, idxs: seq<nat>): Result<seq<Candidate>, LookupError>
    requires forall k :: 0 <= k < |idxs| ==> idxs[k] < |index.chunks| && idxs[k] < |sc.bm25| && idxs[k] < |sc.vector|
  {
    if idxs == [] then Ok([])
    else
      var prev :- DocsetHits(docset, index, sc, idxs[..|idxs| - 1]);
      var c :- HitAt(docset, index, sc, idxs[|idxs| - 1]);
      Ok(prev + [c])
  }

  /** The candidates of one selected docset: its registry entry and index
      (a missing one raises `KeyError`), then its candidate chunks. */
  function HitsOf(state: IndexState, scores: map<string, ChunkScores>, id: string,
                  bm25TopK: int, vectorTopK: int): Result<seq<Candidate>, LookupError>
    requires ScoresEveryChunk(state, scores)
  {
    match FindDocset(state.docsets, id)
    case None => Err(UnknownDocset)
    case Some(docset) =>
      if id !in state.indexes then Err(MissingIndex(id))
      else
        var sc := scores[id];
        DocsetHits(docset, state.indexes[id], sc, CandidateIndices(sc, bm25TopK, vectorTopK))
  }

  /** The candidates of the selected docsets in order, or the first error. */
  function AllHits(state: IndexState, scores: map<string, ChunkScores>, selected: seq<string>,
                   bm25TopK: int, vectorTopK: int): Result<seq<Candidate>, LookupError>
    requires ScoresEveryChunk(state, scores)
  {
    if selected == [] then Ok([])
    else
      var prev :- AllHits(state, scores, selected[..|selected| - 1], bm25TopK, vectorTopK);
      var hits :- HitsOf(state, scores, selected[|selected| - 1], bm25TopK, vectorTopK);
      Ok(prev + hits)
  }

  // ----- the merge ------------------------------------------------------------

  /** The `all_candidates` dict: its keys in insertion order and its entries. */
  datatype Merged = Merged(order: seq<string>, byRef: map<string, Candidate>)

  /** The keys in order are distinct and are exactly the dict's keys, and
      every entry is filed under its own document reference. */
  ghost predicate Tidy(m: Merged) {
    && (forall i, j :: 0 <= i < j < |m.order| ==> m.order[i] != m.order[j])
    && (forall k :: k in m.order <==> k in m.byRef)
    && (forall k :: k in m.byRef ==> m.byRef[k].docRef == k)
  }

  /** One candidate into the dict: a new reference is appended; a known
      one is replaced by the new candidate carrying the higher score of
      each kind, and keeps its place. */
  function Absorb(m: Merged, c: Candidate): Merged {
    if c.docRef in m.byRef then
      var existing := m.byRef[c.docRef];
      Merged(m.order, m.byRef[c.docRef := c.(bm25Score := Max(existing.bm25Score, c.bm25Score),
                                             vectorScore := Max(existing.vectorScore, c.vectorScore))])
    else Merged(m.order + [c.docRef], m.byRef[c.docRef := c])
  }

  /** The dict after absorbing `hits` in order, starting from `m`. */
  function MergeFrom(m: Merged, hits: seq<Candidate>): Merged {
    if hits == [] then m else Absorb(MergeFrom(m, hits[..|hits| - 1]), hits[|hits| - 1])
  }

  function Values(m: Merged): (r: seq<Candidate>)
    requires Tidy(m)
    ensures |r| == |m.order| && forall i :: 0 <= i < |r| ==> r[i] == m.byRef[m.order[i]]
  {
    seq(|m.order|, i requires 0 <= i < |m.order| && Tidy(m) => m.byRef[m.order[i]])
  }

  /** `_retrieve_candidates`: the merged candidates in first-seen order. */
  function Retrieve(state: IndexState, scores: map<string, ChunkScores>, selected: seq<string>,
                    bm25TopK: int, vectorTopK: int): Result<seq<Candidate>, LookupError>
    requires ScoresEveryChunk(state, scores)
  {
    var hits :- AllHits(state, scores, selected, bm25TopK, vectorTopK);
    MergeTidy(Merged([], map[]), hits);
    Ok(Values(MergeFrom(Merged([], map[]), hits)))
  }

  // ----- the loops ------------------------------------------------------------

  /** `_retrieve_candidates`: walks the selected docsets and updates the
      dict of candidates in place. */
  method RetrieveCandidates(state: IndexState, scores: map<string, ChunkScores>, selected: seq<string>,
                            bm25TopK: int, vectorTopK: int) returns (r: Result<seq<Candidate>, LookupError>)
    requires ScoresEveryChunk(state, scores)
    ensures r == Retrieve(state, scores, selected, bm25TopK, vectorTopK)
  {
    var order: seq<string> := [];
    var byRef: map<string, Candidate> := map[];
    for j := 0 to |selected|
      invariant MergedSoFar(state, scores, selected[..j], bm25TopK, vectorTopK, Merged(order, byRef))
    {
      var id := selected[j];
      assert selected[..j + 1][..j] == selected[..j];
      var merged := MergeSelected(state, scores, id, bm25TopK, vectorTopK, order, byRef);
      if merged.Err? {
        AllHitsStop(state, scores, selected, bm25TopK, vectorTopK, j + 1);
        return Err(merged.error);
      }
      MergeFromAppend(Merged([], map[]), AllHits(state, scores, selected[..j], bm25TopK, vectorTopK).value,
                      HitsOf(state, scores, id, bm25TopK, vectorTopK).value);
      order, byRef := merged.value.order, merged.value.byRef;
    }
    assert selected[..|selected|] == selected;
    var all := AllHits(state, scores, selected, bm25TopK, vectorTopK).value;
    MergeTidy(Merged([], map[]), all);
    r := Ok(Values(Merged(order, byRef)));
  }

  /** The body of the outer loop of `_retrieve_candidates` for the docset
      `id`: looks up its registry entry, index and scores, and merges its
      candidate chunks into the dict. */
  method MergeSelected(state: IndexState, scores: map<string, ChunkScores>, id: string,
                       bm25TopK: int, vectorTopK: int, order: seq<string>, byRef: map<string, Candidate>)
    returns (r: Result<Merged, LookupError>)
    requires ScoresEveryChunk(state, scores)
    ensures r == match HitsOf(state, scores, id, bm25TopK, vectorTopK)
                 case Ok(hits) => Ok(MergeFrom(Merged(order, byRef), hits))
                 case Err(e) => Err(e)
  {
    var docset := FindDocset(state.docsets, id);
    if docset.None? {
      return Err(UnknownDocset);
    }
    if id !in state.indexes {
      return Err(MissingIndex(id));
    }
    var sc := scores[id];
    var idxs := CandidateIndices(sc, bm25TopK, vectorTopK);
    r := MergeDocset(order, byRef, docset.value, state.indexes[id], sc, idxs);
  }

  /** The outer loop of `_retrieve_candidates` has merged the candidates
      of the docsets `done` into `m`. */
  predicate MergedSoFar(state: IndexState, scores: map<string, ChunkScores>, done: seq<string>,
                        bm25TopK: int, vectorTopK: int, m: Merged)
    requires ScoresEveryChunk(state, scores)
  {
    && AllHits(state, scores, done, bm25TopK, vectorTopK).Ok?
    && m == MergeFrom(Merged([], map[]), AllHits(state, scores, done, bm25TopK, vectorTopK).value)
  }

  /** The inner loop of `_retrieve_candidates` over one docset's candidate chunks. */
  method MergeDocset(order0: seq<string>, byRef0: map<string, Candidate>, docset: Docset, index: DocsetIndex,
                     sc: ChunkScores, idxs: seq<nat>) returns (r: Result<Merged, LookupError>)
    requires forall k :: 0 <= k < |idxs| ==> idxs[k] < |index.chunks| && idxs[k] < |sc.bm25| && idxs[k] < |sc.vector|
    ensures r == match DocsetHits(docset, index, sc, idxs)
                 case Ok(hits) => Ok(MergeFrom(Merged(order0, byRef0), hits))
                 case Err(e) => Err(e)
  {
    var order, byRef := order0, byRef0;
    for m := 0 to |idxs|
      invariant DocsetHits(docset, index, sc, idxs[..m]).Ok?
      invariant Merged(order, byRef) == MergeFrom(Merged(order0, byRef0), DocsetHits(docset, index, sc, idxs[..m]).value)
    {
      assert idxs[..m + 1][..m] == idxs[..m];
      var i := idxs[m];
      var chunk := index.chunks[i];
      if chunk.sectionRef !in index.sections {
        DocsetHitsStop(docset, index, sc, idxs, m + 1);
        return Err(MissingSection(chunk.sectionRef));
      }
      var c := Candidate(chunk.docRef, docset, index.sections[chunk.sectionRef], chunk, sc.bm25[i], sc.vector[i]);
      MergeFromNext(Merged(order0, byRef0), DocsetHits(docset, index, sc, idxs[..m]).value, c);
      order, byRef := AbsorbInto(order, byRef, c);
    }
    assert idxs[..|idxs|] == idxs;
    return Ok(Merged(order, byRef));
  }

  /** The dict update of the inner loop for one candidate. */
  method AbsorbInto(order: seq<string>, byRef: map<string, Candidate>, c: Candidate)
    returns (order': seq<string>, byRef': map<string, Candidate>)
    ensures Merged(order', byRef') == Absorb(Merged(order, byRef), c)
  {
    order', byRef' := order, byRef;
    if c.docRef !in byRef {
      order' := order + [c.docRef];
      byRef' := byRef[c.docRef := c];
    } else {
      var existing := byRef[c.docRef];
      byRef' := byRef[c.docRef := c.(bm25Score := Max(existing.bm25Score, c.bm25Score),
                                     vectorScore := Max(existing.vectorScore, c.vectorScore))];
    }
  }

  // ----- lemmas the loops use -------------------------------------------------

  /** The dict stays tidy. */
  lemma {:induction false} MergeTidy(m: Merged, hits: seq<Candidate>)
    requires Tidy(m)
    ensures Tidy(MergeFrom(m, hits))
  {
    if hits != [] {
      MergeTidy(m, hits[..|hits| - 1]);
    }
  }

  lemma MergeFromNext(m: Merged, hits: seq<Candidate>, c: Candidate)
    ensures MergeFrom(m, hits + [c]) == Absorb(MergeFrom(m, hits), c)
  {
    assert (hits + [c])[..|hits|] == hits;
  }

  /** Merging two runs of candidates merges the first, then the second. */
  lemma {:induction false} MergeFromAppend(m: Merged, a: seq<Candidate>, b: seq<Candidate>)
    ensures MergeFrom(m, a + b) == MergeFrom(MergeFrom(m, a), b)
    decreases |b|
  {
    if b == [] {
      assert a + b == a;
    } else {
      var init := b[..|b| - 1];
      assert (a + b)[..|a + b| - 1] == a + init;
      MergeFromAppend(m, a, init);
    }
  }

  /** Once a docset's lookup fails, the whole retrieval fails with that error. */
  lemma {:induction false} AllHitsStop(state: IndexState, scores: map<string, ChunkScores>, selected: seq<string>,
                                       bm25TopK: int, vectorTopK: int, k: nat)
    requires ScoresEveryChunk(state, scores)
    requires 0 < k <= |selected|
    requires AllHits(state, scores, selected[..k - 1], bm25TopK, vectorTopK).Ok?
    requires HitsOf(state, scores, selected[k - 1], bm25TopK, vectorTopK).Err?
    ensures AllHits(state, scores, selected, bm25TopK, vectorTopK) ==
      Err(HitsOf(state, scores, selected[k - 1], bm25TopK, vectorTopK).error)
    decreases |selected|
  {
    if k < |selected| {
      var init := selected[..|selected| - 1];
      assert init[..k - 1] == selected[..k - 1] && init[k - 1] == selected[k - 1];
      AllHitsStop(state, scores, init, bm25TopK, vectorTopK, k);
    } else {
      assert selected[..|selected| - 1] == selected[..k - 1];
    }
  }

  /** Once a chunk's section is missing, the docset's hits fail with that error. */
  lemma {:induction false} DocsetHitsStop(docset: Docset, index: DocsetIndex, sc: ChunkScores, idxs: seq<nat>, k: nat)
    requires forall j :: 0 <= j < |idxs| ==> idxs[j] < |index.chunks| && idxs[j] < |sc.bm25| && idxs[j] < |sc.vector|
    requires 0 < k <= |idxs|
    requires DocsetHits(docset, index, sc, idxs[..k - 1]).Ok?
    requires HitAt(docset, index, sc, idxs[k - 1]).Err?
    ensures DocsetHits(docset, index, sc, idxs) == Err(HitAt(docset, index, sc, idxs[k - 1]).error)
    decreases |idxs|
  {
    if k < |idxs| {
      var init := idxs[..|idxs| - 1];
      assert init[..k - 1] == idxs[..k - 1] && init[k - 1] == idxs[k - 1];
      DocsetHitsStop(docset, index, sc, init, k);
    } else {
      assert idxs[..|idxs| - 1] == idxs[..k - 1];
    }
  }

  // =========================================================================
  // Properties

  /** The candidate positions of a docset are the union of its two top-k
      lists, each position once, in ascending order. */
  lemma CandidateIndicesUnion(sc: ChunkScores, bm25TopK: int, vectorTopK: int)
    requires |sc.bm25| == |sc.vector|
    ensures var r := CandidateIndices(sc, bm25TopK, vectorTopK);
      && (forall x :: x in r <==>
            x in TopKIndices(sc.bm25, Min(bm25TopK, |sc.bm25|)) || x in TopKIndices(sc.vector, Min(vectorTopK, |sc.vector|)))
      && (forall i, j :: 0 <= i < j < |r| ==> r[i] < r[j])
  {
    TopKIndicesSpec(sc.bm25, Min(bm25TopK, |sc.bm25|));
    TopKIndicesSpec(sc.vector, Min(vectorTopK, |sc.vector|));
  }

  /** A docset's hits are one candidate per candidate position, in order. */
  lemma {:induction false} DocsetHitsAt(docset: Docset, index: DocsetIndex, sc: ChunkScores, idxs: seq<nat>)
    requires forall k :: 0 <= k < |idxs| ==> idxs[k] < |index.chunks| && idxs[k] < |sc.bm25| && idxs[k] < |sc.vector|
    requires DocsetHits(docset, index, sc, idxs).Ok?
    ensures var hits := DocsetHits(docset, index, sc, idxs).value;
      |hits| == |idxs| && forall k :: 0 <= k < |idxs| ==> HitAt(docset, index, sc, idxs[k]) == Ok(hits[k])
  {
    if idxs != [] {
      DocsetHitsAt(docset, index, sc, idxs[..|idxs| - 1]);
    }
  }

  /** The candidate of a chunk is filed under the chunk's document
      reference and carries the chunk's own scores and section. */
  lemma HitAtChunk(docset: Docset, index: DocsetIndex, sc: ChunkScores, i: nat)
    requires i < |index.chunks| && i < |sc.bm25| && i < |sc.vector|
    ensures HitAt(docset, index, sc, i).Ok? <==> index.chunks[i].sectionRef in index.sections
    ensures HitAt(docset, index, sc, i).Ok? ==>
      var c := HitAt(docset, index, sc, i).value;
      && c.docRef == index.chunks[i].docRef && c.chunk == index.chunks[i]
      && c.section == index.sections[index.chunks[i].sectionRef]
      && c.bm25Score == sc.bm25[i] && c.vectorScore == sc.vector[i]
  {
  }

  /** Some candidate of `hits` is filed under `k`. */
  predicate HasRef(hits: seq<Candidate>, k: string) {
    exists i :: 0 <= i < |hits| && hits[i].docRef == k
  }

  /** `c` carries the highest BM25 score and the highest vector score among
      the candidates of `hits` filed under `k`, each attained by one of them. */
  predicate Highest(hits: seq<Candidate>, k: string, c: Candidate) {
    && (forall i :: 0 <= i < |hits| && hits[i].docRef == k ==>
          hits[i].bm25Score <= c.bm25Score && hits[i].vectorScore <= c.vectorScore)
    && (exists i :: 0 <= i < |hits| && hits[i].docRef == k && hits[i].bm25Score == c.bm25Score)
    && (exists i :: 0 <= i < |hits| && hits[i].docRef == k && hits[i].vectorScore == c.vectorScore)
  }

  /** `c` carries the docset, section and chunk of the last candidate of
      `hits` filed under `k`. */
  predicate FromLast(hits: seq<Candidate>, k: string, c: Candidate) {
    exists i :: 0 <= i < |hits| && hits[i].docRef == k
      && c.docset == hits[i].docset && c.section == hits[i].section && c.chunk == hits[i].chunk
      && forall j :: i < j < |hits| ==> hits[j].docRef != k
  }

  lemma HasRefSnoc(hits: seq<Candidate>, k: string)
    requires hits != []
    ensures HasRef(hits, k) <==> HasRef(hits[..|hits| - 1], k) || hits[|hits| - 1].docRef == k
  {
    var init := hits[..|hits| - 1];
    if HasRef(init, k) {
      var i :| 0 <= i < |init| && init[i].docRef == k;
      assert hits[i].docRef == k;
    }
  }

  /** The merged dict holds exactly the references of the candidates seen. */
  lemma {:induction false} MergedKeys(m: Merged, hits: seq<Candidate>)
    ensures forall k :: k in MergeFrom(m, hits).byRef <==> k in m.byRef || HasRef(hits, k)
  {
    if hits != [] {
      MergedKeys(m, hits[..|hits| - 1]);
      forall k {
        HasRefSnoc(hits, k);
      }
    }
  }

  /** Each merged candidate carries the highest BM25 score and the highest
      vector score among the candidates seen for its reference. */
  lemma {:induction false} MergedScores(hits: seq<Candidate>, k: string)
    requires k in MergeFrom(Merged([], map[]), hits).byRef
    ensures Highest(hits, k, MergeFrom(Merged([], map[]), hits).byRef[k])
  {
    var e := Merged([], map[]);
    var n := |hits| - 1;
    var init := hits[..n];
    var last := hits[n];
    var prev := MergeFrom(e, init);
    var c := MergeFrom(e, hits).byRef[k];
    assert hits == init + [last];
    MergedKeys(e, init);
    if k in prev.byRef {
      MergedScores(init, k);
      HighestNext(init, last, k, prev.byRef[k], c);
    } else {
      assert c == last;
      HighestFirst(init, last, k);
    }
  }

  /** The first candidate filed under `k` carries the highest scores so far. */
  lemma HighestFirst(init: seq<Candidate>, last: Candidate, k: string)
    requires !HasRef(init, k) && last.docRef == k
    ensures Highest(init + [last], k, last)
  {
    var hits := init + [last];
    assert hits[|init|] == last;
    forall i | 0 <= i < |init|
      ensures hits[i].docRef != k
    {
      assert hits[i] == init[i];
    }
  }

  /** One more candidate: the highest scores for `k` are kept, or raised by
      a candidate filed under `k`. */
  lemma HighestNext(init: seq<Candidate>, last: Candidate, k: string, was: Candidate, c: Candidate)
    requires Highest(init, k, was)
    requires last.docRef != k ==> c == was
    requires last.docRef == k ==>
      c.bm25Score == Max(was.bm25Score, last.bm25Score) && c.vectorScore == Max(was.vectorScore, last.vectorScore)
    ensures Highest(init + [last], k, c)
  {
    var hits := init + [last];
    var i :| 0 <= i < |init| && init[i].docRef == k && init[i].bm25Score == was.bm25Score;
    var j :| 0 <= j < |init| && init[j].docRef == k && init[j].vectorScore == was.vectorScore;
    assert hits[i] == init[i] && hits[j] == init[j] && hits[|init|] == last;
    assert forall x :: 0 <= x < |init| ==> hits[x] == init[x];
  }

  /** Each merged candidate keeps the docset, section and chunk of the last
      candidate seen for its reference. */
  lemma {:induction false} MergedLast(hits: seq<Candidate>, k: string)
    requires k in MergeFrom(Merged([], map[]), hits).byRef
    ensures FromLast(hits, k, MergeFrom(Merged([], map[]), hits).byRef[k])
  {
    var e := Merged([], map[]);
    var n := |hits| - 1;
    var init := hits[..n];
    var prev := MergeFrom(e, init);
    var c := MergeFrom(e, hits).byRef[k];
    if hits[n].docRef == k {
      assert c.docset == hits[n].docset && c.section == hits[n].section && c.chunk == hits[n].chunk;
    } else {
      MergedKeys(e, init);
      assert k in prev.byRef && c == prev.byRef[k];
      MergedLast(init, k);
      FromLastNext(init, hits[n], k, c);
      assert init + [hits[n]] == hits;
    }
  }

  lemma FromLastNext(init: seq<Candidate>, last: Candidate, k: string, c: Candidate)
    requires FromLast(init, k, c) && last.docRef != k
    ensures FromLast(init + [last], k, c)
  {
    var hits := init + [last];
    var i :| 0 <= i < |init| && init[i].docRef == k
      && c.docset == init[i].docset && c.section == init[i].section && c.chunk == init[i].chunk
      && forall j :: i < j < |init| ==> init[j].docRef != k;
    assert hits[i] == init[i];
    assert forall j :: i < j < |init| ==> hits[j] == init[j];
  }

  /** The values of a tidy dict, in key order, carry its keys: distinct,
      and exactly the dict's. */
  lemma ValuesOfTidy(m: Merged)
    requires Tidy(m)
    ensures var cs := Values(m);
      && (forall i :: 0 <= i < |cs| ==> cs[i].docRef == m.order[i])
      && (forall i, j :: 0 <= i < j < |cs| ==> cs[i].docRef != cs[j].docRef)
      && (forall k :: HasRef(cs, k) <==> k in m.byRef)
  {
    var cs := Values(m);
    assert forall i :: 0 <= i < |cs| ==> m.order[i] in m.byRef;
    forall k | k in m.byRef
      ensures HasRef(cs, k)
    {
      var i :| 0 <= i < |m.order| && m.order[i] == k;
      assert cs[i].docRef == k;
    }
  }

  /** The merged candidates, in first-seen order: one per document
      reference, exactly the references seen, each with the highest scores
      seen for it and the docset, section and chunk of its last candidate. */
  lemma MergedValues(hits: seq<Candidate>)
    ensures Tidy(MergeFrom(Merged([], map[]), hits))
    ensures var cs := Values(MergeFrom(Merged([], map[]), hits));
      && (forall i, j :: 0 <= i < j < |cs| ==> cs[i].docRef != cs[j].docRef)
      && (forall k :: HasRef(cs, k) <==> HasRef(hits, k))
      && (forall i :: 0 <= i < |cs| ==> Highest(hits, cs[i].docRef, cs[i]) && FromLast(hits, cs[i].docRef, cs[i]))
  {
    var e := Merged([], map[]);
    var m := MergeFrom(e, hits);
    MergeTidy(e, hits);
    MergedKeys(e, hits);
    ValuesOfTidy(m);
    var cs := Values(m);
    forall i | 0 <= i < |cs|
      ensures Highest(hits, cs[i].docRef, cs[i]) && FromLast(hits, cs[i].docRef, cs[i])
    {
      assert cs[i].docRef == m.order[i];
      MergedScores(hits, m.order[i]);
      MergedLast(hits, m.order[i]);
    }
  }

  /** `_retrieve_candidates` yields one candidate per document reference:
      exactly the references of the candidate chunks of the selected
      docsets, each with the highest scores seen for it. */
  lemma RetrieveSpec(state: IndexState, scores: map<string, ChunkScores>, selected: seq<string>,
                     bm25TopK: int, vectorTopK: int)
    requires ScoresEveryChunk(state, scores)
    requires Retrieve(state, scores, selected, bm25TopK, vectorTopK).Ok?
    ensures var cs := Retrieve(state, scores, selected, bm25TopK, vectorTopK).value;
      var hits := AllHits(state, scores, selected, bm25TopK, vectorTopK).value;
      && (forall i, j :: 0 <= i < j < |cs| ==> cs[i].docRef != cs[j].docRef)
      && (forall k :: HasRef(cs, k) <==> HasRef(hits, k))
      && (forall i :: 0 <= i < |cs| ==> Highest(hits, cs[i].docRef, cs[i]))
  {
    MergedValues(AllHits(state, scores, selected, bm25TopK, vectorTopK).value);
  }
}
