/** The docset router `_route_docsets` (api/engine.py): every docset of the
    registry is scored against the lowercased query with a fixed integer
    formula, and the best-scoring ones are selected. */
module Router {
  import opened Wrappers
  import opened Text
  import opened Index
  import opened Ranking

  /** The part of a `SearchContext` the router reads. */
  datatype SearchContext = SearchContext(language: Option<string>, dependencies: Option<seq<string>>)

  datatype RoutingDecision = RoutingDecision(selectedDocsets: seq<string>, reasons: map<string, string>)

  /** The lowercased dependencies: none without a context or without a list. */
  function Dependencies(context: Option<SearchContext>): (deps: seq<string>)
    ensures context.None? ==> deps == []
  {
    match context
    case None => []
    case Some(c) =>
      match c.dependencies
      case None => []
      case Some(ds) => seq(|ds|, i requires 0 <= i < |ds| => Lower(ds[i]))
  }

  /** `source_hint.lower() == docset_id.lower()`, for a non-empty hint. */
  predicate HintMatches(hint: Option<string>, docsetId: string) {
    hint.Some? && hint.value != [] && Lower(hint.value) == Lower(docsetId)
  }

  /** `[w for w in words if w.lower() in q]`. */
  function MatchesIn(words: seq<string>, q: string): (r: seq<string>)
    ensures |r| <= |words|
    ensures forall w :: w in r <==> w in words && IsSubstring(Lower(w), q)
  {
    if words == [] then []
    else if IsSubstring(Lower(words[0]), q) then [words[0]] + MatchesIn(words[1..], q)
    else MatchesIn(words[1..], q)
  }

  /** Some dependency contains the lowercased keyword. */
  predicate InSomeDependency(k: string, deps: seq<string>) {
    exists d :: d in deps && IsSubstring(Lower(k), d)
  }

  /** `[k for k in keywords if any(k.lower() in d for d in deps)]`. */
  function DependencyMatches(keywords: seq<string>, deps: seq<string>): (r: seq<string>)
    ensures |r| <= |keywords|
    ensures forall k :: k in r <==> k in keywords && InSomeDependency(k, deps)
  {
    if keywords == [] then []
    else if InSomeDependency(keywords[0], deps) then [keywords[0]] + DependencyMatches(keywords[1..], deps)
    else DependencyMatches(keywords[1..], deps)
  }

  /** The score of one docset: 100 for the source hint, 10 per keyword and
      3 per tag found in the query, 15 per keyword found in a dependency. */
  function Score(d: Docset, q: string, hint: Option<string>, deps: seq<string>): int {
    (if HintMatches(hint, d.docsetId) then 100 else 0)
    + 10 * |MatchesIn(d.keywords, q)|
    + 3 * |MatchesIn(d.tags, q)|
    + 15 * |DependencyMatches(d.keywords, deps)|
  }

  /** `kind:` and the first three matches, comma separated. */
  function Listed(kind: string, matches: seq<string>): string {
    kind + ":" + Join(TakePy(matches, 3), ",")
  }

  /** The part a matching source hint adds to the reason. */
  function HintPart(hint: Option<string>, docsetId: string): seq<string> {
    if HintMatches(hint, docsetId) then ["source_hint"] else []
  }

  /** The part a non-empty list of matches adds to the reason. */
  function MatchPart(kind: string, matches: seq<string>): seq<string> {
    if matches != [] then [Listed(kind, matches)] else []
  }

  /** The parts of a docset's reason: the hint, then the keywords, tags and
      dependency keywords that matched, each part only when it scored. */
  function ReasonParts(d: Docset, q: string, hint: Option<string>, deps: seq<string>): seq<string> {
    HintPart(hint, d.docsetId)
    + MatchPart("keywords", MatchesIn(d.keywords, q))
    + MatchPart("tags", MatchesIn(d.tags, q))
    + MatchPart("deps", DependencyMatches(d.keywords, deps))
  }

  /** The reason recorded for one docset: its parts joined by spaces and
      stripped, or `fallback` when that leaves nothing. */
  function Reason(d: Docset, q: string, hint: Option<string>, deps: seq<string>): string {
    var joined := Strip(Join(ReasonParts(d, q, hint, deps), " "));
    if joined == [] then "fallback" else joined
  }

  /** The scores of the registry, in registry order. */
  function Scores(docsets: seq<Docset>, q: string, hint: Option<string>, deps: seq<string>): (s: seq<int>)
    ensures |s| == |docsets|
    ensures forall i :: 0 <= i < |docsets| ==> s[i] == Score(docsets[i], q, hint, deps)
  {
    seq(|docsets|, i requires 0 <= i < |docsets| => Score(docsets[i], q, hint, deps))
  }

  /** The positions of a ranked list whose score is positive, in order. */
  function KeepPositive(scores: seq<int>, idx: seq<nat>): (r: seq<nat>)
    requires InRange(scores, idx)
    ensures |r| <= |idx| && InRange(scores, r)
    ensures forall p :: p in r <==> p in idx && scores[p] > 0
  {
    if idx == [] then []
    else if scores[idx[0]] > 0 then [idx[0]] + KeepPositive(scores, idx[1..])
    else KeepPositive(scores, idx[1..])
  }

  function IdsAt(docsets: seq<Docset>, idx: seq<nat>): (ids: seq<string>)
    requires forall i :: 0 <= i < |idx| ==> idx[i] < |docsets|
    ensures |ids| == |idx|
    ensures forall i :: 0 <= i < |idx| ==> ids[i] == docsets[idx[i]].docsetId
  {
    seq(|idx|, i requires 0 <= i < |idx| => docsets[idx[i]].docsetId)
  }

  /** The positions of the selected docsets: the positive scores in
      descending order (ties in registry order), at most `maxK` of them;
      when none is positive, the first `maxK` docsets. */
  function SelectedPositions(scores: seq<int>, maxK: int): (r: seq<nat>)
    ensures InRange(scores, r)
  {
    var positive := TakePy(KeepPositive(scores, Rank(scores)), maxK);
    if positive != [] then positive
    else TakePy(seq(|scores|, i requires 0 <= i < |scores| => i as nat), maxK)
  }

  /** The reasons of the registry, in registry order. */
  function Reasons(docsets: seq<Docset>, q: string, hint: Option<string>, deps: seq<string>): (s: seq<string>)
    ensures |s| == |docsets|
    ensures forall i :: 0 <= i < |docsets| ==> s[i] == Reason(docsets[i], q, hint, deps)
  {
    seq(|docsets|, i requires 0 <= i < |docsets| => Reason(docsets[i], q, hint, deps))
  }


  /** `{d: m[d] for d in keys}`. */
  function Restrict<V>(m: map<string, V>, keys: seq<string>): map<string, V> {
    map k | k in keys && k in m :: m[k]
  }

  /** `_route_docsets(docsets, query, source_hint=hint, context=context, max_k=maxK)`. */
  function Route(docsets: seq<Docset>, query: string, hint: Option<string>,
                 context: Option<SearchContext>, maxK: int): RoutingDecision
  {
    var selected := SelectedIds(docsets, query, hint, context, maxK);
    RoutingDecision(selected, Restrict(ById(docsets, Reasons(docsets, Lower(query), hint, Dependencies(context))), selected))
  }

  /** The ids `_route_docsets` selects. */
  function SelectedIds(docsets: seq<Docset>, query: string, hint: Option<string>,
                       context: Option<SearchContext>, maxK: int): seq<string>
  {
    IdsAt(docsets, SelectedPositions(Scores(docsets, Lower(query), hint, Dependencies(context)), maxK))
  }

  // ---------------------------------------------------------------------
  // The scoring loop

  /** The `for docset_id, docset in docsets.items()` loop: fills the score
      and the reason of every docset. */
  method ScoreDocsets(docsets: seq<Docset>, q: string, hint: Option<string>, deps: seq<string>)
    returns (scores: map<string, int>, reasons: map<string, string>)
    ensures scores == ById(docsets, Scores(docsets, q, hint, deps))
    ensures reasons == ById(docsets, Reasons(docsets, q, hint, deps))
  {
    scores, reasons := map[], map[];
    for i := 0 to |docsets|
      invariant scores == ById(docsets[..i], Scores(docsets, q, hint, deps)[..i])
      invariant reasons == ById(docsets[..i], Reasons(docsets, q, hint, deps)[..i])
    {
      scores, reasons := ScoreNext(docsets, q, hint, deps, i, scores, reasons);
    }
    assert docsets[..|docsets|] == docsets;
    assert Scores(docsets, q, hint, deps)[..|docsets|] == Scores(docsets, q, hint, deps);
    assert Reasons(docsets, q, hint, deps)[..|docsets|] == Reasons(docsets, q, hint, deps);
  }

  /** One turn of the scoring loop: scores the docset at position `i` and
      records its score and reason under its id. */
  method ScoreNext(docsets: seq<Docset>, q: string, hint: Option<string>, deps: seq<string>, i: nat,
                   scores: map<string, int>, reasons: map<string, string>)
    returns (scores': map<string, int>, reasons': map<string, string>)
    requires i < |docsets|
    requires scores == ById(docsets[..i], Scores(docsets, q, hint, deps)[..i])
    requires reasons == ById(docsets[..i], Reasons(docsets, q, hint, deps)[..i])
    ensures scores' == ById(docsets[..i + 1], Scores(docsets, q, hint, deps)[..i + 1])
    ensures reasons' == ById(docsets[..i + 1], Reasons(docsets, q, hint, deps)[..i + 1])
  {
    var d := docsets[i];
    var score, reason := ScoreDocset(d, q, hint, deps);
    ByIdNext(docsets, Scores(docsets, q, hint, deps), i);
    ByIdNext(docsets, Reasons(docsets, q, hint, deps), i);
    scores' := scores[d.docsetId := score];
    reasons' := reasons[d.docsetId := reason];
  }

  /** The body of the scoring loop for one docset. */
  method ScoreDocset(d: Docset, q: string, hint: Option<string>, deps: seq<string>)
    returns (score: int, reason: string)
    ensures score == Score(d, q, hint, deps) && reason == Reason(d, q, hint, deps)
  {
    score := 0;
    var parts: seq<string> := [];
    if hint.Some? && hint.value != [] && Lower(hint.value) == Lower(d.docsetId) {
      score := score + 100;
      parts := parts + ["source_hint"];
    }
    assert parts == HintPart(hint, d.docsetId);
    score, parts := AddMatches(score, parts, "keywords", MatchesIn(d.keywords, q), 10);
    score, parts := AddMatches(score, parts, "tags", MatchesIn(d.tags, q), 3);
    score, parts := AddMatches(score, parts, "deps", DependencyMatches(d.keywords, deps), 15);
    assert parts == ReasonParts(d, q, hint, deps);
    var joined := Strip(Join(parts, " "));
    reason := if joined == [] then "fallback" else joined;
  }

  /** One `if matches:` step of the loop body: the matches add `weight`
      each to the score and a part to the reason. */
  method AddMatches(score: int, parts: seq<string>, kind: string, matches: seq<string>, weight: int)
    returns (score': int, parts': seq<string>)
    ensures score' == score + weight * |matches|
    ensures parts' == parts + MatchPart(kind, matches)
  {
    score', parts' := score, parts;
    if matches != [] {
      score' := score' + weight * |matches|;
      parts' := parts' + [Listed(kind, matches)];
    }
  }

  /** `_route_docsets`: the scoring loop, then the selection. */
  method RouteDocsets(docsets: seq<Docset>, query: string, hint: Option<string>,
                      context: Option<SearchContext>, maxK: int) returns (decision: RoutingDecision)
    requires UniqueIds(docsets)
    ensures decision == Route(docsets, query, hint, context, maxK)
  {
    var q := Lower(query);
    var deps := Dependencies(context);
    var scoreMap, reasonMap := ScoreDocsets(docsets, q, hint, deps);
    var scores := ScoresInOrder(docsets, scoreMap, Scores(docsets, q, hint, deps));
    var selected := IdsAt(docsets, SelectedPositions(scores, maxK));
    decision := RoutingDecision(selected, Restrict(reasonMap, selected));
  }

  /** `scores.items()` in insertion order, which is registry order. */
  method ScoresInOrder(docsets: seq<Docset>, scoreMap: map<string, int>, ghost vals: seq<int>)
    returns (scores: seq<int>)
    requires UniqueIds(docsets) && |vals| == |docsets| && scoreMap == ById(docsets, vals)
    ensures scores == vals
  {
    ByIdAt(docsets, vals);
    scores := seq(|docsets|, i requires 0 <= i < |docsets| => scoreMap[docsets[i].docsetId]);
  }

  // ---------------------------------------------------------------------
  // Properties of the routing

  /** A score is never negative, and it is positive exactly when the hint
      matches or some keyword, tag or dependency keyword matched. */
  lemma ScorePositive(d: Docset, q: string, hint: Option<string>, deps: seq<string>)
    ensures Score(d, q, hint, deps) >= 0
    ensures Score(d, q, hint, deps) > 0 <==>
      || HintMatches(hint, d.docsetId)
      || (exists k :: k in d.keywords && IsSubstring(Lower(k), q))
      || (exists t :: t in d.tags && IsSubstring(Lower(t), q))
      || (exists k :: k in d.keywords && InSomeDependency(k, deps))
  {
    var kw := MatchesIn(d.keywords, q);
    var tags := MatchesIn(d.tags, q);
    var dm := DependencyMatches(d.keywords, deps);
    if exists k :: k in d.keywords && IsSubstring(Lower(k), q) {
      var k :| k in d.keywords && IsSubstring(Lower(k), q);
      assert k in kw;
    }
    if exists t :: t in d.tags && IsSubstring(Lower(t), q) {
      var t :| t in d.tags && IsSubstring(Lower(t), q);
      assert t in tags;
    }
    if exists k :: k in d.keywords && InSomeDependency(k, deps) {
      var k :| k in d.keywords && InSomeDependency(k, deps);
      assert k in dm;
    }
    if kw != [] {
      assert kw[0] in kw;
    }
    if tags != [] {
      assert tags[0] in tags;
    }
    if dm != [] {
      assert dm[0] in dm;
    }
  }

  /** Keeping the positive positions of a ranked list keeps it ranked. */
  lemma {:induction false} KeepPositiveRanked(scores: seq<int>, idx: seq<nat>)
    requires Ranked(scores, idx)
    ensures Ranked(scores, KeepPositive(scores, idx))
  {
    if idx != [] {
      var tail := idx[1..];
      KeepPositiveRanked(scores, tail);
      if scores[idx[0]] > 0 {
        var rest := KeepPositive(scores, tail);
        forall j | 0 <= j < |rest|
          ensures Before(scores, idx[0], rest[j])
        {
          assert rest[j] in tail;
          var m :| 0 <= m < |tail| && tail[m] == rest[j];
          assert idx[m + 1] == rest[j];
        }
        RankedCons(scores, idx[0], rest);
      }
    }
  }

  /** The first `n` positions in order. */
  function FirstPositions(n: nat): (r: seq<nat>)
    ensures |r| == n && forall i :: 0 <= i < n ==> r[i] == i
  {
    seq(n, i requires 0 <= i < n => i as nat)
  }

  /** `r` is the first `maxK` positive positions in ranked order: at most
      `maxK`, ranked, all positive, and a positive position is left out only
      when `maxK` are taken, each scoring at least as much. */
  predicate TopPositive(scores: seq<int>, r: seq<nat>, maxK: int) {
    && Ranked(scores, r) && |r| <= maxK
    && (forall i :: 0 <= i < |r| ==> scores[r[i]] > 0)
    && (forall p :: 0 <= p < |scores| && scores[p] > 0 && p !in r ==>
          |r| == maxK && forall i :: 0 <= i < |r| ==> scores[p] <= scores[r[i]])
  }

  /** When some score is positive, the selection is the first `maxK`
      positive positions in ranked order: at most `maxK`, ranked, all
      positive, and a positive position is left out only when `maxK` are
      selected, each scoring at least as much. */
  lemma PositiveSelection(scores: seq<int>, maxK: int)
    requires maxK > 0 && exists p :: 0 <= p < |scores| && scores[p] > 0
    ensures TopPositive(scores, SelectedPositions(scores, maxK), maxK)
  {
    var positive := KeepPositive(scores, Rank(scores));
    PositivesRanked(scores);
    var p0 :| 0 <= p0 < |scores| && scores[p0] > 0;
    assert p0 in positive;
    assert SelectedPositions(scores, maxK) == positive[..Min(maxK, |positive|)];
    RankedPrefixSelection(scores, positive, maxK);
  }

  /** The positive positions in ranked order are exactly the positions
      whose score is positive. */
  lemma PositivesRanked(scores: seq<int>)
    ensures var positive := KeepPositive(scores, Rank(scores));
      && Ranked(scores, positive)
      && (forall p :: p in positive ==> scores[p] > 0)
      && (forall p :: 0 <= p < |scores| && scores[p] > 0 ==> p in positive)
  {
    var all := Rank(scores);
    KeepPositiveRanked(scores, all);
    forall p | 0 <= p < |scores| && scores[p] > 0
      ensures p in KeepPositive(scores, all)
    {
      assert p in all;
    }
  }

  /** The first `maxK` of a ranked list of exactly the positive positions:
      at most `maxK`, ranked, all positive, and a positive position is left
      out only when `maxK` are taken, each scoring at least as much. */
  lemma RankedPrefixSelection(scores: seq<int>, positive: seq<nat>, maxK: int)
    requires maxK > 0 && Ranked(scores, positive)
    requires forall p :: p in positive ==> scores[p] > 0
    requires forall p :: 0 <= p < |scores| && scores[p] > 0 ==> p in positive
    ensures TopPositive(scores, positive[..Min(maxK, |positive|)], maxK)
  {
    var k := Min(maxK, |positive|);
    var r := positive[..k];
    RankedPrefix(scores, positive, k);
    forall i | 0 <= i < |r|
      ensures scores[r[i]] > 0
    {
      assert r[i] in positive;
    }
    forall p | 0 <= p < |scores| && scores[p] > 0 && p !in r
      ensures |r| == maxK && forall i :: 0 <= i < |r| ==> scores[p] <= scores[r[i]]
    {
      LeftOutOfPrefix(scores, positive, k, p);
    }
  }

  /** A position of a ranked list that is not in its first `k` comes after
      them: there are more than `k`, and each of the first `k` scores at
      least as much. */
  lemma LeftOutOfPrefix(scores: seq<int>, idx: seq<nat>, k: nat, p: nat)
    requires Ranked(scores, idx) && k <= |idx| && p in idx && p !in idx[..k]
    ensures k < |idx|
    ensures forall i :: 0 <= i < k ==> scores[p] <= scores[idx[i]]
  {
    var j :| 0 <= j < |idx| && idx[j] == p;
    assert forall m :: 0 <= m < k ==> idx[..k][m] == idx[m];
    assert k <= j;
  }

  /** Without a positive score nothing is kept. */
  lemma {:induction false} KeepNoPositive(scores: seq<int>, idx: seq<nat>)
    requires InRange(scores, idx) && forall p :: 0 <= p < |scores| ==> scores[p] <= 0
    ensures KeepPositive(scores, idx) == []
  {
    if idx != [] {
      KeepNoPositive(scores, idx[1..]);
    }
  }

  /** When no score is positive (and none is negative), the selection is
      the first `maxK` positions, which are ranked since their scores tie. */
  lemma FallbackSelection(scores: seq<int>, maxK: int)
    requires maxK > 0 && forall p :: 0 <= p < |scores| ==> scores[p] == 0
    ensures var r := SelectedPositions(scores, maxK);
      && r == TakePy(FirstPositions(|scores|), maxK)
      && Ranked(scores, r) && |r| <= maxK
  {
    var all := Rank(scores);
    KeepNoPositive(scores, all);
    var first := FirstPositions(|scores|);
    assert seq(|scores|, i requires 0 <= i < |scores| => i as nat) == first;
    var t := TakePy(first, maxK);
    forall i, j | 0 <= i < j < |t|
      ensures Before(scores, t[i], t[j])
    {
      assert t[i] == first[i] && t[j] == first[j];
    }
  }

  /** No docset scores below zero. */
  lemma ScoresNonNegative(docsets: seq<Docset>, q: string, hint: Option<string>, deps: seq<string>)
    ensures forall p :: 0 <= p < |docsets| ==> Scores(docsets, q, hint, deps)[p] >= 0
  {
    forall p | 0 <= p < |docsets|
      ensures Scores(docsets, q, hint, deps)[p] >= 0
    {
      ScorePositive(docsets[p], q, hint, deps);
    }
  }

  /** When some docset scores (with `max_k > 0`), `_route_docsets` selects
      the docsets at positions `r`: at most `max_k`, all scoring, scores
      never increasing and ties in registry order, and a scoring docset is
      left out only when `max_k` are selected, each scoring at least as much. */
  lemma RouteScoring(docsets: seq<Docset>, query: string, hint: Option<string>,
                     context: Option<SearchContext>, maxK: int) returns (r: seq<nat>)
    requires UniqueIds(docsets) && maxK > 0
    requires exists p :: 0 <= p < |docsets| && Scores(docsets, Lower(query), hint, Dependencies(context))[p] > 0
    ensures var s := Scores(docsets, Lower(query), hint, Dependencies(context));
      && Ranked(s, r) && |r| <= maxK
      && SelectedIds(docsets, query, hint, context, maxK) == IdsAt(docsets, r)
      && (forall i :: 0 <= i < |r| ==> s[r[i]] > 0)
      && (forall p :: 0 <= p < |s| && s[p] > 0 && p !in r ==>
            |r| == maxK && forall i :: 0 <= i < |r| ==> s[p] <= s[r[i]])
  {
    var s := Scores(docsets, Lower(query), hint, Dependencies(context));
    r := SelectedPositions(s, maxK);
    PositiveSelection(s, maxK);
  }

  /** When no docset scores, `_route_docsets` falls back to the first
      `max_k` docsets of the registry. */
  lemma RouteFallback(docsets: seq<Docset>, query: string, hint: Option<string>,
                      context: Option<SearchContext>, maxK: int)
    requires UniqueIds(docsets) && maxK > 0
    requires forall p :: 0 <= p < |docsets| ==> Scores(docsets, Lower(query), hint, Dependencies(context))[p] <= 0
    ensures SelectedIds(docsets, query, hint, context, maxK) == TakePy(Ids(docsets), maxK)
  {
    var s := Scores(docsets, Lower(query), hint, Dependencies(context));
    ScoresNonNegative(docsets, Lower(query), hint, Dependencies(context));
    FallbackSelection(s, maxK);
    var first := TakePy(FirstPositions(|s|), maxK);
    var ids := TakePy(Ids(docsets), maxK);
    assert |ids| == |first|;
    assert forall i :: 0 <= i < |ids| ==> ids[i] == docsets[first[i]].docsetId;
  }

  /** The reasons returned are exactly those of the selected docsets. */
  lemma RouteReasons(docsets: seq<Docset>, query: string, hint: Option<string>,
                     context: Option<SearchContext>, maxK: int)
    requires UniqueIds(docsets)
    ensures var decision := Route(docsets, query, hint, context, maxK);
      && (forall id :: id in decision.reasons <==> id in decision.selectedDocsets)
      && (forall i :: 0 <= i < |docsets| && docsets[i].docsetId in decision.selectedDocsets ==>
            decision.reasons[docsets[i].docsetId] == Reason(docsets[i], Lower(query), hint, Dependencies(context)))
  {
    var q := Lower(query);
    var deps := Dependencies(context);
    var s := Scores(docsets, q, hint, deps);
    var r := SelectedPositions(s, maxK);
    ByIdAt(docsets, Reasons(docsets, q, hint, deps));
    var decision := Route(docsets, query, hint, context, maxK);
    forall id | id in decision.selectedDocsets
      ensures id in decision.reasons
    {
      var i :| 0 <= i < |r| && IdsAt(docsets, r)[i] == id;
    }
  }
}
