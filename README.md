# Document retrieval engine: a verified model of its core

This project models the integer- and string-level core of a documentation
retrieval service. The service indexes registered *docsets* (directories of
documentation pages). It cuts each page into sections and each section into
word windows ("chunks"). For a query, it routes to the docsets most likely to
answer, picks the best chunks by BM25 and vector score, and merges them into
one candidate per document reference (`doc_ref`). An `IndexManager` owns the
published index state: it rebuilds it, loads it from a snapshot, and answers
`open(doc_ref)`. Settings come from environment variables and are validated
before use.

One module per concern:

- `Text`: the Python string operations the core relies on, with their
  laws. These are `str.split()`, `strip`/`lstrip`/`rstrip` over character
  sets, `" ".join`, ASCII `lower`, substring tests and slicing.
- `PyInt`: `int()` on environment strings.
- `Config`: `_env_bool` and `Settings.from_env`.
- `Chunker`: `_chunk_words`, written as a loop and proved against a window
  specification.
- `Snippets`: `_truncate_words` and `_truncate_code`.
- `Ranking`: `_top_k_indices`, as a stable descending sort of positions.
- `Sections`: the heading-path rule of `_parse_html_to_sections`.
- `Router`: `_route_docsets`, with its scoring loop and its selection.
- `Paths`: `_resolve_assets` and `_safe_resolve_under_root`, over POSIX
  path normalisation.
- `Index`: the docset, section, chunk and index-state records, the dictionary
  built by a loop keyed by docset id, and the lookup behind `open`.
- `Retrieval`: the candidate merge of `_retrieve_candidates`.
- `Manager`: the `IndexManager` class, with its `_state` and `_revision`
  fields and the methods `_reindex_impl`, `_load_snapshot`, `ensure_ready`
  and `open`.

How the model represents the source:

- Loops that build lists or dictionaries in the source are methods with
  loop invariants. Each such method is proved equal to a specification
  function, and the lemmas about that function state what the source
  promises.
- A Python dict filled in a loop is `ById`. It is a left fold over the
  loop's input, so a later duplicate key overwrites an earlier one.
- Scores are integers.
- Iterating a Python set of chunk positions visits them in ascending order.
- Sorting by score is stable.
- Whatever the core reads from outside is a parameter:
  - the environment;
  - the docset registry;
  - the snapshot file's contents;
  - the settings signature;
  - the index builder;
  - the BM25 and vector score vectors;
  - the current directory and the user's home.

## Model

| member | source | states |
|---|---|---|
| Config.EnvBool | api/settings.py:8-17 | defines `_env_bool`: the default when unset, else the word table of the stripped lower-cased value, else the invalid-boolean error; stated by EnvBoolUnset, EnvBoolSet and EnvBoolOf |
| Config.FromEnv | api/settings.py:39-87 | defines `Settings.from_env`: the seven reads in source order, the guard chain, then the settings record; stated by FromEnvValid, FromEnvSucceeds, FromEnvFirstError and FromEnvDefaults |
| Config.EnvBoolUnset | api/settings.py:8-11 | an unset variable yields the default |
| Config.EnvBoolSet | api/settings.py:12-17 | a set variable, stripped and lower-cased, yields true exactly for the truthy words, false exactly for the falsy words, and the invalid-boolean error (with the raw value) otherwise |
| Config.BoolWordSets | api/settings.py:13-16 | the word table: true, false or none according to membership in the two fixed sets |
| Config.EnvBoolOf | api/settings.py:12-17 | the result of `_env_bool` for any raw value is the word table applied to its stripped lower-cased form |
| Config.EnvBoolTolerant | api/settings.py:12 | surrounding whitespace and letter case do not change the parsed boolean |
| Config.CheckConsistent | api/settings.py:63-72 | the guard chain accepts exactly the consistent numbers (chunk words > 0, 0 <= overlap < chunk words, router max > 0, results top-k > 0) and returns them unchanged |
| Config.FromEnvValid | api/settings.py:63-87 | every settings value `from_env` returns satisfies the chunking, router and result bounds |
| Config.FromEnvSucceeds | api/settings.py:53-72 | `from_env` succeeds exactly when all numbers parse and are consistent |
| Config.FromEnvFirstError | api/settings.py:53 | an unparsable chunk-words value fails first, naming that variable and value |
| Config.FromEnvDefaults | api/settings.py:39-87 | the empty environment gives defaults 280/60/3/20/20/8, auto-index on, no token or snapshot path, and passes validation |
| Config.TopKNotValidated | api/settings.py:57-58 | any BM25 and vector top-k, negative ones included, pass validation when the rest is consistent |
| Config.ReadNumbersOk | api/settings.py:53-61 | the numbers read are exactly the parsed values of the seven variables with their defaults |
| Config.ReadNumbersOf | api/settings.py:53-61 | conversely, parsed values of the seven variables determine the numbers read |
| Config.SetBm25TopK | api/settings.py:57 | setting the BM25 variable to a number changes only that field |
| Config.SetVectorTopK | api/settings.py:58 | setting the vector variable to a number changes only that field |
| Config.EnvIntShown | api/settings.py:53-59 | a variable holding a decimal number parses back to that number |
| Config.EnvIntIsText | api/settings.py:53-59 | an integer default behaves as its decimal text default |
| Config.DefaultTexts | api/settings.py:53-59 | the default texts are the decimal forms of the default numbers |
| Config.EnvIntOther | api/settings.py:53-59 | setting another variable does not change an integer read |
| Config.EnvBoolOther | api/settings.py:61 | setting another variable does not change a boolean read |
| PyInt.ParseInt | api/settings.py:53-59 | defines `int()` on a variable's text: surrounding whitespace ignored, an optional sign, then ASCII digits with single underscores between them; stated by ParseShow and ParsePadded |
| PyInt.ParseShow | api/settings.py:53-59 | `int()` of a number's decimal text is that number |
| PyInt.ParsePadded | api/settings.py:53-59 | `int()` ignores surrounding whitespace |
| Text.SplitJoin | api/engine.py:65-73 | splitting words joined by single spaces gives back the words |
| Text.SplitStrip | api/engine.py:65-67 | stripping does not change the words of a text |
| Text.StripLower | api/settings.py:12 | stripping and lower-casing commute |
| Chunker.Chunks | api/engine.py:64-78 | defines the chunks of a text: the stripped text when it has at most max words, else one joined window per window start; stated by ShortTextIsOneChunk, ChunkWordsAt, WindowsChain and EveryWordInSomeChunk |
| Chunker.ChunkWords | api/engine.py:64-78 | the loop returns exactly the chunk specification: one stripped text when it is short, else the joined windows |
| Chunker.SlideWindows | api/engine.py:69-78 | the window loop appends window i for every window start and stops at the last window |
| Chunker.JoinedChunk | api/engine.py:73-75 | a window's chunk is its words joined by spaces, never empty, so the emptiness guard never drops one |
| Chunker.ShortTextIsOneChunk | api/engine.py:64-67 | a text with at most max words (the empty text included) is one chunk, the stripped text, with the same words |
| Chunker.ChunkWordsAt | api/engine.py:69-75 | chunk i holds exactly the words from i·step up to min(i·step + max, n), at most max words |
| Chunker.WindowsChain | api/engine.py:69-77 | every window but the last stops before the end and overlaps the next one by exactly the overlap; the last one ends at word n |
| Chunker.EveryWordInSomeChunk | api/engine.py:69-78 | every word of a long text lies inside some window |
| Chunker.LastWindow | api/engine.py:76-77 | window k is the last exactly when it reaches the end and the previous one did not |
| Chunker.WindowBounds | api/engine.py:71-77 | every window starts inside the text; only the last reaches its end |
| Snippets.TruncateWords | api/engine.py:564-568 | defines `_truncate_words`; stated by TruncateWordsShort and TruncateWordsLong |
| Snippets.TruncateCode | api/engine.py:590-594 | defines `_truncate_code`; stated by TruncateCodeShort, TruncateCodeLong and TruncateCodeBounded |
| Snippets.TruncateWordsShort | api/engine.py:564-567 | a text within the word limit comes back stripped, with the same words |
| Snippets.TruncateWordsLong | api/engine.py:568 | a longer text is its first max words joined by spaces plus the ellipsis |
| Snippets.TruncateCodeShort | api/engine.py:590-593 | short code is returned with its leading and trailing newlines removed and nothing else |
| Snippets.TruncateCodeLong | api/engine.py:594 | long code is a prefix of at most max characters, with trailing whitespace removed, followed by a newline and the ellipsis |
| Snippets.TruncateCodeBounded | api/engine.py:590-594 | the result is never longer than max characters plus two |
| Ranking.TopKIndices | api/engine.py:571-577 | defines `_top_k_indices` as the first k positions of the stable descending order; stated by TopKIndicesSpec |
| Ranking.RankedUnique | api/engine.py:575-577 | two ranked orderings of the same positions are equal: the stable descending order is unique |
| Ranking.RankIsTheSortedOrder | api/engine.py:575 | any stable descending ordering of all positions is the one the model computes |
| Ranking.InsertRanked | api/engine.py:575 | inserting a new position into a ranked list keeps it ranked |
| Ranking.TopKIndicesSpec | api/engine.py:571-577 | no positions when k <= 0; otherwise min(k, n) distinct in-range positions in non-increasing score order, and every left-out position scores no higher than every kept one |
| Ranking.RankedPrefix | api/engine.py:576-577 | a prefix of a ranked list is ranked and scores at least as high as the rest |
| Ranking.HeadFirst | api/engine.py:575-577 | the first position of a ranked list precedes every other one |
| Sections.SectionPaths | api/engine.py:736-766 | defines the heading paths of a page's sections, with the title path for a page without headings; stated by HeadingPathAt, HeadingPathsShape and SectionCount |
| Sections.ParseHeadingPaths | api/engine.py:754-766 | the heading loop returns exactly the specified heading paths, or the single title path for a page without headings |
| Sections.HeadingPathAt | api/engine.py:757-766 | the section of heading i has the heading's text as its path, under the latest h2 with text before it |
| Sections.HeadingPathsShape | api/engine.py:762-783 | every path has one or two non-empty parts ending in a heading's text, so the empty-part filter removes nothing |
| Sections.SectionCount | api/engine.py:736-760 | one section per heading with text; a page whose headings all lack text has no section, and a page without headings has one |
| Sections.LastH2After | api/engine.py:762-763 | an h2 with text stays the current h2 until the next h2 with text |
| Index.FindDocset | api/engine.py:483 | a docset found by id is in the registry with that id; none is found exactly for an unknown id |
| Index.ByIdKeys | api/engine.py:236-242 | a dictionary filled by docset id has exactly the ids as keys |
| Index.ByIdValues | api/engine.py:236-242 | each key maps to the value of some docset with that id |
| Index.ByIdAt | api/engine.py:236-242 | with unique ids, each docset's id maps to its own value |
| Index.OpenIn | api/engine.py:339-346 | defines the two-level lookup of `open`, with a lookup error for an unknown reference at either level; stated by OpenUnknown and OpenWellFormed |
| Index.OpenUnknown | api/engine.py:339-341 | an unknown `doc_ref` is a lookup error |
| Index.OpenWellFormed | api/engine.py:339-346 | on a well-formed state `open` succeeds exactly when both maps know the reference, and returns the section named by that chunk's `section_ref` |
| Router.Route | api/engine.py:420-457 | defines the routing decision: the ranked positive ids capped at max_k, else the first max_k ids, with their reasons; stated by RouteScoring, RouteFallback and RouteReasons |
| Router.ScoreDocsets | api/engine.py:427-450 | the scoring loop fills the score and reason dictionaries with each docset's score and reason, keyed by id |
| Router.ScoreDocset | api/engine.py:428-450 | one docset's score is 100 for a hint match, plus 10 per matching keyword, 3 per matching tag and 15 per keyword in a dependency; its reason is the listed parts or "fallback" |
| Router.AddMatches | api/engine.py:435-448 | a match group adds its weight per match and its reason part |
| Router.RouteDocsets | api/engine.py:420-457 | the router returns the specified decision |
| Router.ScoresInOrder | api/engine.py:453 | reading the score dictionary in registry order gives back the registry-order scores |
| Router.ScorePositive | api/engine.py:428-450 | a score is never negative, and positive exactly when the hint matches or some keyword, tag or dependency keyword matches |
| Router.ScoresNonNegative | api/engine.py:428-450 | no docset scores below zero |
| Router.RouteScoring | api/engine.py:453 | when some docset scores positive, the selection has at most max_k ids, all positive, in non-increasing score order with ties in registry order; any positive one left out means the cap was reached by ones scoring at least as high |
| Router.RouteFallback | api/engine.py:453-455 | when nothing scores positive, the selection is the first max_k registry ids |
| Router.RouteReasons | api/engine.py:457 | the reasons cover exactly the selected ids, each with its docset's reason |
| Router.PositiveSelection | api/engine.py:453 | the positive ranked prefix meets the top-positive property |
| Router.KeepPositiveRanked | api/engine.py:453 | filtering out non-positive scores keeps a ranked list ranked |
| Router.FallbackSelection | api/engine.py:453-455 | with all scores zero the selection is the first max_k positions |
| Paths.AssetPath | api/engine.py:839-854 | defines the path `_resolve_assets` gives one source, or none; stated by ResolveAssetShape, ExternalKept, AssetPathSet, StrippedNeverClimbs and ParentReferenceDropped |
| Paths.SafeResolveUnderRoot | api/engine.py:81-88 | defines `_safe_resolve_under_root` over path segments; stated by SafeResolveInvalid, SafeResolveConfined, SafeResolveDescends and SafeResolveTraversal |
| Paths.ResolveAssets | api/engine.py:835-855 | the loop keeps the list's length and resolves every asset by the per-asset rule |
| Paths.ResolveOne | api/engine.py:839-854 | one asset is resolved as specified |
| Paths.ResolveAssetShape | api/engine.py:839-854 | src, alt and caption never change; a changed path is set only for a non-external source, and it is non-empty and starts with neither `.` nor `/` |
| Paths.ExternalKept | api/engine.py:840-843 | an empty, `http://`, `https://` or `data:` source leaves the asset as it was |
| Paths.AssetPathSet | api/engine.py:845-854 | a non-external source whose stripped relative path is not empty gets that path |
| Paths.StrippedNeverClimbs | api/engine.py:850-851 | after stripping leading dots and slashes, the path is rejected only when it is empty: the parent checks never fire |
| Paths.ParentReferenceDropped | api/engine.py:849-851 | as written, a source `../name` next to a top-level page resolves to `name` |
| Paths.ParentRelPath | api/engine.py:849-850 | the stripped relative path of `../name` is `name`, which passes the check |
| Paths.ParentExampleNormalised | api/engine.py:849 | normalising the joined path keeps the leading `..` |
| Paths.IntendedRejectsParent | api/engine.py:850-851 | with the leading `./` and `../` checked as prefixes, `../name` is rejected |
| Paths.IntendedStaysInside | api/engine.py:845-851 | with that correction, every accepted relative path is non-empty parts with no `.`, `..` or empty part |
| Paths.StrippedNormPath | api/engine.py:847-850 | a normalised path without leading slashes, when accepted, is non-empty parts with no `.`, `..` or empty part |
| Paths.RunUnder | api/engine.py:85 | normalising under a base equals the base followed by the normalised relative part, when that part does not climb |
| Paths.SafeResolveInvalid | api/engine.py:82-83 | the invalid-path error is raised exactly for a path starting with `/` or `\` or containing `:` |
| Paths.SafeResolveConfined | api/engine.py:84-88 | every accepted target is the root or lies under it |
| Paths.SafeResolveDescends | api/engine.py:84-88 | a valid path that does not climb resolves to the root followed by its normalised parts |
| Paths.SafeResolveTraversal | api/engine.py:86-87 | `../name` under a one-level root is rejected as a traversal |
| Retrieval.Retrieve | api/engine.py:470-520 | defines the candidates of the selected docsets: all their hits merged by reference, or the first lookup error; stated by RetrieveSpec, MergedScores, MergedLast and AllHitsStop |
| Retrieval.RetrieveCandidates | api/engine.py:480-520 | the merge loop over the selected docsets returns exactly the specified candidates, or the first lookup error |
| Retrieval.MergeDocset | api/engine.py:494-518 | merging one docset's candidate positions equals merging its hits one by one |
| Retrieval.AbsorbInto | api/engine.py:497-518 | one hit is added or merged into the candidate dictionary as specified |
| Retrieval.CandidateIndicesUnion | api/engine.py:486-494 | the visited positions are exactly the union of the BM25 and vector top-k positions, each once, ascending |
| Retrieval.HitAtChunk | api/engine.py:495-509 | a position yields a candidate exactly when its chunk's section exists, with the chunk, section, reference and both scores of that position |
| Retrieval.DocsetHitsAt | api/engine.py:494-509 | a docset's hits correspond one for one to its candidate positions |
| Retrieval.MergeFromAppend | api/engine.py:482-518 | merging two runs of hits in sequence equals merging them together |
| Retrieval.MergeTidy | api/engine.py:480-518 | the merge keeps the insertion order and the dictionary in step |
| Retrieval.MergedKeys | api/engine.py:498-511 | the merged references are exactly the earlier ones plus those of the hits |
| Retrieval.MergedScores | api/engine.py:516-517 | a merged candidate's scores are the maxima over all hits with its reference |
| Retrieval.MergedLast | api/engine.py:511-515 | a merged candidate's docset, section and chunk come from the last hit with its reference |
| Retrieval.MergedValues | api/engine.py:520 | the result lists one candidate per reference seen, with maximal scores and the latest details |
| Retrieval.RetrieveSpec | api/engine.py:470-520 | a successful retrieval has distinct references, exactly those of the hits, each with the highest scores seen |
| Retrieval.AllHitsStop | api/engine.py:483-484 | the first selected docset whose lookup fails decides the error |
| Manager.SnapshotOutcome | api/engine.py:262-305 | the decision table of `_load_snapshot`; loading is decided only for an unpickled snapshot object, and the table is stated by SnapshotAccepted, SnapshotWithAutoIndex and SnapshotWithoutAutoIndex |
| Manager.Reindexed | api/engine.py:206-248 | defines the state `_reindex_impl` publishes, or its error; stated by ReindexValidates, ReindexPublishes, ReindexKeepsUnrequested, ReindexRebuildsRequested and ReindexMapsOwnDocset |
| Manager.Ready | api/engine.py:174-184 | defines the state `ensure_ready` leaves, or its error; stated by ReadyKeeps and ReadyFromNothing |
| Manager.IndexManager.constructor | api/engine.py:155-160 | a new manager has revision 0 and no state |
| Manager.IndexManager.LoadSnapshot | api/engine.py:262-305 | the decision table's outcome; state and revision change only when the snapshot is accepted, and then become the snapshot's |
| Manager.IndexManager.ReindexImpl | api/engine.py:206-250 | on success publishes the rebuilt state and increments the revision by one; on any error leaves both unchanged |
| Manager.IndexManager.EnsureReady | api/engine.py:174-184 | keeps an existing state; otherwise loads the snapshot, or builds when auto-indexing, or fails with nothing changed |
| Manager.IndexManager.Open | api/engine.py:336-346 | makes the manager ready, then looks up the reference in the ready state, with unknown references as errors |
| Manager.BuildIndexes | api/engine.py:219-238 | the loop returns the index dictionary and the reference-to-docset map of the specified indexes, or the first build error |
| Manager.AddIndex | api/engine.py:236-238 | one loop step records the docset's index and maps its chunks' references to it |
| Manager.IndexForDocset | api/engine.py:223-235 | a docset's index is reused from the previous state when not requested, built otherwise |
| Manager.MapChunks | api/engine.py:237-238 | the inner loop maps every chunk reference to the docset |
| Manager.SnapshotAccepted | api/engine.py:281-295 | a snapshot is accepted exactly when it is an unpickled snapshot of the current schema version with the current signature |
| Manager.SnapshotWithAutoIndex | api/engine.py:264-291 | with auto-indexing, loading raises only for an object that is not a snapshot or has the wrong schema version |
| Manager.SnapshotWithoutAutoIndex | api/engine.py:264-291 | without auto-indexing, loading declines quietly only when no path is configured |
| Manager.ReindexValidates | api/engine.py:209-217 | a reindex fails with "no enabled docsets" exactly when none is enabled, and with "unknown" exactly when some requested id is not enabled, listing exactly those ids |
| Manager.ReindexChecksFirst | api/engine.py:209-219 | validation errors come before any build; after validation only a build can fail |
| Manager.ValidationSpec | api/engine.py:209-217 | the validation step reports the two errors under exactly those conditions |
| Manager.EnabledSpec | api/engine.py:209 | the enabled docsets are exactly the registry's enabled ones, and unique ids stay unique |
| Manager.UnknownSpec | api/engine.py:215 | the unknown ids are exactly the requested ids that are not enabled |
| Manager.ReindexPublishes | api/engine.py:240-245 | the new state has the next revision, the enabled docsets, and an index for exactly the enabled ids |
| Manager.ReindexIndexOf | api/engine.py:222-236 | every enabled docset's published index is the one decided for it |
| Manager.ReindexKeepsUnrequested | api/engine.py:224-233 | an enabled docset not requested, with a previous index, keeps its sections, chunks and reference map under the new docset record |
| Manager.ReindexRebuildsRequested | api/engine.py:223-235 | a docset that needs rebuilding gets the builder's index |
| Manager.ReindexMapsOwnDocset | api/engine.py:237-238 | with references tagged by docset id, every chunk's reference maps to its own docset, and every mapped reference is held by that docset's chunks |
| Manager.ReindexOpens | api/engine.py:339-346 | after a reindex, opening any chunk's reference returns that chunk's section |
| Manager.ReindexWellFormedIndexes | api/engine.py:219-236 | well-formed built and reused indexes give a state whose indexes are all well-formed |
| Manager.ChunkRefsSpec | api/engine.py:237-238 | the inner loop's map holds the earlier references plus the chunks', and a chunk's reference maps to the docset |
| Manager.RefMapKeys | api/engine.py:221-238 | the reference map's keys are exactly the references of the indexes' chunks |
| Manager.RefMapLast | api/engine.py:237-238 | each reference maps to the last docset holding it |
| Manager.RefMapTagged | api/engine.py:237-238 | with tagged references, each chunk's reference maps to its own docset |
| Manager.TagNamesDocset | api/engine.py:697 | a reference's docset-id prefix determines the docset |
| Manager.IndexesForStop | api/engine.py:222-235 | the first failing build decides the error |
| Manager.IndexesForAt | api/engine.py:222-236 | each built index is the one decided for its docset |
| Manager.IndexesSnoc | api/engine.py:222-238 | one more docset extends the indexes, the dictionary and the reference map as the loop body does |
| Manager.ReadyKeeps | api/engine.py:175-176 | once ready, readying again changes nothing |
| Manager.ReadyFromNothing | api/engine.py:177-184 | without a state: an accepted snapshot is used; a declined one leads to a full reindex when auto-indexing and to "not built" otherwise; a built state has the next revision |

## Left out

- Floating point: BM25 scores, embeddings, `_minmax` and the weighted
  rerank in `_rerank_candidates` are not modelled. Scores are integers.
- Ranking.TopKIndices: numpy's `argsort` and `argpartition` do not promise an
  order among equal scores, nor which of several tied positions survive a
  cut at k. The model fixes one choice: stable, lower position first. The
  order clause of Ranking.TopKIndicesSpec, and which tied positions are
  kept at the cut, rest on that choice, and so do Ranking.RankedUnique and
  Ranking.RankIsTheSortedOrder. The count, distinctness, non-increasing
  scores and "no left-out position scores higher" hold for any tie order.
- Set iteration order in `_retrieve_candidates` is modelled as ascending
  position order. The merged scores and the set of references do not depend
  on it. Two things do: which duplicate's details are kept, and the order
  of the returned candidate list. That order breaks ties in the stable sort
  of the rerank step, which is not modelled.
- The index builder `_build_docset_index` is a parameter. Its reference format
  (`docset_id:hash`) is the assumption Manager.BuilderTags, and the
  consistency of the indexes it builds is Manager.BuilderWellFormed. Hashing
  (`_sha1_short`, `_snapshot_signature`) is opaque.
- `_load_docsets` (TOML parsing, duplicate-id rejection): the registry is a
  parameter. Lemmas that need unique ids require Index.UniqueIds, which the
  loader guarantees.
- `_save_snapshot`, pickle, `os.replace` and file existence: snapshot reading
  is the SnapshotFile value. Saving runs after the new state and revision
  are published, and when it raises, `_reindex_impl` raises with the new
  state already in place. Manager.IndexManager.ReindexImpl reports success
  in that case.
- PyInt.ParseInt: accepts ASCII digits only. Python's `int` also accepts
  other Unicode decimal digits (`int("２８０") == 280`), which the model
  rejects, so Config.FromEnv fails on such values where the source succeeds.
- Paths.IntendedAssetPath: like the code, it does not normalise a source
  that starts with `/`. Such a source only has its leading slashes removed,
  so `/img/../../x.png` gets the path `img/../../x.png` under both rules.
  Paths.IntendedStaysInside is therefore stated only for sources that do
  not start with `/`.
- Locks, double-checked locking in `ensure_ready`, `lru_cache` and cache
  clearing: concurrency and caching, not behaviour.
- `docsets`, `registry_docsets`, `get_docset`, `reindex` (the lock wrapper),
  `search`, `asset_path`, `_search_uncached` and `resolve_asset_urls`: outside
  the modelled core.
- HTML and Markdown parsing (`_parse_doc_file`, `_extract_fragment`,
  `_plain_text_to_html`): headings come in as already-extracted texts.
  Anchors and section references are not modelled.
- Text.Lower: lower-cases ASCII letters only. Python's Unicode case mapping
  is not modelled.
- `Path.expanduser` handles only `~` and `~/`. `~user` is not modelled.
- `Path.resolve` is modelled without symlinks. A leading `//` is treated like `/`.
- Paths.ResolveAssets: resolves with the character-set strip the code has
  (see Findings), so that it describes what the service does. The corrected
  rule is Paths.IntendedAssetPath, whose properties are proved beside it.
- Logging and timing in `_reindex_impl` and `_load_snapshot`.

## Findings

| source | as written | input that shows it | evidently intended | confidence | as-written member | corrected member |
|---|---|---|---|---|---|---|
| api/engine.py:850-851 | `rel.lstrip("./")` removes every leading `.` and `/` character, so the `../` and `..` checks on the next line can never succeed | an image `../a.png` in page `guide.html` gets path `a.png`, a different file than the one referenced, instead of being left unresolved | strip a leading `./` prefix and reject paths that climb out with `..` | not executed | Paths.ParentReferenceDropped | Paths.IntendedRejectsParent, Paths.IntendedStaysInside |
