/** The index state machine of `IndexManager` (api/engine.py): the manager
    holds the published index state and its revision, rebuilds it from the
    registry (`_reindex_impl`), loads it from a snapshot (`_load_snapshot`),
    makes sure one of the two has happened before serving (`ensure_ready`)
    and looks documents up in it (`open`).

    What the manager reads from outside is a parameter: the registry as
    `_load_docsets` returns it, the outcome of reading the snapshot file,
    the signature of the current settings and the index builder. */
module Manager {
  import opened Wrappers
  import opened Index

  /** `_SNAPSHOT_SCHEMA_VERSION`. */
  const SnapshotSchemaVersion := 1

  /** An `IndexSnapshot`. */
  datatype Snapshot = Snapshot(schemaVersion: int, signature: string, state: IndexState)

  /** What reading `index_snapshot_path` gives: no path configured, no file
      there, a file that fails to open or unpickle, or the unpickled object
      (`None` when it is not an `IndexSnapshot`). */
  datatype SnapshotFile =
    | NoPath
    | Missing
    | Unreadable
    | Unpickled(snapshot: Option<Snapshot>)

  /** The exceptions the manager raises. */
  datatype ManagerError =
    | NoEnabledDocsets
    | UnknownRequested(ids: seq<string>)
    | BuildFailed(docsetId: string, message: string)
    | NotBuilt
    | SnapshotNotFound
    | SnapshotLoadFailed
    | SnapshotInvalidFormat
    | SnapshotSchemaMismatch
    | SnapshotSignatureMismatch
    | Lookup(error: LookupError)

  /** The index builder `_build_docset_index`: an index, or the message of
      the exception it raised. */
  type Builder = Docset -> Result<DocsetIndex, string>

  /** Everything `ensure_ready` and `open` read from outside the manager. */
  datatype Environment = Environment(
    snapshot: SnapshotFile,
    signature: string,
    registry: seq<Docset>,
    build: Builder)

  // =========================================================================
  // _load_snapshot

  /** The decision table of `_load_snapshot`: `Ok(true)` loads the
      snapshot, `Ok(false)` leaves the manager to build, `Err` raises. */
  function SnapshotOutcome(autoIndex: bool, file: SnapshotFile, signature: string): (r: Result<bool, ManagerError>)
    ensures r == Ok(true) ==> file.Unpickled? && file.snapshot.Some?
  {
    match file
    case NoPath => Ok(false)
    case Missing => if autoIndex then Ok(false) else Err(SnapshotNotFound)
    case Unreadable => if autoIndex then Ok(false) else Err(SnapshotLoadFailed)
    case Unpickled(obj) =>
      if obj.None? then Err(SnapshotInvalidFormat)
      else if obj.value.schemaVersion != SnapshotSchemaVersion then Err(SnapshotSchemaMismatch)
      else if obj.value.signature != signature then
        (if autoIndex then Ok(false) else Err(SnapshotSignatureMismatch))
      else Ok(true)
  }

  // =========================================================================
  // _reindex_impl

  /** `[d for d in docsets if d.enabled]`. */
  function Enabled(registry: seq<Docset>): seq<Docset> {
    if registry == [] then []
    else (if registry[0].enabled then [registry[0]] else []) + Enabled(registry[1..])
  }

  /** `[d for d in docset_ids if d not in enabled_by_id]`. */
  function Unknown(requested: seq<string>, enabled: seq<Docset>): seq<string> {
    if requested == [] then []
    else (if requested[0] in Ids(enabled) then [] else [requested[0]]) + Unknown(requested[1..], enabled)
  }

  /** The enabled docsets are those of the registry that are enabled, and
      their ids stay distinct. */
  lemma {:induction false} EnabledSpec(registry: seq<Docset>)
    ensures forall d :: d in Enabled(registry) <==> d in registry && d.enabled
    ensures UniqueIds(registry) ==> UniqueIds(Enabled(registry))
  {
    if registry != [] {
      var rest := Enabled(registry[1..]);
      EnabledSpec(registry[1..]);
      assert forall d :: d in registry <==> d == registry[0] || d in registry[1..];
      if UniqueIds(registry) {
        assert UniqueIds(registry[1..]) by {
          assert forall i :: 0 <= i < |registry[1..]| ==> registry[1..][i] == registry[i + 1];
        }
        forall d | d in rest
          ensures d.docsetId != registry[0].docsetId
        {
          var j :| 0 <= j < |registry[1..]| && registry[1..][j] == d;
          assert registry[j + 1] == d;
        }
      }
    }
  }

  /** The unknown ids are the requested ids that no enabled docset has. */
  lemma {:induction false} UnknownSpec(requested: seq<string>, enabled: seq<Docset>)
    ensures forall x :: x in Unknown(requested, enabled) <==> x in requested && x !in Ids(enabled)
  {
    if requested != [] {
      UnknownSpec(requested[1..], enabled);
      assert forall x :: x in requested <==> x == requested[0] || x in requested[1..];
    }
  }

  /** `docset_ids is None or docset.docset_id in docset_ids`. */
  predicate NeedsRebuild(requested: Option<seq<string>>, id: string) {
    requested.None? || id in requested.value
  }

  /** The index `_reindex_impl` publishes for one enabled docset: the
      previous one, with the registry entry refreshed, when the docset is
      not to be rebuilt and had one; otherwise a freshly built one. */
  function IndexFor(previous: Option<IndexState>, requested: Option<seq<string>>, d: Docset, build: Builder)
    : Result<DocsetIndex, ManagerError>
  {
    if !NeedsRebuild(requested, d.docsetId) && previous.Some? && d.docsetId in previous.value.indexes then
      var prev := previous.value.indexes[d.docsetId];
      Ok(DocsetIndex(d, prev.sections, prev.chunks, prev.docRefToChunk))
    else
      match build(d)
      case Ok(index) => Ok(index)
      case Err(message) => Err(BuildFailed(d.docsetId, message))
  }

  /** The indexes of `ds` in order, or the first builder failure. */
  function IndexesFor(previous: Option<IndexState>, requested: Option<seq<string>>, ds: seq<Docset>, build: Builder)
    : (r: Result<seq<DocsetIndex>, ManagerError>)
    ensures r.Ok? ==> |r.value| == |ds|
    ensures r.Err? ==> r.error.BuildFailed?
  {
    if ds == [] then Ok([])
    else
      var prev :- IndexesFor(previous, requested, ds[..|ds| - 1], build);
      var index :- IndexFor(previous, requested, ds[|ds| - 1], build);
      Ok(prev + [index])
  }

  /** `m` after `doc_ref_to_docset[chunk.doc_ref] = id` for each chunk in order. */
  function ChunkRefs(m: map<string, string>, chunks: seq<Chunk>, id: string): map<string, string> {
    if chunks == [] then m
    else ChunkRefs(m, chunks[..|chunks| - 1], id)[chunks[|chunks| - 1].docRef := id]
  }

  /** `doc_ref_to_docset` after the docsets `ds` with indexes `ixs`. */
  function RefMap(ds: seq<Docset>, ixs: seq<DocsetIndex>): map<string, string>
    requires |ds| == |ixs|
  {
    if ds == [] then map[]
    else ChunkRefs(RefMap(ds[..|ds| - 1], ixs[..|ixs| - 1]), ixs[|ixs| - 1].chunks, ds[|ds| - 1].docsetId)
  }

  /** The checks `_reindex_impl` makes before building: some docset is
      enabled, and every requested id is that of an enabled docset. */
  function Validation(enabled: seq<Docset>, requested: Option<seq<string>>): Option<ManagerError> {
    if enabled == [] then Some(NoEnabledDocsets)
    else if requested.Some? && Unknown(requested.value, enabled) != [] then
      Some(UnknownRequested(Unknown(requested.value, enabled)))
    else None
  }

  /** `_reindex_impl`: the state it publishes after `revision`, or the
      exception it raises. */
  function Reindexed(previous: Option<IndexState>, revision: int, registry: seq<Docset>,
                     requested: Option<seq<string>>, build: Builder): Result<IndexState, ManagerError>
  {
    var enabled := Enabled(registry);
    match Validation(enabled, requested)
    case Some(e) => Err(e)
    case None =>
      var ixs :- IndexesFor(previous, requested, enabled, build);
      Ok(IndexState(revision + 1, enabled, ById(enabled, ixs), RefMap(enabled, ixs)))
  }

  // =========================================================================
  // ensure_ready

  /** The state `ensure_ready` leaves published, or the exception it raises:
      a published state is kept; otherwise an accepted snapshot is loaded,
      and failing that the index is built when `auto_index` is set. */
  function Ready(autoIndex: bool, state: Option<IndexState>, revision: int, env: Environment)
    : Result<IndexState, ManagerError>
  {
    if state.Some? then Ok(state.value)
    else
      match SnapshotOutcome(autoIndex, env.snapshot, env.signature)
      case Err(e) => Err(e)
      case Ok(loaded) =>
        if loaded then Ok(env.snapshot.snapshot.value.state)
        else if !autoIndex then Err(NotBuilt)
        else Reindexed(None, revision, env.registry, None, env.build)
  }

  // =========================================================================
  // The manager

  class IndexManager {
    const autoIndex: bool
    var revision: int
    var state: Option<IndexState>

    /** The published state carries the manager's revision. */
    ghost predicate Valid()
      reads this
    {
      state.Some? ==> state.value.revision == revision
    }

    constructor(autoIndex: bool)
      ensures Valid()
      ensures this.autoIndex == autoIndex && revision == 0 && state == None
    {
      this.autoIndex := autoIndex;
      revision := 0;
      state := None;
    }

    /** `_load_snapshot`: the state and revision change only when the
        snapshot is accepted. */
    method LoadSnapshot(file: SnapshotFile, signature: string) returns (r: Result<bool, ManagerError>)
      requires Valid()
      modifies this
      ensures Valid()
      ensures r == SnapshotOutcome(autoIndex, file, signature)
      ensures r == Ok(true) ==> state == Some(file.snapshot.value.state) && revision == file.snapshot.value.state.revision
      ensures r != Ok(true) ==> state == old(state) && revision == old(revision)
    {
      if file.NoPath? {
        return Ok(false);
      }
      if file.Missing? {
        if autoIndex {
          return Ok(false);
        }
        return Err(SnapshotNotFound);
      }
      if file.Unreadable? {
        if autoIndex {
          return Ok(false);
        }
        return Err(SnapshotLoadFailed);
      }
      if file.snapshot.None? {
        return Err(SnapshotInvalidFormat);
      }
      var snapshot := file.snapshot.value;
      if snapshot.schemaVersion != SnapshotSchemaVersion {
        return Err(SnapshotSchemaMismatch);
      }
      if snapshot.signature != signature {
        if autoIndex {
          return Ok(false);
        }
        return Err(SnapshotSignatureMismatch);
      }
      state := Some(snapshot.state);
      revision := snapshot.state.revision;
      return Ok(true);
    }

    /** `_reindex_impl`: validates the request, then builds or reuses an
        index per enabled docset, maps every chunk's reference to its
        docset, and publishes the new state under the next revision. A
        validation or build failure raises before anything is published;
        saving the snapshot, which runs after publishing and can raise
        too, is not part of this model. */
    method ReindexImpl(registry: seq<Docset>, requested: Option<seq<string>>, build: Builder)
      returns (r: Result<(), ManagerError>)
      requires Valid()
      modifies this
      ensures Valid()
      ensures var want := Reindexed(old(state), old(revision), registry, requested, build);
        && (want.Ok? ==> r.Ok? && state == Some(want.value) && revision == old(revision) + 1)
        && (want.Err? ==> r == Err(want.error) && state == old(state) && revision == old(revision))
    {
      var enabled := Enabled(registry);
      if enabled == [] {
        return Err(NoEnabledDocsets);
      }
      if requested.Some? {
        var unknown := Unknown(requested.value, enabled);
        if unknown != [] {
          return Err(UnknownRequested(unknown));
        }
      }
      var built := BuildIndexes(state, requested, enabled, build);
      if built.Err? {
        return Err(built.error);
      }
      var (indexes, refs) := built.value;
      state := Some(IndexState(revision + 1, enabled, indexes, refs));
      revision := revision + 1;
      return Ok(());
    }

    /** `ensure_ready`: keeps a published state, or loads the snapshot, or
        builds the index when `auto_index` is set, or raises. */
    method EnsureReady(env: Environment) returns (r: Result<(), ManagerError>)
      requires Valid()
      modifies this
      ensures Valid()
      ensures var want := Ready(autoIndex, old(state), old(revision), env);
        && (want.Ok? ==> r.Ok? && state == Some(want.value) && revision == want.value.revision)
        && (want.Err? ==> r == Err(want.error) && state == old(state) && revision == old(revision))
    {
      if state.Some? {
        return Ok(());
      }
      var loaded := LoadSnapshot(env.snapshot, env.signature);
      if loaded.Err? {
        return Err(loaded.error);
      }
      if loaded.value {
        return Ok(());
      }
      if !autoIndex {
        return Err(NotBuilt);
      }
      r := ReindexImpl(env.registry, None, env.build);
    }

    /** `open`: makes the index ready, then looks the reference up in it. */
    method Open(env: Environment, docRef: string) returns (r: Result<DocSection, ManagerError>)
      requires Valid()
      modifies this
      ensures Valid()
      ensures var want := Ready(autoIndex, old(state), old(revision), env);
        && (want.Ok? ==>
              && state == Some(want.value) && revision == want.value.revision
              && r == (match OpenIn(want.value, docRef)
                       case Ok(section) => Ok(section)
                       case Err(e) => Err(Lookup(e))))
        && (want.Err? ==> r == Err(want.error) && state == old(state) && revision == old(revision))
    {
      var ready := EnsureReady(env);
      if ready.Err? {
        return Err(ready.error);
      }
      var s := state.value;
      if docRef !in s.docRefToDocset {
        return Err(Lookup(UnknownDocRef));
      }
      var docsetId := s.docRefToDocset[docRef];
      if docsetId !in s.indexes {
        return Err(Lookup(MissingIndex(docsetId)));
      }
      var index := s.indexes[docsetId];
      if docRef !in index.docRefToChunk {
        return Err(Lookup(UnknownDocRef));
      }
      var chunk := index.docRefToChunk[docRef];
      if chunk.sectionRef !in index.sections {
        return Err(Lookup(MissingSection(chunk.sectionRef)));
      }
      return Ok(index.sections[chunk.sectionRef]);
    }
  }

  /** The loop of `_reindex_impl` over the enabled docsets: the dict of
      indexes and `doc_ref_to_docset` it fills, or the first builder failure. */
  method BuildIndexes(previous: Option<IndexState>, requested: Option<seq<string>>, enabled: seq<Docset>, build: Builder)
    returns (r: Result<(map<string, DocsetIndex>, map<string, string>), ManagerError>)
    ensures var want := IndexesFor(previous, requested, enabled, build);
      && (want.Ok? ==> r == Ok((ById(enabled, want.value), RefMap(enabled, want.value))))
      && (want.Err? ==> r == Err(want.error))
  {
    var indexes: map<string, DocsetIndex> := map[];
    var refs: map<string, string> := map[];
    ghost var ixs: seq<DocsetIndex> := [];
    for i := 0 to |enabled|
      invariant Filled(previous, requested, enabled[..i], build, ixs, indexes, refs)
    {
      var d := enabled[i];
      var next := IndexForDocset(previous, requested, d, build);
      if next.Err? {
        IndexesForStop(previous, requested, enabled, build, i + 1);
        return Err(next.error);
      }
      indexes, refs := AddIndex(previous, requested, enabled, build, i, ixs, indexes, refs, next.value);
      ixs := ixs + [next.value];
    }
    assert enabled[..|enabled|] == enabled;
    return Ok((indexes, refs));
  }

  /** The loop of `_reindex_impl` has built the indexes `ixs` of the docsets
      `done` and filled the dict of indexes and the reference map with them. */
  predicate Filled(previous: Option<IndexState>, requested: Option<seq<string>>, done: seq<Docset>, build: Builder,
                   ixs: seq<DocsetIndex>, indexes: map<string, DocsetIndex>, refs: map<string, string>)
  {
    && IndexesFor(previous, requested, done, build) == Ok(ixs)
    && indexes == ById(done, ixs)
    && refs == RefMap(done, ixs)
  }

  /** Files the index of the docset at position `i` under its id and maps
      its chunks' references to it. */
  method AddIndex(previous: Option<IndexState>, requested: Option<seq<string>>, enabled: seq<Docset>, build: Builder,
                  i: nat, ghost ixs: seq<DocsetIndex>, indexes: map<string, DocsetIndex>, refs: map<string, string>,
                  index: DocsetIndex)
    returns (indexes': map<string, DocsetIndex>, refs': map<string, string>)
    requires i < |enabled|
    requires Filled(previous, requested, enabled[..i], build, ixs, indexes, refs)
    requires IndexFor(previous, requested, enabled[i], build) == Ok(index)
    ensures Filled(previous, requested, enabled[..i + 1], build, ixs + [index], indexes', refs')
  {
    var d := enabled[i];
    IndexesStep(previous, requested, enabled, build, i, ixs, index);
    indexes' := indexes[d.docsetId := index];
    refs' := MapChunks(refs, index.chunks, d.docsetId);
  }

  /** The body of the loop of `_reindex_impl` for one docset: reuse the
      previous index or build a new one. */
  method IndexForDocset(previous: Option<IndexState>, requested: Option<seq<string>>, d: Docset, build: Builder)
    returns (r: Result<DocsetIndex, ManagerError>)
    ensures r == IndexFor(previous, requested, d, build)
  {
    var needsRebuild := requested.None? || d.docsetId in requested.value;
    if !needsRebuild && previous.Some? && d.docsetId in previous.value.indexes {
      var prevIndex := previous.value.indexes[d.docsetId];
      return Ok(DocsetIndex(d, prevIndex.sections, prevIndex.chunks, prevIndex.docRefToChunk));
    }
    var built := build(d);
    if built.Err? {
      return Err(BuildFailed(d.docsetId, built.error));
    }
    return Ok(built.value);
  }

  /** The inner loop of `_reindex_impl` over one index's chunks. */
  method MapChunks(refs0: map<string, string>, chunks: seq<Chunk>, id: string) returns (refs: map<string, string>)
    ensures refs == ChunkRefs(refs0, chunks, id)
  {
    refs := refs0;
    for c := 0 to |chunks|
      invariant refs == ChunkRefs(refs0, chunks[..c], id)
    {
      assert chunks[..c + 1][..c] == chunks[..c];
      refs := refs[chunks[c].docRef := id];
    }
    assert chunks[..|chunks|] == chunks;
  }

  // ----- lemmas the loops use -------------------------------------------------

  /** One more docset's index: the indexes, the dict of indexes and the
      reference map each grow by it. */
  lemma IndexesStep(previous: Option<IndexState>, requested: Option<seq<string>>, ds: seq<Docset>, build: Builder,
                    i: nat, ixs: seq<DocsetIndex>, index: DocsetIndex)
    requires i < |ds|
    requires IndexesFor(previous, requested, ds[..i], build) == Ok(ixs)
    requires IndexFor(previous, requested, ds[i], build) == Ok(index)
    ensures IndexesFor(previous, requested, ds[..i + 1], build) == Ok(ixs + [index])
    ensures |ixs| == i
    ensures ById(ds[..i + 1], ixs + [index]) == ById(ds[..i], ixs)[ds[i].docsetId := index]
    ensures RefMap(ds[..i + 1], ixs + [index]) == ChunkRefs(RefMap(ds[..i], ixs), index.chunks, ds[i].docsetId)
  {
    assert ds[..i + 1] == ds[..i] + [ds[i]];
    IndexesSnoc(previous, requested, ds[..i], build, ds[i], ixs, index);
  }

  lemma IndexesSnoc(previous: Option<IndexState>, requested: Option<seq<string>>, ds: seq<Docset>, build: Builder,
                    d: Docset, ixs: seq<DocsetIndex>, index: DocsetIndex)
    requires IndexesFor(previous, requested, ds, build) == Ok(ixs)
    requires IndexFor(previous, requested, d, build) == Ok(index)
    ensures IndexesFor(previous, requested, ds + [d], build) == Ok(ixs + [index])
    ensures |ixs| == |ds|
    ensures ById(ds + [d], ixs + [index]) == ById(ds, ixs)[d.docsetId := index]
    ensures RefMap(ds + [d], ixs + [index]) == ChunkRefs(RefMap(ds, ixs), index.chunks, d.docsetId)
  {
    assert (ds + [d])[..|ds|] == ds;
    assert (ixs + [index])[..|ixs|] == ixs;
  }

  /** Once a build fails, the whole rebuild fails with that error. */
  lemma {:induction false} IndexesForStop(previous: Option<IndexState>, requested: Option<seq<string>>,
                                          ds: seq<Docset>, build: Builder, k: nat)
    requires 0 < k <= |ds|
    requires IndexesFor(previous, requested, ds[..k - 1], build).Ok?
    requires IndexFor(previous, requested, ds[k - 1], build).Err?
    ensures IndexesFor(previous, requested, ds, build) == Err(IndexFor(previous, requested, ds[k - 1], build).error)
    decreases |ds|
  {
    if k < |ds| {
      var init := ds[..|ds| - 1];
      assert init[..k - 1] == ds[..k - 1] && init[k - 1] == ds[k - 1];
      IndexesForStop(previous, requested, init, build, k);
    } else {
      assert ds[..|ds| - 1] == ds[..k - 1];
    }
  }

  // =========================================================================
  // Properties of _load_snapshot

  /** A snapshot is loaded exactly when one was unpickled with the current
      schema version and the signature of the current settings. */
  lemma SnapshotAccepted(autoIndex: bool, file: SnapshotFile, signature: string)
    ensures SnapshotOutcome(autoIndex, file, signature) == Ok(true) <==>
      && file.Unpickled? && file.snapshot.Some?
      && file.snapshot.value.schemaVersion == SnapshotSchemaVersion
      && file.snapshot.value.signature == signature
  {
  }

  /** With `auto_index` set, only an unpickled object that is not a
      snapshot of the current schema raises; a missing, unreadable or stale
      snapshot makes the manager build instead. */
  lemma SnapshotWithAutoIndex(file: SnapshotFile, signature: string)
    ensures SnapshotOutcome(true, file, signature).Err? <==>
      file.Unpickled? && (file.snapshot.None? || file.snapshot.value.schemaVersion != SnapshotSchemaVersion)
  {
  }

  /** Without `auto_index`, `_load_snapshot` declines only when no snapshot
      path is configured; every other failure raises. */
  lemma SnapshotWithoutAutoIndex(file: SnapshotFile, signature: string)
    ensures SnapshotOutcome(false, file, signature) == Ok(false) <==> file == NoPath
    ensures file != NoPath ==> SnapshotOutcome(false, file, signature) != Ok(false)
  {
  }

  // =========================================================================
  // Properties of _reindex_impl

  /** `_reindex_impl` raises "No enabled docsets" exactly when the registry
      enables none, and "Unknown or disabled docsets" exactly when some
      docset is enabled and some requested id is not enabled, listing
      exactly those ids. */
  lemma ReindexValidates(previous: Option<IndexState>, revision: int, registry: seq<Docset>,
                         requested: Option<seq<string>>, build: Builder)
    ensures Reindexed(previous, revision, registry, requested, build) == Err(NoEnabledDocsets) <==>
      forall d :: d in registry ==> !d.enabled
    ensures var r := Reindexed(previous, revision, registry, requested, build);
      (r.Err? && r.error.UnknownRequested?) <==>
        (exists d :: d in registry && d.enabled) && requested.Some? &&
        exists x :: x in requested.value && x !in Ids(Enabled(registry))
    ensures var r := Reindexed(previous, revision, registry, requested, build);
      r.Err? && r.error.UnknownRequested? ==>
        forall x :: x in r.error.ids <==> x in requested.value && x !in Ids(Enabled(registry))
  {
    ReindexChecksFirst(previous, revision, registry, requested, build);
    ValidationSpec(registry, requested);
  }

  /** The checks come before any build: a failed check is the error raised,
      and after passing them only a build can fail. */
  lemma ReindexChecksFirst(previous: Option<IndexState>, revision: int, registry: seq<Docset>,
                           requested: Option<seq<string>>, build: Builder)
    ensures var v := Validation(Enabled(registry), requested);
      v.Some? ==> Reindexed(previous, revision, registry, requested, build) == Err(v.value)
    ensures var r := Reindexed(previous, revision, registry, requested, build);
      Validation(Enabled(registry), requested).None? ==> r.Ok? || r.error.BuildFailed?
  {
  }

  /** What each check rejects. */
  lemma ValidationSpec(registry: seq<Docset>, requested: Option<seq<string>>)
    ensures Validation(Enabled(registry), requested) == Some(NoEnabledDocsets) <==>
      forall d :: d in registry ==> !d.enabled
    ensures var v := Validation(Enabled(registry), requested);
      (v.Some? && v.value.UnknownRequested?) <==>
        (exists d :: d in registry && d.enabled) && requested.Some? &&
        exists x :: x in requested.value && x !in Ids(Enabled(registry))
    ensures var v := Validation(Enabled(registry), requested);
      v.Some? && v.value.UnknownRequested? ==>
        forall x :: x in v.value.ids <==> x in requested.value && x !in Ids(Enabled(registry))
  {
    NoneEnabled(registry);
    if requested.Some? {
      UnknownSpec(requested.value, Enabled(registry));
      UnknownNonEmpty(requested.value, Enabled(registry));
    }
  }

  /** The registry enables no docset exactly when its filter is empty. */
  lemma NoneEnabled(registry: seq<Docset>)
    ensures Enabled(registry) == [] <==> forall d :: d in registry ==> !d.enabled
  {
    EnabledSpec(registry);
    if Enabled(registry) != [] {
      assert Enabled(registry)[0] in Enabled(registry);
    }
  }

  /** Some requested id is unknown exactly when the list of them is not empty. */
  lemma UnknownNonEmpty(requested: seq<string>, enabled: seq<Docset>)
    ensures Unknown(requested, enabled) != [] <==> exists x :: x in requested && x !in Ids(enabled)
  {
    UnknownSpec(requested, enabled);
    if Unknown(requested, enabled) != [] {
      assert Unknown(requested, enabled)[0] in Unknown(requested, enabled);
    }
  }

  /** The parts of a successful rebuild: the enabled docsets and their
      indexes, in registry order. */
  lemma ReindexedParts(previous: Option<IndexState>, revision: int, registry: seq<Docset>,
                       requested: Option<seq<string>>, build: Builder)
    returns (enabled: seq<Docset>, ixs: seq<DocsetIndex>)
    requires Reindexed(previous, revision, registry, requested, build).Ok?
    ensures enabled == Enabled(registry) && |ixs| == |enabled|
    ensures IndexesFor(previous, requested, enabled, build) == Ok(ixs)
    ensures Reindexed(previous, revision, registry, requested, build).value ==
      IndexState(revision + 1, enabled, ById(enabled, ixs), RefMap(enabled, ixs))
  {
    enabled := Enabled(registry);
    ixs := IndexesFor(previous, requested, enabled, build).value;
  }

  /** A successful rebuild publishes the next revision, the enabled docsets
      in registry order, and an index under exactly their ids. */
  lemma ReindexPublishes(previous: Option<IndexState>, revision: int, registry: seq<Docset>,
                         requested: Option<seq<string>>, build: Builder)
    requires Reindexed(previous, revision, registry, requested, build).Ok?
    ensures var s := Reindexed(previous, revision, registry, requested, build).value;
      && s.revision == revision + 1
      && s.docsets == Enabled(registry)
      && (forall id :: id in s.indexes <==> id in Ids(Enabled(registry)))
  {
    var enabled, ixs := ReindexedParts(previous, revision, registry, requested, build);
    ByIdKeys(enabled, ixs);
  }

  /** Each enabled docset's index is the one `IndexFor` gives it: the
      previous one for a docset not requested that had one, a freshly built
      one otherwise. */
  lemma ReindexIndexOf(previous: Option<IndexState>, revision: int, registry: seq<Docset>,
                       requested: Option<seq<string>>, build: Builder, d: Docset)
    requires UniqueIds(registry)
    requires Reindexed(previous, revision, registry, requested, build).Ok?
    requires d in registry && d.enabled
    ensures var s := Reindexed(previous, revision, registry, requested, build).value;
      d.docsetId in s.indexes && IndexFor(previous, requested, d, build) == Ok(s.indexes[d.docsetId])
  {
    var enabled, ixs := ReindexedParts(previous, revision, registry, requested, build);
    EnabledSpec(registry);
    ByIdAt(enabled, ixs);
    IndexesForAt(previous, requested, enabled, build);
    var i :| 0 <= i < |enabled| && enabled[i] == d;
  }

  /** A docset left out of the requested ids keeps the sections, chunks and
      chunk map of its previous index; only its registry entry is renewed. */
  lemma ReindexKeepsUnrequested(previous: Option<IndexState>, revision: int, registry: seq<Docset>,
                                requested: Option<seq<string>>, build: Builder, d: Docset)
    requires UniqueIds(registry)
    requires Reindexed(previous, revision, registry, requested, build).Ok?
    requires d in registry && d.enabled
    requires requested.Some? && d.docsetId !in requested.value
    requires previous.Some? && d.docsetId in previous.value.indexes
    ensures d.docsetId in Reindexed(previous, revision, registry, requested, build).value.indexes
    ensures var index := Reindexed(previous, revision, registry, requested, build).value.indexes[d.docsetId];
      var prev := previous.value.indexes[d.docsetId];
      && index.docset == d
      && index.sections == prev.sections && index.chunks == prev.chunks && index.docRefToChunk == prev.docRefToChunk
  {
    ReindexIndexOf(previous, revision, registry, requested, build, d);
  }

  /** A requested docset, or every docset when none are named, gets the
      index the builder makes for it. */
  lemma ReindexRebuildsRequested(previous: Option<IndexState>, revision: int, registry: seq<Docset>,
                                 requested: Option<seq<string>>, build: Builder, d: Docset)
    requires UniqueIds(registry)
    requires Reindexed(previous, revision, registry, requested, build).Ok?
    requires d in registry && d.enabled && NeedsRebuild(requested, d.docsetId)
    ensures d.docsetId in Reindexed(previous, revision, registry, requested, build).value.indexes
    ensures build(d) == Ok(Reindexed(previous, revision, registry, requested, build).value.indexes[d.docsetId])
  {
    ReindexIndexOf(previous, revision, registry, requested, build, d);
  }

  lemma {:induction false} IndexesForAt(previous: Option<IndexState>, requested: Option<seq<string>>,
                                        ds: seq<Docset>, build: Builder)
    requires IndexesFor(previous, requested, ds, build).Ok?
    ensures forall i :: 0 <= i < |ds| ==>
      IndexFor(previous, requested, ds[i], build) == Ok(IndexesFor(previous, requested, ds, build).value[i])
  {
    if ds != [] {
      var init := ds[..|ds| - 1];
      IndexesForAt(previous, requested, init, build);
      assert forall i :: 0 <= i < |init| ==> init[i] == ds[i];
    }
  }

  // ----- the reference map ------------------------------------------------------

  /** Some chunk of `chunks` has reference `r`. */
  predicate Holds(chunks: seq<Chunk>, r: string) {
    exists c :: c in chunks && c.docRef == r
  }

  /** Mapping the chunks of one docset adds their references and points
      them at that docset; other references are untouched. */
  lemma {:induction false} ChunkRefsSpec(m: map<string, string>, chunks: seq<Chunk>, id: string)
    ensures forall r :: r in ChunkRefs(m, chunks, id) <==> r in m || Holds(chunks, r)
    ensures forall r :: r in ChunkRefs(m, chunks, id) ==>
      ChunkRefs(m, chunks, id)[r] == if Holds(chunks, r) then id else m[r]
  {
    if chunks != [] {
      var init := chunks[..|chunks| - 1];
      ChunkRefsSpec(m, init, id);
      forall r
        ensures Holds(chunks, r) <==> Holds(init, r) || chunks[|chunks| - 1].docRef == r
      {
        if Holds(chunks, r) {
          var c :| c in chunks && c.docRef == r;
          if c != chunks[|chunks| - 1] {
            assert c in init;
          }
        }
        if Holds(init, r) {
          var c :| c in init && c.docRef == r;
          assert c in chunks;
        }
      }
    }
  }

  /** `doc_ref_to_docset` maps exactly the references of the chunks of the
      indexes. */
  lemma {:induction false} RefMapKeys(ds: seq<Docset>, ixs: seq<DocsetIndex>)
    requires |ds| == |ixs|
    ensures forall r :: r in RefMap(ds, ixs) <==> exists i :: 0 <= i < |ds| && Holds(ixs[i].chunks, r)
  {
    if ds != [] {
      var n := |ds| - 1;
      var dsi, ixsi := ds[..n], ixs[..n];
      RefMapKeys(dsi, ixsi);
      ChunkRefsSpec(RefMap(dsi, ixsi), ixs[n].chunks, ds[n].docsetId);
      assert forall i :: 0 <= i < n ==> ixsi[i] == ixs[i];
    }
  }

  /** `doc_ref_to_docset` maps a reference to the id of the last docset
      whose index holds it. */
  lemma {:induction false} RefMapLast(ds: seq<Docset>, ixs: seq<DocsetIndex>, r: string)
    requires |ds| == |ixs| && r in RefMap(ds, ixs)
    ensures exists i :: LastHolder(ds, ixs, r, i)
  {
    var n := |ds| - 1;
    var dsi, ixsi := ds[..n], ixs[..n];
    var m := RefMap(dsi, ixsi);
    ChunkRefsSpec(m, ixs[n].chunks, ds[n].docsetId);
    if Holds(ixs[n].chunks, r) {
      assert LastHolder(ds, ixs, r, n);
    } else {
      assert r in m;
      RefMapLast(dsi, ixsi, r);
      var i :| LastHolder(dsi, ixsi, r, i);
      assert ixs[i] == ixsi[i] && ds[i] == dsi[i];
      assert forall j :: i < j < n ==> ixs[j] == ixsi[j];
      assert LastHolder(ds, ixs, r, i);
    }
  }

  /** The docset at `i` is the last whose index holds `r`, and the map
      sends `r` to its id. */
  predicate LastHolder(ds: seq<Docset>, ixs: seq<DocsetIndex>, r: string, i: int)
    requires |ds| == |ixs|
  {
    && 0 <= i < |ds| && Holds(ixs[i].chunks, r) && r in RefMap(ds, ixs) && RefMap(ds, ixs)[r] == ds[i].docsetId
    && forall j :: i < j < |ds| ==> !Holds(ixs[j].chunks, r)
  }

  // ----- references tagged by their docset -------------------------------------

  /** `f"{docset_id}:{digest}"`: the reference of a chunk of docset `id`,
      whose hexadecimal digest holds no colon. */
  predicate TaggedBy(r: string, id: string) {
    |r| > |id| && r[..|id|] == id && r[|id|] == ':' && ':' !in r[|id| + 1..]
  }

  /** Every chunk of the index carries a reference tagged by `id`. */
  predicate ChunksTagged(index: DocsetIndex, id: string) {
    forall c :: c in index.chunks ==> TaggedBy(c.docRef, id)
  }

  /** Every index of the state holds only chunks tagged by its own id. */
  predicate StateTagged(s: IndexState) {
    forall id :: id in s.indexes ==> ChunksTagged(s.indexes[id], id)
  }

  /** What `_build_docset_index` guarantees of the references it makes. */
  ghost predicate BuilderTags(build: Builder) {
    forall d :: build(d).Ok? ==> ChunksTagged(build(d).value, d.docsetId)
  }

  /** A reference names its docset: the text before its last colon. */
  lemma TagNamesDocset(r: string, a: string, b: string)
    requires TaggedBy(r, a) && TaggedBy(r, b)
    ensures a == b
  {
  }

  /** With references tagged by their docset, `_reindex_impl` keeps the
      references of every index tagged by its id, maps every chunk's
      reference to its own docset, and maps nothing else. */
  lemma ReindexMapsOwnDocset(previous: Option<IndexState>, revision: int, registry: seq<Docset>,
                             requested: Option<seq<string>>, build: Builder)
    requires UniqueIds(registry) && BuilderTags(build)
    requires previous.Some? ==> StateTagged(previous.value)
    requires Reindexed(previous, revision, registry, requested, build).Ok?
    ensures var s := Reindexed(previous, revision, registry, requested, build).value;
      && StateTagged(s)
      && (forall id, c :: id in s.indexes && c in s.indexes[id].chunks ==>
            c.docRef in s.docRefToDocset && s.docRefToDocset[c.docRef] == id)
      && (forall r :: r in s.docRefToDocset ==>
            s.docRefToDocset[r] in s.indexes && Holds(s.indexes[s.docRefToDocset[r]].chunks, r))
  {
    var enabled, ixs := ReindexedParts(previous, revision, registry, requested, build);
    EnabledSpec(registry);
    EnabledTagged(previous, requested, enabled, build);
    ByIdValues(enabled, ixs);
    RefMapTagged(enabled, ixs);
    forall r | r in RefMap(enabled, ixs)
      ensures RefMap(enabled, ixs)[r] in ById(enabled, ixs) && Holds(ById(enabled, ixs)[RefMap(enabled, ixs)[r]].chunks, r)
    {
      RefMapLast(enabled, ixs, r);
      var k :| LastHolder(enabled, ixs, r, k);
      ByIdAt(enabled, ixs);
    }
  }

  /** With every index tagged by its docset, the reference map sends every
      chunk's reference to the docset whose index holds it. */
  lemma RefMapTagged(ds: seq<Docset>, ixs: seq<DocsetIndex>)
    requires |ds| == |ixs| && forall i :: 0 <= i < |ds| ==> ChunksTagged(ixs[i], ds[i].docsetId)
    ensures forall i, c :: 0 <= i < |ds| && c in ixs[i].chunks ==>
      c.docRef in RefMap(ds, ixs) && RefMap(ds, ixs)[c.docRef] == ds[i].docsetId
  {
    forall i, c | 0 <= i < |ds| && c in ixs[i].chunks
      ensures c.docRef in RefMap(ds, ixs) && RefMap(ds, ixs)[c.docRef] == ds[i].docsetId
    {
      RefMapKeys(ds, ixs);
      assert Holds(ixs[i].chunks, c.docRef);
      RefMapLast(ds, ixs, c.docRef);
      var k :| LastHolder(ds, ixs, c.docRef, k);
      var c' :| c' in ixs[k].chunks && c'.docRef == c.docRef;
      TagNamesDocset(c.docRef, ds[i].docsetId, ds[k].docsetId);
    }
  }

  /** The indexes of the enabled docsets hold references tagged by their ids. */
  lemma EnabledTagged(previous: Option<IndexState>, requested: Option<seq<string>>, ds: seq<Docset>, build: Builder)
    requires BuilderTags(build) && (previous.Some? ==> StateTagged(previous.value))
    requires IndexesFor(previous, requested, ds, build).Ok?
    ensures forall i :: 0 <= i < |ds| ==> ChunksTagged(IndexesFor(previous, requested, ds, build).value[i], ds[i].docsetId)
  {
    IndexesForAt(previous, requested, ds, build);
  }

  /** What the builder guarantees of the indexes it makes. */
  ghost predicate BuilderWellFormed(build: Builder) {
    forall d :: build(d).Ok? ==> IndexWellFormed(build(d).value)
  }

  /** From well-formed indexes, `_reindex_impl` publishes a well-formed
      state in which `open` finds every chunk's reference, in the index of
      the chunk's own docset. */
  lemma ReindexOpens(previous: Option<IndexState>, revision: int, registry: seq<Docset>,
                     requested: Option<seq<string>>, build: Builder)
    requires UniqueIds(registry) && BuilderTags(build) && BuilderWellFormed(build)
    requires previous.Some? ==> StateTagged(previous.value) && WellFormed(previous.value)
    requires Reindexed(previous, revision, registry, requested, build).Ok?
    ensures var s := Reindexed(previous, revision, registry, requested, build).value;
      && WellFormed(s)
      && forall id, c :: id in s.indexes && c in s.indexes[id].chunks ==>
           var index := s.indexes[id];
           OpenIn(s, c.docRef) == Ok(index.sections[index.docRefToChunk[c.docRef].sectionRef])
  {
    var s := Reindexed(previous, revision, registry, requested, build).value;
    ReindexMapsOwnDocset(previous, revision, registry, requested, build);
    ReindexWellFormedIndexes(previous, revision, registry, requested, build);
  }

  /** Every index a rebuild publishes is well formed when the builder's and
      the previous ones are. */
  lemma ReindexWellFormedIndexes(previous: Option<IndexState>, revision: int, registry: seq<Docset>,
                                 requested: Option<seq<string>>, build: Builder)
    requires BuilderWellFormed(build)
    requires previous.Some? ==> WellFormed(previous.value)
    requires Reindexed(previous, revision, registry, requested, build).Ok?
    ensures var s := Reindexed(previous, revision, registry, requested, build).value;
      forall id :: id in s.indexes ==> IndexWellFormed(s.indexes[id])
  {
    var enabled, ixs := ReindexedParts(previous, revision, registry, requested, build);
    IndexesForAt(previous, requested, enabled, build);
    ByIdValues(enabled, ixs);
  }

  // =========================================================================
  // Properties of ensure_ready

  /** Once ready, `ensure_ready` keeps the state it published. */
  lemma ReadyKeeps(autoIndex: bool, state: Option<IndexState>, revision: int, env: Environment)
    requires Ready(autoIndex, state, revision, env).Ok?
    ensures var s := Ready(autoIndex, state, revision, env).value;
      Ready(autoIndex, Some(s), s.revision, env) == Ok(s)
    ensures state.Some? ==> Ready(autoIndex, state, revision, env) == Ok(state.value)
  {
  }

  /** Without a published state, `ensure_ready` serves an accepted snapshot
      as it is, builds revision `revision + 1` when the snapshot is declined
      and `auto_index` is set, and raises otherwise. */
  lemma ReadyFromNothing(autoIndex: bool, revision: int, env: Environment)
    ensures var r := Ready(autoIndex, None, revision, env);
      && (SnapshotOutcome(autoIndex, env.snapshot, env.signature) == Ok(true) ==>
            r == Ok(env.snapshot.snapshot.value.state))
      && (SnapshotOutcome(autoIndex, env.snapshot, env.signature) == Ok(false) ==>
            if autoIndex then r == Reindexed(None, revision, env.registry, None, env.build) else r == Err(NotBuilt))
      && (r.Ok? && SnapshotOutcome(autoIndex, env.snapshot, env.signature) != Ok(true) ==>
            autoIndex && r.value.revision == revision + 1)
  {
  }
}
