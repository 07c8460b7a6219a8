/** The records of the index (api/engine.py): the docsets of the registry,
    the sections parsed from their files, the chunks cut from the sections,
    a docset's index and the index state the manager publishes. The BM25
    model and the embedding matrix of a docset index are not part of this
    model; retrieval takes their scores as inputs. */
module Index {
  import opened Wrappers

  /** A registry entry. */
  datatype Docset = Docset(
    docsetId: string,
    rootPath: string,
    tags: seq<string>,
    keywords: seq<string>,
    version: Option<string>,
    enabled: bool)

  /** An image of a section, with the docset-relative `path` it resolves to, if any. */
  datatype Asset = Asset(src: string, alt: Option<string>, caption: Option<string>, path: Option<string>)

  datatype DocSection = DocSection(
    sectionRef: string,
    docsetId: string,
    filePath: string,
    anchor: string,
    headingPath: seq<string>,
    text: string,
    codeBlocks: seq<string>,
    assets: seq<Asset>)

  datatype Chunk = Chunk(docRef: string, sectionRef: string, chunkIndex: int, text: string)

  /** The index of one docset: its sections by reference, its chunks in
      order, and its chunks by document reference. */
  datatype DocsetIndex = DocsetIndex(
    docset: Docset,
    sections: map<string, DocSection>,
    chunks: seq<Chunk>,
    docRefToChunk: map<string, Chunk>)

  /** The published index: the enabled docsets in registry order (a dict
      keyed by id), an index per docset id, and the docset of every chunk. */
  datatype IndexState = IndexState(
    revision: int,
    docsets: seq<Docset>,
    indexes: map<string, DocsetIndex>,
    docRefToDocset: map<string, string>)

  /** Why looking something up in the index raises `KeyError`. */
  datatype LookupError =
    | UnknownDocRef
    | UnknownDocset
    | MissingIndex(docsetId: string)
    | MissingSection(sectionRef: string)

  /** No two docsets share an id, as in a dict keyed by id. */
  predicate UniqueIds(docsets: seq<Docset>) {
    forall i, j :: 0 <= i < j < |docsets| ==> docsets[i].docsetId != docsets[j].docsetId
  }

  function Ids(docsets: seq<Docset>): (ids: seq<string>)
    ensures |ids| == |docsets|
    ensures forall i :: 0 <= i < |docsets| ==> ids[i] == docsets[i].docsetId
  {
    seq(|docsets|, i requires 0 <= i < |docsets| => docsets[i].docsetId)
  }

  /** `docsets.get(docset_id)`. */
  function FindDocset(docsets: seq<Docset>, id: string): (r: Option<Docset>)
    ensures r.Some? ==> r.value in docsets && r.value.docsetId == id
    ensures r.None? <==> id !in Ids(docsets)
  {
    if docsets == [] then None
    else if docsets[0].docsetId == id then Some(docsets[0])
    else FindDocset(docsets[1..], id)
  }

  /** What `_build_docset_index` establishes about one index: every chunk
      is filed under its document reference, every filed chunk under its
      own reference, and the section of a filed chunk is present under its
      own reference. */
  predicate IndexWellFormed(index: DocsetIndex) {
    && (forall c :: c in index.chunks ==> c.docRef in index.docRefToChunk)
    && (forall r :: r in index.docRefToChunk ==>
          && index.docRefToChunk[r].docRef == r
          && index.docRefToChunk[r].sectionRef in index.sections
          && index.sections[index.docRefToChunk[r].sectionRef].sectionRef == index.docRefToChunk[r].sectionRef)
  }

  /** What `_reindex_impl` establishes: every mapped document reference
      names a docset with an index, and every index is well formed. */
  predicate WellFormed(s: IndexState) {
    && (forall r :: r in s.docRefToDocset ==> s.docRefToDocset[r] in s.indexes)
    && (forall id :: id in s.indexes ==> IndexWellFormed(s.indexes[id]))
  }

  /** The lookup of `IndexManager.open(doc_ref)` once the index is ready:
      the docset of the reference, then its chunk in that docset's index,
      then the chunk's section; a reference missing from either map raises
      `KeyError`, and so does an index or section missing under its key. */
  function OpenIn(s: IndexState, docRef: string): Result<DocSection, LookupError> {
    if docRef !in s.docRefToDocset then Err(UnknownDocRef)
    else
      var docsetId := s.docRefToDocset[docRef];
      if docsetId !in s.indexes then Err(MissingIndex(docsetId))
      else
        var index := s.indexes[docsetId];
        if docRef !in index.docRefToChunk then Err(UnknownDocRef)
        else
          var chunk := index.docRefToChunk[docRef];
          if chunk.sectionRef !in index.sections then Err(MissingSection(chunk.sectionRef))
          else Ok(index.sections[chunk.sectionRef])
  }

  /** A dict keyed by docset id, filled in registry order: the value of
      each docset is stored under its id. */
  function ById<V>(docsets: seq<Docset>, vals: seq<V>): map<string, V>
    requires |vals| == |docsets|
  {
    if docsets == [] then map[]
    else ById(docsets[..|docsets| - 1], vals[..|vals| - 1])[docsets[|docsets| - 1].docsetId := vals[|vals| - 1]]
  }

  /** Filling one more docset's value. */
  lemma ByIdNext<V>(docsets: seq<Docset>, vals: seq<V>, i: nat)
    requires i < |docsets| == |vals|
    ensures ById(docsets[..i + 1], vals[..i + 1]) == ById(docsets[..i], vals[..i])[docsets[i].docsetId := vals[i]]
  {
    assert docsets[..i + 1][..i] == docsets[..i];
    assert vals[..i + 1][..i] == vals[..i];
  }

  /** The dict holds exactly the ids of the docsets. */
  lemma {:induction false} ByIdKeys<V>(docsets: seq<Docset>, vals: seq<V>)
    requires |vals| == |docsets|
    ensures forall id :: id in ById(docsets, vals) <==> id in Ids(docsets)
  {
    if docsets != [] {
      var n := |docsets| - 1;
      ByIdKeys(docsets[..n], vals[..n]);
      assert Ids(docsets) == Ids(docsets[..n]) + [docsets[n].docsetId];
    }
  }

  /** Every value in the dict is the value of a docset with that id. */
  lemma {:induction false} ByIdValues<V>(docsets: seq<Docset>, vals: seq<V>)
    requires |vals| == |docsets|
    ensures forall id :: id in ById(docsets, vals) ==>
      exists i :: 0 <= i < |docsets| && docsets[i].docsetId == id && ById(docsets, vals)[id] == vals[i]
  {
    if docsets != [] {
      var n := |docsets| - 1;
      var init, vinit := docsets[..n], vals[..n];
      ByIdValues(init, vinit);
      forall id | id in ById(docsets, vals) && id != docsets[n].docsetId
        ensures exists i :: 0 <= i < |docsets| && docsets[i].docsetId == id && ById(docsets, vals)[id] == vals[i]
      {
        assert id in ById(init, vinit);
        var i :| 0 <= i < n && init[i].docsetId == id && ById(init, vinit)[id] == vinit[i];
        assert docsets[i] == init[i] && vals[i] == vinit[i];
      }
      assert docsets[n].docsetId in ById(docsets, vals) ==> ById(docsets, vals)[docsets[n].docsetId] == vals[n];
    }
  }

  /** With distinct ids, each docset's value is found under its id. */
  lemma {:induction false} ByIdAt<V>(docsets: seq<Docset>, vals: seq<V>)
    requires UniqueIds(docsets) && |vals| == |docsets|
    ensures forall i :: 0 <= i < |docsets| ==>
      docsets[i].docsetId in ById(docsets, vals) && ById(docsets, vals)[docsets[i].docsetId] == vals[i]
  {
    if docsets != [] {
      var n := |docsets| - 1;
      var init, vinit := docsets[..n], vals[..n];
      assert UniqueIds(init);
      ByIdAt(init, vinit);
      forall i | 0 <= i < n
        ensures docsets[i].docsetId in ById(docsets, vals) && ById(docsets, vals)[docsets[i].docsetId] == vals[i]
      {
        assert init[i] == docsets[i] && vinit[i] == vals[i];
      }
    }
  }

  // ---------------------------------------------------------------------

  /** A reference the state does not map raises `KeyError`. */
  lemma OpenUnknown(s: IndexState, docRef: string)
    requires docRef !in s.docRefToDocset
    ensures OpenIn(s, docRef) == Err(UnknownDocRef)
  {
  }

  /** In a well-formed state `open` succeeds exactly for the references
      whose docset's index holds a chunk under them, and returns that
      chunk's section. */
  lemma OpenWellFormed(s: IndexState, docRef: string)
    requires WellFormed(s)
    ensures OpenIn(s, docRef).Ok? <==>
      docRef in s.docRefToDocset && docRef in s.indexes[s.docRefToDocset[docRef]].docRefToChunk
    ensures OpenIn(s, docRef).Ok? ==>
      var index := s.indexes[s.docRefToDocset[docRef]];
      && OpenIn(s, docRef).value == index.sections[index.docRefToChunk[docRef].sectionRef]
      && OpenIn(s, docRef).value.sectionRef == index.docRefToChunk[docRef].sectionRef
  {
  }
}
