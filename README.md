# pii-data in Dafny

A model of the in-memory core of `pii-data`, the PIISA library that turns a
*source document* into a stream of addressable chunks for PII tagging and
keeps the PII records that point back at those chunks. Both generations of
the library's code are modelled, each from its own source lines:

- **Chunk streaming** (`Window`, `DocChunker`, `LegacyChunker`, `Document`):
  the chunk generators and the older `SrcDocument.iter_chunks`.
  - Ids: explicit ids are kept, missing ones come from a counter.
  - Context: built from read-only metadata views, with an optional default
    language.
  - The one-element-delay window gives every chunk the payloads of its
    neighbours under `before` and `after`. `Window.WithNeighbours` is its
    reference definition, and the generators are proved to stream exactly
    that.
- **Local documents** (`LocalDoc`): the sequence, tree and table builders
  (`add_chunk`), the level-gap check, the format choice of `dump_file`, and
  the validation and dispatch of `load_file` on already-parsed data. The
  loader uses the corrected type fallback (a header without a type loads as
  a sequence), and the tree builder the corrected level tracking (a level-0
  chunk resets the tracked level); in both cases the code as written is
  modelled beside it (see Findings).
  - The tree builder is proved to keep a pre-order flattening equal to the
    chunks added.
- **Indentation readers** (`RawText`, `RawLoad`): `RawReader.read_file` in
  both generations. Lines become a nested chunk tree by a one-pop/one-push
  stack.
- **Serialisers**:
  - the recursive text dumpers (`TextDump`, on `Lines`, which models
    `splitlines` and `split("\n")`);
  - the JSON chunk serialiser (`JsonDump`);
  - the two YAML representers (`YamlDump`, `DocYamlDump`).
  - `Emit` holds what they share: the context filter and the values handed
    to the serialisation library.
- **Configuration** (`ConfigFiles`): section checks, the merge rules and
  `load_config` / `load_single_config`.
- **PII records**:
  - `PiiEnums`;
  - `PiiEntities`: `asdict`/`fromdict`, equality and the process-stage
    history;
  - `Collection`, `CollectionLoader` and `LegacyCollection`: the
    de-duplicating detector registry, stages, and loading and dumping.
    Default filling uses the corrected rule (a default never replaces what
    the entity's info sets); the rule as written is modelled beside it (see
    Findings);
  - `PiiChunks` with `Peeker`: grouping entities by chunk.
- **Paths** (`Io`): `base_extension`, the mode/encoding decision of
  `openfile`, the scheme check of `openuri` and the dispatch of
  `load_datafile`.

Python values are `Values.Value`: None, bools, ints, strings, lists and
string-keyed dicts. The exceptions the code raises, implicitly or
explicitly, are `Values.Error`, and every operation that can raise returns a
`Result`. Where the source mutates objects, the model is a class with those
fields. Where it is pure recursion, the model is functions. The loops that
build lists one element at a time are methods proved against the function
that specifies them.

Files are taken as already-parsed values or as sequences of lines. Printed
output is returned as a sequence of lines. Random ids and timestamps are
parameters.

## Model

| member | source | states |
|---|---|---|
| Defs.DocTypeTag | src/pii_data/defs.py:10-12 | each local document class has one of the type tags "sequence", "tree" or "table" |
| Defs.DocTypeOfTag | src/pii_data/defs.py:10-12 | a tag that is read back names the class that carries it |
| Defs.DocTypeTagRoundTrip | src/pii_data/defs.py:10-12 | reading a class's type tag back gives that class |
| Values.Get | src/pii_data/types/doc/chunker.py:90 | `d.get(k, default)`: the value under the key, or the default when the key is missing |
| Values.GetAttr | src/pii_data/types/doc/localdoc.py:148 | `.get` on a value works exactly on dicts; anything else is an AttributeError |
| Values.PyStr | src/pii_data/types/doc/chunker.py:23 | `str()` of a string is the string, of an int its decimal form, and of None "None" |
| Values.SetPair | src/pii_data/types/doc/chunker.py:117 | `dict.update` takes one element as a key/value pair exactly when it is a two-element list with a string key or a two-character string, and sets that key. Any other element is a ValueError (wrong length) or a TypeError |
| Values.UpdatePairsSpec | src/pii_data/types/doc/chunker.py:117 | updating with a list succeeds exactly when every element is a pair, and then is the update with the dict the pairs build, a later pair winning |
| Values.UpdatePairsOk | src/pii_data/types/doc/chunker.py:117 | the walk over a list fails exactly when some element is not a pair |
| Values.UpdatePairsValue | src/pii_data/types/doc/chunker.py:117 | a walk over pairs only is the update with the dict they build |
| Values.UpdateFrom | src/pii_data/types/doc/chunker.py:117 | `a.update(x)`: a dict's keys win; an empty string or list changes nothing; a list goes pair by pair; a non-empty string is a ValueError and None, a bool or an int a TypeError |
| Values.UpdateFromAccepts | src/pii_data/types/doc/chunker.py:117 | `update` succeeds exactly on the values it can take, and never loses a key |
| Window.Neighboured | src/pii_data/types/doc/chunker.py:120-135 | a released chunk keeps its id and payload. Its context gains exactly `before` (the previous payload, except for the first chunk) and `after` (the next payload, except for the last). Every other context key is unchanged |
| Window.WithNeighbours | src/pii_data/types/doc/chunker.py:104-135 | the reference stream has one chunk per chunk pushed, in order, the i-th with its neighbours' payloads |
| Window.NextId | src/pii_data/types/doc/chunker.py:64-67 | an explicit id is kept and the counter does not move; a missing id takes counter+1, which becomes the new counter |
| Window.AssignIdsSpec | src/pii_data/types/doc/chunker.py:64-67 | over a run of elements, explicit ids pass through and the k-th id-less element gets counter+k. Id-less elements are numbered consecutively, and explicit ids never advance the counter |
| Window.ElemContext | src/pii_data/types/doc/chunker.py:115-117 | a chunk's context is a copy of the metadata views updated with the element's `context` as `dict.update` takes it: a dict's keys win, a list of pairs sets its pairs in order, an empty string or list changes nothing. It fails exactly when `update` refuses the element context, with that error; the views' keys are always kept |
| Window.ElemContextShapes | src/pii_data/types/doc/chunker.py:115-117 | an empty list changes nothing, a list holding the pair ["a", 1] sets `a` to 1, and the string "ab" is a ValueError |
| Window.Shift | src/pii_data/types/doc/chunker.py:120-135 | the first chunk is stored and nothing is released. Later, the held chunk (the first one, then the current one) is released exactly when its context is a dict: with `after` set to the new payload, and `before` too from the third chunk on, id and payload unchanged; the window then holds the released chunk and the new one. A non-dict context is a TypeError that leaves the window unchanged |
| Window.Final | src/pii_data/types/doc/chunker.py:105-112 | the flush releases nothing for an empty window and the stored chunk for a single one. Otherwise it releases the current chunk with `before` set, exactly when its context is a dict (else a TypeError) |
| Window.Drive | src/pii_data/types/doc/chunker.py:120-135 | from an empty window, n chunks pushed without error release n-1 chunks; the window then holds the last one released (as `before`) and the last pushed (as `current`) |
| Window.Run | src/pii_data/types/doc/chunker.py:114-135 | the same for a run of elements turned into chunks: n elements release n-1 chunks; the window holds the last chunk released, and a current chunk exactly when there were at least two elements |
| Window.RunIsDrive | src/pii_data/types/doc/chunker.py:63-67 | after a run of well-formed elements the id counter equals the number of elements without an id, and the window is what pushing their chunks gives |
| Window.SessionIsWithNeighbours | src/pii_data/types/doc/chunker.py:98-135 | a generator session (every element pushed, then the flush) releases every element's chunk, in order, each with its neighbours' payloads |
| Window.StreamIsWithNeighbours | src/pii_data/types/doc/chunker.py:104-135 | the push steps followed by the flush release exactly the chunks pushed, in order, with `before`/`after` set. This covers the no-chunk, one-chunk, two-chunk and longer cases |
| Window.FirstTwoCalls | src/pii_data/types/doc/chunker.py:120-133 | the first call stores its chunk and returns nothing. The second returns chunk 1 with `after` set to payload 2 and no `before` |
| DocChunker.NewChunk | src/pii_data/types/doc/chunker.py:22-25 | a chunk stores its id as a string whatever is passed (a string unchanged, an int as its decimal form), and its payload and context as given |
| DocChunker.AsDict | src/pii_data/types/doc/chunker.py:34-42 | the dict form always has `id` and `data`, and has `context` exactly when it is requested and non-empty |
| DocChunker.ChooseContext | src/pii_data/types/doc/chunker.py:70 | the passed context wins when non-empty; otherwise the element's own context is used (None if absent) |
| DocChunker.WithLang | src/pii_data/types/doc/chunker.py:71-75 | with a default language: a missing context becomes {lang}, a lang-less dict gains lang, and an existing lang is kept. Other keys are unchanged; without a default language nothing changes. A truthy non-dict context cannot take the assignment |
| DocChunker.Build | src/pii_data/types/doc/chunker.py:59-78 | the counter moves exactly for an id-less element. The chunk's id is the element's id (as a string) or the new counter value, its payload is `elem["data"]` (a missing payload is a KeyError), and its context is the chosen context with the language added |
| DocChunker.RegenerateFromDict | src/pii_data/types/doc/chunker.py:34-78 | the dict form of a chunk with a string id regenerates that chunk, without moving the counter |
| DocChunker.ChunkGenerator.constructor | src/pii_data/types/doc/chunker.py:54-56 | the generator keeps the default language and starts its counter at 0 |
| DocChunker.ChunkGenerator.Call | src/pii_data/types/doc/chunker.py:59-78 | one call updates the counter and returns the chunk as `Build` defines them |
| DocChunker.DefaultLang | src/pii_data/types/doc/chunker.py:90 | the default language is `main_lang` of the "document" section, or None without that section |
| DocChunker.InitAsWritten | src/pii_data/types/doc/chunker.py:88-93 | as written, the constructor fails (AttributeError) exactly when there is no metadata. Otherwise it holds a read-only view of every section, under the same names, and the default language those views give |
| DocChunker.InitAsWrittenRejectsNoMetadata | src/pii_data/types/doc/chunker.py:88-93 | as written, a context generator without metadata fails with AttributeError: `meta.items()` runs before the `meta is None` test |
| DocChunker.Init | src/pii_data/types/doc/chunker.py:88-93 | the corrected constructor agrees with the source for any given metadata, and treats absent metadata as empty |
| DocChunker.ContextBuild | src/pii_data/types/doc/chunker.py:114-118 | a context generator builds each chunk from the metadata views updated with the element context as `dict.update` takes it, then follows the plain generator. A context `update` refuses fails with its error before the counter moves |
| DocChunker.ContextChunkGenerator.constructor | src/pii_data/types/doc/chunker.py:88-95 | corrected: absent metadata is taken as empty. The generator holds the metadata views and the default language, with an empty window and counter 0 |
| DocChunker.ContextChunkGenerator.Call | src/pii_data/types/doc/chunker.py:98-135 | `None` flushes the window (`Final`). An element builds its chunk and shifts it through the window (`Shift`); on an error the window is unchanged |
| DocChunker.ElemChunk | src/pii_data/types/doc/chunker.py:114-118 | a chunk with a payload is the chunk of its id and payload. With non-empty metadata and an accepted element context, its context holds every key of the updated views, plus `lang` when the default language is truthy. A `lang` already set keeps its value, a missing one takes the default, and every other key keeps its value |
| DocChunker.ContextBuilderRegular | src/pii_data/types/doc/chunker.py:59-78 | with non-empty metadata, the context builder numbers id-less elements from the counter and builds each chunk from its element and id, always with a dict context |
| DocChunker.ContextSession | src/pii_data/types/doc/chunker.py:98-135 | with non-empty metadata, a session releases every element's chunk, in order, with its neighbours' payloads. Ids are the element ids as strings, or 1, 2, 3, … for the id-less elements |
| DocChunker.EmptyMetadataTwoElements | src/pii_data/types/doc/chunker.py:115-133 | with empty metadata and no element contexts, the second element fails with TypeError: the first chunk's context is None and cannot take `after` |
| LegacyChunker.Build | src/pii_data/types/chunker.py:28-40 | the counter moves exactly for an id-less element. The chunk is (raw id or counter value, payload, the passed context), with no string conversion and no language; a missing payload is a KeyError |
| LegacyChunker.ChunkGenerator.constructor | src/pii_data/types/chunker.py:24-25 | the counter starts at 0 |
| LegacyChunker.ChunkGenerator.Call | src/pii_data/types/chunker.py:28-40 | one call updates the counter and returns the chunk as `Build` defines them |
| LegacyChunker.ContextBuild | src/pii_data/types/chunker.py:75-79 | each chunk's context is a copy of the metadata views updated with the element's context as `dict.update` takes it; a context `update` refuses fails with its error before the counter moves |
| LegacyChunker.ContextChunkGenerator.constructor | src/pii_data/types/chunker.py:50-56 | absent metadata counts as empty; the generator holds a read-only view of every section and an empty window |
| LegacyChunker.ContextChunkGenerator.Call | src/pii_data/types/chunker.py:59-96 | `None` flushes the window; an element builds its chunk and shifts it through the window |
| LegacyChunker.ElemChunk | src/pii_data/types/chunker.py:75-79 | a well-formed element's chunk carries the given id, the payload and the views overlaid with the element context |
| LegacyChunker.ContextBuilderRegular | src/pii_data/types/chunker.py:28-40 | the context builder numbers id-less elements from the counter and builds each chunk from its element and id, always with a dict context |
| LegacyChunker.ContextSession | src/pii_data/types/chunker.py:59-96 | whatever the metadata (also none), a session releases every element's chunk, in order, with its neighbours' payloads. Auto ids are the raw counter values 1, 2, 3, … |
| Document.MergeSections | src/pii_data/types/document.py:76-82 | `add_metadata` creates missing sections and shallow-updates existing ones. Incoming keys replace, other keys stay, and sections not passed are untouched |
| Document.HeaderDocument | src/pii_data/types/document.py:64-73 | the document section always has an id. An explicit id is kept; otherwise a generated one is added to the given info |
| Document.YieldChunks | src/pii_data/types/document.py:166-176 | flattening a chunk yields only non-empty payloads; a non-dict chunk fails |
| Document.FlattenAll | src/pii_data/types/document.py:179-185 | flattening the top-level chunks yields only non-empty payloads |
| Document.FlattenShaped | src/pii_data/types/document.py:166-176 | a well-shaped tree flattens without error to exactly one payload per node with data |
| Document.FlattenAllShaped | src/pii_data/types/document.py:179-185 | a well-shaped forest flattens to one payload per node with data |
| Document.FlattenAllAppend | src/pii_data/types/document.py:184-185 | flattening a forest flattens its trees one after the other, in document order (depth-first pre-order) |
| Document.SkipsEmptyData | src/pii_data/types/document.py:171-176 | a node with an empty or missing payload contributes nothing itself, but its subchunks are still visited |
| Document.GetChunks | src/pii_data/types/document.py:152-189 | a document that overrides neither `get_chunks` nor `top_chunks` raises the unimplemented error. A tree document flattens its top chunks; other documents give their elements |
| Document.Chunks | src/pii_data/types/document.py:112-126 | without context, there is one chunk per element, whose payload is the dict's `data` or the element itself, with context None |
| Document.ChunkIds | src/pii_data/types/document.py:115-122 | every chunk id is a string: the element's own id, or the next counter value, so id-less elements are numbered consecutively |
| Document.ContextChunkIsNeighboured | src/pii_data/types/document.py:85-95 | `_chunk(before, current, after)` builds exactly the reference chunk with its neighbours' payloads |
| Document.ElemId | src/pii_data/types/document.py:115-118 | only a dict with `data` gives an id: its `id`, or None when absent |
| Document.Payload | src/pii_data/types/document.py:116-118 | a dict with `data` gives that payload; anything else is its own payload |
| Document.ContextChunk | src/pii_data/types/document.py:85-95 | `_chunk` keeps the current id and payload. Its context has the views' keys plus `before` and `after` exactly when those neighbours exist, holding their payloads; every other key keeps its view |
| Document.SrcDocument.constructor | src/pii_data/types/document.py:32-42 | a new document has counter 0, the context setting given, and a metadata dict holding only the document section |
| Document.SrcDocument.SetId | src/pii_data/types/document.py:57-61 | `set_id` changes only `metadata["document"]["id"]` |
| Document.SrcDocument.SetHeaderDocument | src/pii_data/types/document.py:64-73 | the document section is replaced by the given info, with an id added when missing; nothing else changes |
| Document.SrcDocument.AddMetadata | src/pii_data/types/document.py:76-82 | the metadata becomes the section-wise merge; nothing else changes |
| Document.SrcDocument.IterChunks | src/pii_data/types/document.py:98-145 | a full iteration yields one chunk per element. Without context the context is None; with context each chunk carries the metadata views and its neighbours' payloads. The counter is a field, so a second iteration continues the numbering. An abstract document fails |
| Document.SrcDocument.Emit | src/pii_data/types/document.py:112-145 | the loop and the final flush release what the specification functions define, and advance the counter by the number of id-less elements |
| Document.EmitOne | src/pii_data/types/document.py:112-136 | one pass of the loop keeps its state: the counter has passed exactly the id-less elements seen, and the chunks released are the first ones of the specification (no context) or those whose neighbours are known |
| Document.WindowSecond | src/pii_data/types/document.py:132-134 | with two or more elements, the second step releases the first chunk with only `after` |
| Document.WindowLater | src/pii_data/types/document.py:135-138 | each later step releases the held chunk with `before` and `after` |
| Document.WindowFinal | src/pii_data/types/document.py:141-145 | the flush releases nothing for an empty document, the single chunk without neighbours for one element, and otherwise the last chunk with only `before` |
| LocalDoc.InitialMeta | src/pii_data/types/doc/localdoc.py:42-48 | a new local document's metadata is the given metadata with a document id (its own, else the generated one) and the class's type tag written into `document.type`. Without metadata the header is exactly that id and type. Other sections and other document keys are kept |
| LocalDoc.FreshMeta | src/pii_data/types/doc/localdoc.py:42-48 | without metadata, writing the type tag into a header that holds only the generated id gives exactly that id and type |
| LocalDoc.SequenceDoc.constructor | src/pii_data/types/doc/localdoc.py:35-72 | a sequence document starts with the given chunks (none or an empty list: an empty list), and its metadata gets a document id (generated when not given) and is tagged "sequence" |
| LocalDoc.SequenceDoc.AddChunk | src/pii_data/types/doc/localdoc.py:107-111 | `add_chunk` appends the chunk's dict form and changes nothing else |
| LocalDoc.SequenceRecreates | src/pii_data/types/doc/localdoc.py:107-111 | the stored dict of every added chunk regenerates that chunk through a chunk generator, so a recreated sequence iterates to the same chunks |
| LocalDoc.Place | src/pii_data/types/doc/localdoc.py:127-138 | a level-0 chunk goes at the end of the top list. A level-k chunk goes under the node at stack position k-1, leaving every earlier top-level node unchanged |
| LocalDoc.PlaceDepth | src/pii_data/types/doc/localdoc.py:129-134 | after placing a chunk at level k, the stack (the rightmost path) has length k+1 |
| LocalDoc.PlaceFlat | src/pii_data/types/doc/localdoc.py:127-138 | wherever a chunk is placed on the rightmost path, the pre-order listing of the tree gains that chunk at its end |
| LocalDoc.ChunkLevel | src/pii_data/types/doc/localdoc.py:121 | a chunk's level is its context's `level` (0 when absent), or 0 when the context is empty |
| LocalDoc.LevelNumber | src/pii_data/types/doc/localdoc.py:123 | only ints and bools compare with the current level; any other level value is a TypeError |
| LocalDoc.LevelOf | src/pii_data/types/doc/localdoc.py:121-123 | a chunk's level as a number: 0 without context, the int when it is one, and the error of a non-dict context or a non-numeric level |
| LocalDoc.TreeStepWith | src/pii_data/types/doc/localdoc.py:116-138 | a level more than one above the tracked level raises InvArg. A level-0 chunk is appended at the top and the stack reset to it. A level-k chunk joins the node at stack position k-1, and the stack becomes its first k entries plus the chunk; the tracked level is updated only for non-zero levels as written. On success the pre-order listing grows by exactly the added chunk |
| LocalDoc.TreeStepAt | src/pii_data/types/doc/localdoc.py:121-138 | at a known level: more than one above the tracked level is InvArg. Level 0 appends at the top. Any other level names a depth on the stack, counted from its end when negative; a missing stack is an AttributeError and a depth off the stack an IndexError. A success keeps the tree valid and adds exactly the chunk to its pre-order listing |
| LocalDoc.TreeRun | src/pii_data/types/doc/localdoc.py:116-138 | adding chunks one after another keeps the stack in step with the tree |
| LocalDoc.TreeRunFlat | src/pii_data/types/doc/localdoc.py:116-138 | a tree built without error lists, in pre-order, exactly the chunks added, in the order they were added |
| LocalDoc.TreeStepTidy | src/pii_data/types/doc/localdoc.py:120-134 | with the tracked level also reset at level 0, the stack stays one longer than the tracked level, and the gap check then rules out every IndexError |
| LocalDoc.TreeGapPrefix | src/pii_data/types/doc/localdoc.py:127-133 | after levels 0, 1, 0 the stack has one entry, and the tracked level is 1 as written (0 once corrected) |
| LocalDoc.TreeGapAsWritten | src/pii_data/types/doc/localdoc.py:127-133 | as written, levels 0, 1, 0, 2 pass the gap check and end in IndexError |
| LocalDoc.TreeGapCorrected | src/pii_data/types/doc/localdoc.py:120-125 | corrected, levels 0, 1, 0, 2 are reported as a level gap (InvArg) |
| LocalDoc.TreeDoc.constructor | src/pii_data/types/doc/localdoc.py:35-72 | a tree document starts with the given chunks, no stack, tracked level 0, and metadata with a document id (generated when not given) tagged "tree" |
| LocalDoc.TreeDoc.AddChunk | src/pii_data/types/doc/localdoc.py:116-138 | `add_chunk` performs the corrected tree step and keeps the stack valid; on an error nothing changes |
| LocalDoc.AppendData | src/pii_data/types/doc/localdoc.py:156 | appending a payload to a stored row extends its `data` list by that payload; a row without `data` is a KeyError |
| LocalDoc.TableStep | src/pii_data/types/doc/localdoc.py:143-157 | a chunk on the current row extends the last stored row (IndexError when there is none). A chunk on another row starts `{"id": row, "data": [payload]}`. The current row becomes the chunk's row. A non-dict context has no `get` |
| LocalDoc.TableRun | src/pii_data/types/doc/localdoc.py:143-157 | a run of chunks stores at most one new row per chunk and never drops one; the current row is that of the last chunk |
| LocalDoc.Dedup | src/pii_data/types/doc/localdoc.py:150-154 | collapsing runs of equal row values keeps the last value and leaves no two equal neighbours |
| LocalDoc.TableStepSameRow | src/pii_data/types/doc/localdoc.py:150-156 | a chunk on the current row adds its payload to the last row and starts no row |
| LocalDoc.TableStepNewRow | src/pii_data/types/doc/localdoc.py:152-157 | a chunk on a new row starts one row with that id holding its payload |
| LocalDoc.TableRunGood | src/pii_data/types/doc/localdoc.py:143-157 | on well-formed chunks the table builds. Its row ids are the runs of equal consecutive row values, and its data lists hold all payloads in order |
| LocalDoc.TableRunBad | src/pii_data/types/doc/localdoc.py:143-157 | any other input (a non-dict context, or a first chunk without a row) fails |
| LocalDoc.TableRunSpec | src/pii_data/types/doc/localdoc.py:143-157 | a table builds exactly on well-formed input. It then has one row per run of equal row values, in order, and the payloads in order |
| LocalDoc.TableDoc.constructor | src/pii_data/types/doc/localdoc.py:35-72 | a table document starts with the given chunks, no current row, and metadata with a document id (generated when not given) tagged "table" |
| LocalDoc.TableDoc.AddChunk | src/pii_data/types/doc/localdoc.py:143-157 | `add_chunk` performs the table step; on an error nothing changes |
| LocalDoc.NewDocAsWritten | src/pii_data/types/doc/localdoc.py:165-176 | the dispatcher builds a document exactly for "sequence", "tree" and "table", with that class's tag; for any other type it returns nothing |
| LocalDoc.NewDoc | src/pii_data/types/doc/localdoc.py:165-176 | with the exception raised, an unknown type is InvArg and a known one gives its class |
| LocalDoc.NewDocRoundTrip | src/pii_data/types/doc/localdoc.py:169-174 | every class's own tag dispatches to that class |
| LocalDoc.NewDocUnknown | src/pii_data/types/doc/localdoc.py:175-176 | an unknown type yields no document and no error as written, and InvArg once raised |
| LocalDoc.FormatKind | src/pii_data/types/doc/localdoc.py:209-217 | "yaml"/"yml" choose YAML, "json" JSON, and "txt"/"text" text; anything else is InvArg |
| LocalDoc.ExtensionFormat | src/pii_data/types/doc/localdoc.py:200-207 | exactly .yml, .yaml, .txt, .text and .json name a format, and each names one the writer accepts |
| LocalDoc.DumpFormat | src/pii_data/types/doc/localdoc.py:197-217 | an explicit format, lower-cased, wins. Otherwise the base extension decides (.yml/.yaml YAML, .txt/.text text, .json JSON), and anything else is InvArg |
| LocalDoc.DumpFormatYamlName | src/pii_data/types/doc/localdoc.py:197-201 | a ".yml" name is dumped as YAML, with or without a compression suffix |
| LocalDoc.DumpFormatExplicit | src/pii_data/types/doc/localdoc.py:198-199 | an explicit format is case-insensitive and overrides the name |
| LocalDoc.HeaderType | src/pii_data/types/doc/localdoc.py:239-240 | the declared type is `header.document.type`, or None when absent |
| LocalDoc.DocTypeOfHeaderAsWritten | src/pii_data/types/doc/localdoc.py:251-258 | as written, only the three type tags choose a class; anything else, a missing type included, is InvalidDocument |
| LocalDoc.DocTypeOfHeader | src/pii_data/types/doc/localdoc.py:251-258 | corrected, a missing type means a sequence, and every other type is dispatched as written |
| LocalDoc.HeaderWithoutType | src/pii_data/types/doc/localdoc.py:255 | a header without a type is refused as written and loads as a sequence once corrected |
| LocalDoc.MergeHeader | src/pii_data/types/doc/localdoc.py:243-248 | extra metadata adds new sections and shallow-updates existing ones, whose keys it replaces; a non-dict existing section cannot be updated |
| LocalDoc.MergeMetadata | src/pii_data/types/doc/localdoc.py:243-248 | the loop over the extra metadata computes `MergeHeader`, and fails with AttributeError on a non-dict section it would update |
| LocalDoc.LoadSpec | src/pii_data/types/doc/localdoc.py:231-262 | corrected: loading fails with InvalidDocument without a `format`, and succeeds only for the source-document format; a header without a type loads as a sequence |
| LocalDoc.LoadKindFromFile | src/pii_data/types/doc/localdoc.py:239-258 | the class is chosen from the file's own header (read before the merge), so extra metadata never changes it |
| LocalDoc.LoadDeclared | src/pii_data/types/doc/localdoc.py:231-262 | a file whose header declares a type loads as that type, with the file's chunks and its header |
| LocalDoc.LoadFile | src/pii_data/types/doc/localdoc.py:220-262 | corrected: `load_file` on parsed data returns what `LoadSpec` defines |
| RawText.Leading | src/pii_data/doc/rawtext.py:43 | the leading whitespace never exceeds the line |
| RawText.Strip | src/pii_data/doc/rawtext.py:43 | `strip` never lengthens a line |
| RawText.StripEnds | src/pii_data/doc/rawtext.py:43 | `strip` cuts only whitespace from both ends, and what it leaves starts and ends with a non-space |
| RawText.FloorDivBounds | src/pii_data/doc/rawtext.py:44 | `//` rounds toward minus infinity: the quotient's multiple lies within one divisor of the dividend, on the low side |
| RawText.Level | src/pii_data/doc/rawtext.py:44 | without an indent every line is at level 0 |
| RawText.LevelBounds | src/pii_data/doc/rawtext.py:44 | with an indent, a line's level counts the whole indents in the whitespace `strip` removed |
| RawText.PayloadKey | src/pii_data/doc/rawtext.py:48 | the payload key clashes with neither `id` nor `chunks` |
| RawText.LineChunk | src/pii_data/doc/rawtext.py:47-48 | a line's chunk is a leaf holding exactly its number as `id` and the stripped line as payload |
| RawText.ReadStep | src/pii_data/doc/rawtext.py:50-61 | a step fails with IndexError exactly on a drop with only the document on the stack, or a rise with no chunk yet. Otherwise it counts the chunk, sets `currlev` and raises `maxlev`, and pops or pushes one entry whatever the size of the change |
| RawText.ReadStepValid | src/pii_data/doc/rawtext.py:51-59 | a step keeps the stack on the forest's rightmost path |
| RawText.ReadStepFlat | src/pii_data/doc/rawtext.py:51-59 | a step adds the chunk at the end of the forest's pre-order listing |
| RawText.ReadFrom | src/pii_data/doc/rawtext.py:41-61 | reading lines keeps the stack valid, and any failure is IndexError |
| RawText.ReadFromCons | src/pii_data/doc/rawtext.py:41-61 | a run stops at its first line's error, or goes on from the state that line leaves |
| RawText.Levels | src/pii_data/doc/rawtext.py:44 | one level per line, all 0 without indent |
| RawText.LevelsAt | src/pii_data/doc/rawtext.py:44 | the k-th level is the k-th line's level |
| RawText.LineChunksAt | src/pii_data/doc/rawtext.py:47-48 | the chunk of line k carries id k + 1 (ids count from 1) |
| RawText.ReadRun | src/pii_data/doc/rawtext.py:29-61 | a read of the whole file leaves a valid stack or fails with IndexError |
| RawText.MaxOfIsMax | src/pii_data/doc/rawtext.py:61 | the running maximum bounds every level, and a positive maximum is some line's level |
| RawText.ReadFromLines | src/pii_data/doc/rawtext.py:41-61 | a read without error adds one chunk per line. The forest lists the new chunks after the old, in order, and `maxlev` becomes the largest level met |
| RawText.ReadRunLines | src/pii_data/doc/rawtext.py:29-61 | a file read without error has ids 1..n; its forest lists its lines in order and `maxlev` is their largest level |
| RawText.FlatFrom | src/pii_data/doc/rawtext.py:51-59 | lines all at level 0 never fail and are appended flat |
| RawText.FlatFile | src/pii_data/doc/rawtext.py:44 | without indent a file reads as the flat list of its lines |
| RawText.FirstLineIndented | src/pii_data/doc/rawtext.py:53-54 | a first line above level 0 is an IndexError |
| RawText.IndentOneNewline | src/pii_data/doc/rawtext.py:43-44 | the newline that ends a line counts as indentation, so with indent 1 a file whose first line ends in a newline fails |
| RawText.ReadDoc | src/pii_data/doc/rawtext.py:25-64 | the document is read exactly when the line run succeeds, and fails with IndexError otherwise |
| RawText.ReadDocShape | src/pii_data/doc/rawtext.py:33-64 | the document lists its lines in order. Its header holds the id and the type, which is "tree" exactly when some line is above level 0. Empty input gives an empty sequential document |
| RawText.TypeTag | src/pii_data/doc/rawtext.py:63 | the tag is "tree" exactly when some line is above level 0; "sequential" is not a tag the local documents know |
| RawText.RawDoc | src/pii_data/doc/rawtext.py:62-64 | the document holds only `header` and `chunks`; its chunks are the chunks read, and its header declares the type tag, which `load_file` accepts as a tree and refuses (InvalidDocument) as "sequential" |
| RawText.RawReader.constructor | src/pii_data/doc/rawtext.py:21-22 | the reader keeps its indent |
| RawText.RawReader.ReadFile | src/pii_data/doc/rawtext.py:25-64 | `read_file` returns the document `ReadDoc` defines |
| RawText.ReadLineStep | src/pii_data/doc/rawtext.py:41-61 | line i read from the state the earlier lines left either stops the run or hands over to the next line |
| RawText.Advance | src/pii_data/doc/rawtext.py:50-61 | the loop body performs exactly one `ReadStep` |
| RawText.ReadLines | src/pii_data/doc/rawtext.py:29-61 | the loop over the lines computes `ReadRun` |
| RawLoad.SameOutcome | src/pii_data/doc/load.py:30-49 | whether a read fails depends only on the levels, never on what the chunks hold |
| RawLoad.LoadDoc | src/pii_data/doc/load.py:21-51 | the older reader's only failure is IndexError |
| RawLoad.LoadAgrees | src/pii_data/doc/load.py:21-51 | the older reader fails on exactly the files the newer one fails on |
| RawLoad.LoadDocShape | src/pii_data/doc/load.py:25-51 | the loaded document holds only `chunks`, which lists the lines in order, each stripped under `text`; empty input gives an empty list |
| RawLoad.LoadFlat | src/pii_data/doc/load.py:33 | without indent every line is a top-level chunk |
| RawLoad.RawReader.constructor | src/pii_data/doc/load.py:17-18 | the reader keeps its indent |
| RawLoad.RawReader.ReadFile | src/pii_data/doc/load.py:21-51 | `read_file` returns the document `LoadDoc` defines |
| Lines.FirstBreak | src/pii_data/dump/text.py:15 | the first line boundary: none before it, and one at it unless at the end |
| Lines.FirstBreakIs | src/pii_data/dump/text.py:15 | any index with those two properties is the first boundary |
| Lines.BreakEnd | src/pii_data/dump/text.py:15 | a boundary takes at least one character ("\r\n" takes two) |
| Lines.SplitLinesClean | src/pii_data/dump/text.py:15 | no line `splitlines` gives holds a line boundary |
| Lines.SplitLinesJoined | src/pii_data/dump/text.py:15-16 | when newlines are the only boundaries, printing the lines gives back the text, with a newline added after an unterminated last line |
| Lines.SplitLinesFinalNewline | src/pii_data/dump/text.py:15 | a final newline adds no empty line |
| Lines.FirstNewline | src/pii_data/doc/textdump.py:15 | the first newline: none before it, and one at it unless at the end |
| Lines.FirstNewlineIs | src/pii_data/doc/textdump.py:15 | any index with those two properties is the first newline |
| Lines.Split | src/pii_data/doc/textdump.py:15 | `split("\n")` always gives at least one piece |
| Lines.SplitJoin | src/pii_data/doc/textdump.py:15 | joining the pieces with newlines gives the text back, and no piece holds a newline |
| Lines.SplitFinalNewline | src/pii_data/doc/textdump.py:15 | a final newline adds a final empty piece |
| Lines.SplitAgrees | src/pii_data/doc/textdump.py:15 | on text whose only boundaries are newlines and which does not end in one, the two splits agree |
| TextDump.DataLines | src/pii_data/dump/text.py:15 | the current printer reads a missing payload as empty and fails with AttributeError on a non-string one or a non-dict chunk. The legacy one needs a `data` field (KeyError), a dict (TypeError) and a string (AttributeError) |
| TextDump.RenderChunk | src/pii_data/dump/text.py:11-18 | a chunk whose payload cannot be read fails with that error. A chunk printed without error starts with its own payload lines, printed at its level |
| TextDump.RenderAllOk | src/pii_data/dump/text.py:29-30 | a list of chunks prints without error exactly when each chunk does, and starts with the first chunk's lines |
| TextDump.DumpText | src/pii_data/dump/text.py:21-30 | `dump_text` succeeds exactly when every top-level chunk prints, with a missing indent taken as 0 |
| TextDump.DocDumpText | src/pii_data/doc/textdump.py:21-28 | the older `dump_text` succeeds exactly when every top-level chunk prints with the indent as given; with an indent of None any document with a chunk fails |
| TextDump.PayloadLines | src/pii_data/doc/textdump.py:15 | the current printer's lines hold no boundary; the legacy printer's lines joined with newlines are the payload |
| TextDump.Pad | src/pii_data/dump/text.py:16 | the prefix is made of spaces only |
| TextDump.Print | src/pii_data/dump/text.py:15-16 | one printed line per payload line, each after the level's padding. An indent of None fails with TypeError exactly when there is a line to print |
| TextDump.NonListKids | src/pii_data/dump/text.py:17 | a non-list `chunks` iterates without error exactly when it is an empty string or dict |
| TextDump.PrintShifted | src/pii_data/dump/text.py:16 | indented lines are the unindented ones after some spaces |
| TextDump.ChunkIndentOnly | src/pii_data/dump/text.py:11-18 | the indent changes only leading spaces: the same outcome, the same errors, and the same lines after spaces |
| TextDump.ForestIndentOnly | src/pii_data/dump/text.py:29-30 | the same for a list of chunks |
| TextDump.PadGrows | src/pii_data/dump/text.py:16-18 | a deeper level's padding extends the shallower one's |
| TextDump.ChunkIndented | src/pii_data/dump/text.py:11-18 | every line printed for a chunk starts with its level's padding, subchunks included |
| TextDump.ForestIndented | src/pii_data/dump/text.py:29-30 | every line printed for a list of chunks starts with their level's padding |
| TextDump.AllLinesSnoc | src/pii_data/dump/text.py:15 | the payload lines of a list grow by the lines of a chunk added at its end |
| TextDump.AllLinesAppend | src/pii_data/dump/text.py:15 | the payload lines of two lists are those of the first, then those of the second |
| TextDump.ChunkPreOrder | src/pii_data/dump/text.py:11-18 | without indentation a chunk prints the payload lines of its subtree in pre-order |
| TextDump.ForestPreOrder | src/pii_data/dump/text.py:29-30 | without indentation the chunks print the payload lines of the forest in pre-order |
| TextDump.LegacyWithoutIndent | src/pii_data/doc/dump.py:47-64 | with an indent of None the legacy printer fails at the first chunk, since a payload is at least one line |
| TextDump.DumpTextLines | src/pii_data/dump/text.py:21-30 | `dump_text` succeeds independently of the indent. Without one it prints the payload lines in pre-order; with one it prints the same lines after leading spaces, and every line of a top-level chunk's subchunks starts with one indent |
| TextDump.DumpRaw | src/pii_data/doc/dump.py:57-64 | `dump_raw` needs a dict (AttributeError) and prints nothing when it has no chunks |
| TextDump.SplitSingle | src/pii_data/doc/dump.py:51 | a payload without newlines is printed as one line |
| TextDump.RenderLeaves | src/pii_data/doc/dump.py:47-54 | leaf chunks with one-line payloads print one padded line each, in order |
| TextDump.StripOneLine | src/pii_data/doc/rawtext.py:43 | a line holding a newline at most at its end strips to a line without one |
| TextDump.DumpRawOfFlatRead | src/pii_data/doc/dump.py:57-64 | `dump_raw` of what the raw-text reader read from a file without indentation prints back the file's stripped lines |
| TextDump.DumpRawWithoutIndent | src/pii_data/doc/dump.py:57-64 | with an indent of None, `dump_raw` fails on any document with a chunk |
| Emit.KeysOf | src/pii_data/dump/yaml.py:96-98 | the keys of a mapping's entries, in insertion order |
| Emit.FieldsOfSnoc | src/pii_data/dump/json.py:23-36 | adding an entry to a mapping adds (or replaces) that key in the dict it parses back to |
| Emit.FieldsOfKeys | src/pii_data/dump/yaml.py:53-72 | the dict a mapping parses back to has exactly the entry keys |
| Emit.FieldsOfLast | src/pii_data/dump/yaml.py:53-72 | a key takes the value of its last entry |
| Emit.MakeFilter | src/pii_data/dump/json.py:53-61 | a list of context fields, even an empty one, means "keep exactly these". No list means "drop the structure fields" |
| Emit.Filtered | src/pii_data/dump/json.py:27-30 | a context field survives exactly when its being listed agrees with the mode, with its value unchanged, and nothing is added |
| Emit.FilterSplits | src/pii_data/dump/yaml.py:67-70 | keeping a set of fields and dropping the same set split the context between them |
| Emit.FilterModes | src/pii_data/dump/yaml.py:41-42 | no list never lets a structure field through; an empty list lets nothing through |
| Emit.ContextEntry | src/pii_data/dump/json.py:25-32 | an absent or falsy context writes nothing. A dict writes its filtered fields, or nothing when none are left. A truthy non-dict context is iterated as Python would (`NonDictContext`): it never writes anything, and fails with TypeError, or with IndexError for an out-of-range list element |
| Emit.NonDictContext | src/pii_data/dump/json.py:27-30 | with a list of fields, a non-dict context fails with TypeError exactly when `f in ctx` finds a listed field, else writes nothing. Without one, a scalar fails, a string passes only when each character is a structure field, and a list goes element by element |
| Emit.DropFromList | src/pii_data/dump/json.py:30 | over a list context, the comprehension writes nothing exactly when every element is a listed string; in the model the first other element fails, with TypeError or IndexError. An in-range int element fails in the model only, where Python would index the list |
| Emit.NonDictContextExamples | src/pii_data/dump/json.py:25-32 | an int context with an empty list writes nothing; a list context without the field writes nothing; a string holding the field is a TypeError; an out-of-range list element is an IndexError |
| JsonDump.NonListChunks | src/pii_data/dump/json.py:35-36 | iterating a non-list `chunks` succeeds, with nothing, exactly for an empty string or dict; otherwise TypeError |
| JsonDump.SerializeChunk | src/pii_data/dump/json.py:18-37 | a non-dict chunk is a TypeError, a chunk without `id` or `data` a KeyError, and a refused context fails with its error. A result is a mapping that starts with the chunk's id and payload, unchanged |
| JsonDump.ChunkShape | src/pii_data/dump/json.py:23-36 | a serialised chunk is id, payload, context when any is left, then `chunks` exactly when the chunk has subchunks |
| JsonDump.SerializeList | src/pii_data/dump/json.py:35-36 | the list comprehension gives one result per chunk |
| JsonDump.SerializeListAt | src/pii_data/dump/json.py:35-36 | the list succeeds exactly when every chunk does, and its k-th element is the k-th chunk serialised |
| JsonDump.SerializeListOk | src/pii_data/dump/json.py:35-36 | a list of chunks that each serialise serialises |
| JsonDump.SerializeListOne | src/pii_data/dump/json.py:35-36 | the k-th element of a serialised list is the k-th chunk serialised |
| JsonDump.SerializeListError | src/pii_data/dump/json.py:35-36 | a failing list fails with the error of one of its chunks |
| JsonDump.DumpJson | src/pii_data/dump/json.py:77-91 | the document is written as `format` (the source-document tag), `header` (the metadata) and `chunks`, in that order. The k-th element of `chunks` is the k-th chunk serialised with the filter the context fields ask for; the dump fails exactly when a chunk does, with that chunk's error |
| JsonDump.HeadRoundTrip | src/pii_data/dump/json.py:23-32 | parsed back, the head of a canonical chunk gives all its fields but the subchunks |
| JsonDump.ChunkRoundTrip | src/pii_data/dump/json.py:18-37 | parsed back, the JSON written for a canonical chunk (id, payload, structure-free non-empty context, canonical subchunks) is the chunk |
| JsonDump.ListRoundTrip | src/pii_data/dump/json.py:35-36 | parsed back, a list of canonical chunks is the list |
| JsonDump.RestoreKey | src/pii_data/dump/json.py:23-32 | a dict is the dict without a key with that key put back |
| YamlDump.NotAChunk | src/pii_data/dump/yaml.py:53-54 | a non-dict chunk fails with TypeError or AttributeError |
| YamlDump.Element | src/pii_data/dump/yaml.py:50-74 | an element is built exactly for a dict chunk whose context entry succeeds. It holds the id if present, the payload if truthy (a string as a block literal), the subchunks wrapped, and the filtered context, in that order; a non-dict chunk fails as `NotAChunk` says |
| YamlDump.Elements | src/pii_data/dump/yaml.py:49-74 | one element per chunk |
| YamlDump.NonListElements | src/pii_data/dump/yaml.py:50 | iterating a non-list succeeds, with an empty list, exactly for an empty string or dict |
| YamlDump.Represent | src/pii_data/dump/yaml.py:45-76 | the representer writes a list |
| YamlDump.ElementsStop | src/pii_data/dump/yaml.py:50-74 | once a prefix of the chunks fails, the whole call fails the same way |
| YamlDump.ChunkWrapperRepresenter.constructor | src/pii_data/dump/yaml.py:35-42 | the representer's filter is the one its list of context fields asks for |
| YamlDump.ChunkWrapperRepresenter.Call | src/pii_data/dump/yaml.py:45-76 | `__call__` builds the element list `Represent` defines |
| YamlDump.DumpShape | src/pii_data/dump/yaml.py:96-98 | the document is written as format, header and wrapped chunks, in that order. Each chunk gives one element, in order, which starts with the chunk's id exactly when it has one |
| YamlDump.ElementsAt | src/pii_data/dump/yaml.py:50-74 | the list succeeds exactly when every chunk does, and its k-th element is the k-th chunk's |
| YamlDump.NoContextFields | src/pii_data/dump/yaml.py:65-72 | with an empty list of context fields a chunk is written as if it had no context, whatever its context holds |
| YamlDump.NoStructureFields | src/pii_data/dump/yaml.py:69-72 | with no list of context fields no structure field is ever written |
| YamlDump.RestrictStep | src/pii_data/dump/yaml.py:53-62 | each entry the element gains adds its field of the chunk, or nothing when the chunk lacks it |
| YamlDump.RestrictAllBut | src/pii_data/dump/yaml.py:53-72 | restricting to every key but one drops just that one |
| YamlDump.IdFields | src/pii_data/dump/yaml.py:53 | the id entry parses back to the chunk's `id` field, if any |
| YamlDump.DataFields | src/pii_data/dump/yaml.py:53-58 | with a truthy payload, id and data parse back to those two fields |
| YamlDump.HeadFields | src/pii_data/dump/yaml.py:53-62 | id, payload and subchunk entries parse back to every field but the context |
| YamlDump.ElementRoundTrip | src/pii_data/dump/yaml.py:50-74 | parsed back, with its wrapped subchunks written out in turn, the element of a chunk in the form the representer writes is the chunk. That form holds at every depth: only id, a truthy payload, subchunks and a non-empty structure-free context |
| YamlDump.SameAsJson | src/pii_data/dump/yaml.py:50-74 | for a chunk in that form that the JSON dump reproduces, the YAML element with its subchunks written out and the JSON output parse back to the same dict |
| YamlDump.EntryFields | src/pii_data/dump/yaml.py:53-62 | each of the id, payload and subchunk entries is present exactly when the field is (a truthy one for the payload), named after it, and parses back to it; a string payload is a block literal and the subchunks stay wrapped |
| YamlDump.ElementFields | src/pii_data/dump/yaml.py:50-74 | the element of a chunk in that form, parsed back, is the chunk, and its entries give exactly its fields |
| YamlDump.Written | src/pii_data/dump/yaml.py:45-76 | writing out a wrapped list fails as the representer does and otherwise gives a list with one element per chunk |
| YamlDump.Expanded | src/pii_data/dump/yaml.py:50-74 | an element written out fails as the element does and otherwise is a dict |
| YamlDump.ExpandedAllAt | src/pii_data/dump/yaml.py:50-74 | a list is written out exactly when each element is, each in its place |
| YamlDump.ExpandedAllOk | src/pii_data/dump/yaml.py:50-74 | a list whose elements are each written out is written out |
| YamlDump.ExpandedAllOne | src/pii_data/dump/yaml.py:50-74 | the k-th written element is the k-th chunk's |
| YamlDump.ExpandedAllSnoc | src/pii_data/dump/yaml.py:50-74 | a list is written out exactly when all but its last element are and its last is |
| YamlDump.ElementsSnoc | src/pii_data/dump/yaml.py:50-74 | one chunk more either fails the list with its error or adds its element at the end |
| YamlDump.ListRoundTrip | src/pii_data/dump/yaml.py:45-76 | a list of chunks in that form, written out, is the list |
| YamlDump.SubchunkEmptyPayload | src/pii_data/dump/yaml.py:57-58 | a subchunk with an empty payload loses its `data` in YAML, while the JSON dump keeps it |
| YamlDump.DumpData | src/pii_data/dump/yaml.py:95-98 | the document is a three-entry mapping that parses back to `format` (the source-document tag), `header` and the chunks |
| DocYamlDump.Element | src/pii_data/doc/yaml/dump.py:66-75 | an element is built exactly for a dict chunk. It holds the id if present, the payload if truthy and the subchunks wrapped, never a context, and fails like the newer dumper otherwise |
| DocYamlDump.NoContext | src/pii_data/doc/yaml/dump.py:66-75 | no element carries a context |
| DocYamlDump.Elements | src/pii_data/doc/yaml/dump.py:65-75 | one element per chunk |
| DocYamlDump.Represent | src/pii_data/doc/yaml/dump.py:61-77 | the representer writes a list |
| DocYamlDump.ElementsStop | src/pii_data/doc/yaml/dump.py:66-75 | once a prefix of the chunks fails, the whole call fails the same way |
| DocYamlDump.ChunkIterRepresenter | src/pii_data/doc/yaml/dump.py:61-77 | `chunkiter_representer` builds the element list `Represent` defines |
| DocYamlDump.ElementAsNewer | src/pii_data/doc/yaml/dump.py:66-75 | for every value, the older element (or error) is the one the newer dumper writes with an empty list of context fields |
| DocYamlDump.ElementsAsNewer | src/pii_data/doc/yaml/dump.py:65-75 | for every list, the older element list (or error) is the newer one's with an empty list of context fields |
| DocYamlDump.RepresentAsNewer | src/pii_data/doc/yaml/dump.py:61-77 | for every value, the older representer writes what the newer one writes with an empty list of context fields |
| ConfigFiles.Family | src/pii_data/helper/config.py:40-42 | `rsplit(':', 1)[0]` is the prefix of the tag that ends just before its last colon |
| ConfigFiles.FamilyOf | src/pii_data/helper/config.py:40-42 | the family of `family:version` is `family` when the version has no colon |
| ConfigFiles.PrefixHasColon | src/pii_data/helper/config.py:35-40 | a tag with the configuration prefix always has a colon, so `rsplit` never fails |
| ConfigFiles.ConfigSection | src/pii_data/helper/config.py:24-53 | a missing or empty format is a configuration error and a result carries the prefix. A section is returned only when no restriction is given or it is among the formats, tagged by what follows the prefix and named after the file when unnamed. A skipped section is one outside a non-empty restriction |
| ConfigFiles.PrefixedStartsWith | src/pii_data/helper/config.py:35 | a prefixed tag starts with the prefix |
| ConfigFiles.ConfigSectionVersionClash | src/pii_data/helper/config.py:38-44 | asking for another version of the same format is an error, not a skipped section |
| ConfigFiles.ConfigSectionOtherFamily | src/pii_data/helper/config.py:38-45 | a section of a format family not asked for is skipped |
| ConfigFiles.Collect | src/pii_data/helper/config.py:81 | the collected tags are exactly those of the accepted sections, and the last section wins |
| ConfigFiles.SectionsOf | src/pii_data/helper/config.py:75-76 | a full configuration gives each of its entries checked as a section, in order |
| ConfigFiles.ReadConfigFile | src/pii_data/helper/config.py:57-81 | a file without a format is an error. A module configuration gives at most one section, the one `config_section` returns |
| ConfigFiles.MergeValue | src/pii_data/helper/config.py:102-116 | a new key is copied, a dict updates a dict, a list extends a list, a repeated name becomes a list of names, any other value replaces. Any other combination is a configuration error |
| ConfigFiles.MergeSectionSpec | src/pii_data/helper/config.py:101-116 | a merged section has the keys of both sides: unmerged keys unchanged, merged keys as `MergeValue` says; a failure is a configuration error |
| ConfigFiles.MergeSourceSpec | src/pii_data/helper/config.py:100-116 | merging one input keeps every untouched section and merges each of its sections into its destination. A non-dict section is an unconverted AttributeError |
| ConfigFiles.MergeAll | src/pii_data/helper/config.py:96-117 | a merge that succeeds had only dict sections and holds every section of every input; a non-dict section in the last input after a good prefix is an AttributeError |
| ConfigFiles.MergeSection | src/pii_data/helper/config.py:101-116 | the key-by-key loop computes `MergeSectionSpec` |
| ConfigFiles.SourceMerged | src/pii_data/helper/config.py:100-116 | a map that agrees with every merged section is the merged input |
| ConfigFiles.SourceFails | src/pii_data/helper/config.py:100-116 | one failing section makes the whole input fail |
| ConfigFiles.MergeSource | src/pii_data/helper/config.py:100-116 | the section loop fails exactly when `MergeSourceSpec` does and agrees with it on success; the error is a configuration error whenever every section is a dict |
| ConfigFiles.MergeAllPrefixErr | src/pii_data/helper/config.py:97-116 | a failure on a prefix of the inputs fails the whole merge |
| ConfigFiles.MergeConfig | src/pii_data/helper/config.py:84-117 | `merge_config` merges the inputs in order, failing exactly when that merge fails |
| ConfigFiles.MergeAllLast | src/pii_data/helper/config.py:97 | a merge is the merge of all but the last input, with the last merged in |
| ConfigFiles.MergeAllSections | src/pii_data/helper/config.py:96-117 | the merged configuration has exactly the sections of its inputs |
| ConfigFiles.LastValueWins | src/pii_data/helper/config.py:112-113 | a key whose last value is a scalar (not the name) takes that value |
| ConfigFiles.ListIntoDictFails | src/pii_data/helper/config.py:108-116 | a list merged into a dict is a configuration error |
| ConfigFiles.StrList | src/pii_data/helper/config.py:111 | the names as strings, in order |
| ConfigFiles.MergeAllAt | src/pii_data/helper/config.py:102-113 | the merged value of a key the last input sets is that value merged into the earlier result |
| ConfigFiles.NameStep | src/pii_data/helper/config.py:110-111 | one name more: a single name becomes a two-name list, a list grows by the name |
| ConfigFiles.NamesStep | src/pii_data/helper/config.py:110-111 | one input more adds its name |
| ConfigFiles.NamesAccumulate | src/pii_data/helper/config.py:110-111 | when every input names a section, the merged name lists all the names in input order |
| ConfigFiles.ListsConcatenate | src/pii_data/helper/config.py:108-109 | when every input holds a list under a key, the merged list is their concatenation in input order |
| ConfigFiles.WithPrefix | src/pii_data/helper/config.py:139-140 | a format name gains the configuration prefix only when it lacks it |
| ConfigFiles.NormFormats | src/pii_data/helper/config.py:136-140 | every given format is in the restriction, prefixed; the restriction is empty exactly when none is given |
| ConfigFiles.AsSources | src/pii_data/helper/config.py:153-154 | a file's configuration is merged like a loaded one with the same sections |
| ConfigFiles.ConfigData | src/pii_data/helper/config.py:143-158 | every failure is a configuration error; a success holds one configuration per source |
| ConfigFiles.ConfigDataAt | src/pii_data/helper/config.py:143-158 | loaded configurations are taken as they are and files through `read_config_file`, each in its place |
| ConfigFiles.LoadConfig | src/pii_data/helper/config.py:120-161 | `load_config` fails with a configuration error when reading does. Otherwise it returns the inputs merged in order, failing exactly when that merge does |
| ConfigFiles.ConfigDataPrefixErr | src/pii_data/helper/config.py:144-158 | a failure on a prefix of the sources fails the whole read |
| ConfigFiles.LoadSingleConfig | src/pii_data/helper/config.py:164-184 | `load_single_config` reads the base and then the extra sources, restricted to one format. It returns that format's merged section, or an empty one |
| Io.Split | src/pii_data/helper/io.py:39-40 | splitting at a character gives at least one piece and no piece holds the character |
| Io.SplitJoin | src/pii_data/helper/io.py:39-40 | joining the pieces back with the separator gives the original string |
| Io.SplitAppend | src/pii_data/helper/io.py:39-40 | a separator and a separator-free tail add that tail as the last piece |
| Io.RFind | src/pii_data/helper/io.py:39-40 | the last index holding the character, or -1 when none does |
| Io.RFindLast | src/pii_data/helper/io.py:39-40 | any last occurrence is the one `rfind` finds |
| Io.LStrip | src/pii_data/helper/io.py:39-40 | `lstrip` removes exactly a leading run of the character |
| Io.LastComponent | src/pii_data/helper/io.py:36 | the name is one of the path's components (or empty), never "." |
| Io.PathName | src/pii_data/helper/io.py:36-39 | a path's name holds no slash and is never "." |
| Io.Suffix | src/pii_data/helper/io.py:39 | a suffix is empty, or a dot followed by at least one dot-free character that ends the name |
| Io.Stem | src/pii_data/helper/io.py:40 | the stem followed by the suffix is the name |
| Io.Suffixes | src/pii_data/helper/io.py:150 | every suffix is a dot followed by dot-free characters |
| Io.Dotted | src/pii_data/helper/io.py:150 | each piece after the first, with its dot put back |
| Io.DottedAppend | src/pii_data/helper/io.py:150 | a piece more adds one dotted suffix |
| Io.BaseExtension | src/pii_data/helper/io.py:30-40 | a value that is not a path gives ""; any other result is empty or one dot-led, dot-free, slash-free suffix |
| Io.PathExtension | src/pii_data/helper/io.py:39-40 | the same for a path |
| Io.SuffixOfPlain | src/pii_data/helper/io.py:39 | a slash-free name has a slash-free suffix |
| Io.BaseExtensionPlain | src/pii_data/helper/io.py:39-40 | without a compression suffix the extension is the name's suffix, for a string and a Path alike |
| Io.BaseExtensionStripsOne | src/pii_data/helper/io.py:40 | exactly one compression suffix is removed: `n.gz` has the extension of `n`, even when `n` ends in another compression suffix |
| Io.PlainName | src/pii_data/helper/io.py:36 | a slash-free name is its own path name |
| Io.SplitNoSep | src/pii_data/helper/io.py:39 | a string without the separator is one piece |
| Io.AbcSuffix | src/pii_data/helper/io.py:39 | the suffix of `23.abc` is `.abc` |
| Io.BaseExtensionExamples | src/pii_data/helper/io.py:30-40 | `23.abc` has extension `.abc` as a string and as a Path, and a value that is not a path has none |
| Io.BaseExtensionCompressedExample | src/pii_data/helper/io.py:40 | `23.abc` with any compression suffix still has extension `.abc` |
| Io.OpenMode | src/pii_data/helper/io.py:69-75 | binary modes take no encoding, a text mode without one gets utf-8, and an explicit one forces text mode; only an empty mode with an encoding fails |
| Io.OpenKind | src/pii_data/helper/io.py:77-91 | "-" is standard output exactly for write modes; a plain open is chosen only for names without a compression suffix |
| Io.UriRoute | src/pii_data/helper/io.py:110-130 | a registered scheme goes to its handler, http/https/ftp are opened remotely, no scheme or `file` is a local path, and anything else is InvArg |
| Io.LoadFormat | src/pii_data/helper/io.py:145-165 | ".json" among the suffixes selects JSON. Otherwise ".yml" or ".yaml" selects YAML, and anything else is InvArg |
| Io.SuffixesAppend | src/pii_data/helper/io.py:150 | adding `.t` to a plain name adds `.t` to its suffixes |
| Io.NoSuffixes | src/pii_data/helper/io.py:150 | a bare name has no suffixes |
| Io.LoadFormatJson | src/pii_data/helper/io.py:150 | `n.json` loads as JSON |
| Io.LoadFormatYaml | src/pii_data/helper/io.py:159 | `n.yaml` loads as YAML |
| Io.LoadFormatNeither | src/pii_data/helper/io.py:163-165 | a name without a data suffix is refused with InvArg |
| PiiEnums.Number | src/pii_data/types/piienum.py:8-34 | each member's number is its 1-based place in declaration order |
| PiiEnums.Name | src/pii_data/types/piienum.py:36-37 | no member is named STREET_ADDRESS: the old name is an alias, not a member |
| PiiEnums.OfNumber | src/pii_data/types/piienum.py:8-34 | exactly the numbers 1..19 name a member, the one with that number |
| PiiEnums.OfName | src/pii_data/types/piienum.py:8-37 | a name gives the member so named, and STREET_ADDRESS gives LOCATION. Any other name gives nothing |
| PiiEnums.MembersNumbered | src/pii_data/types/piienum.py:8-34 | there are nineteen members, each listed once, at the place of its number |
| PiiEnums.NameInjective | src/pii_data/types/piienum.py:8-34 | different members have different names |
| PiiEnums.OfNameRoundTrip | src/pii_data/types/piienum.py:8-34 | looking a member up by its name gives it back |
| PiiEnums.LookupsAgree | src/pii_data/types/piienum.py:8-34 | lookup by number and lookup by name agree on every member |
| PiiEnums.OfNameAccepts | src/pii_data/types/piienum.py:8-37 | a name is accepted exactly when it is a member's name or the alias |
| Peeker.UntilNone | src/pii_data/helper/peeker.py:30-39 | iteration yields the source's elements up to its first None, which ends it |
| Peeker.UntilNoneAll | src/pii_data/helper/peeker.py:30-39 | a source without None is yielded whole |
| Peeker.IterationPeeker.Upcoming | src/pii_data/helper/peeker.py:14-46 | nothing more comes once the value fetched ahead is None; otherwise that value comes first, then the rest of the source up to its first None |
| Peeker.IterationPeeker.constructor | src/pii_data/helper/peeker.py:14-16 | the peeker wraps the source and fetches its first value |
| Peeker.IterationPeeker.GetNext | src/pii_data/helper/peeker.py:21-28 | `_get_next` takes the next element of the source, or None at its end |
| Peeker.IterationPeeker.Peek | src/pii_data/helper/peeker.py:41-46 | `peek` returns the first value still to come, or None when nothing is left, without consuming it |
| Peeker.IterationPeeker.Next | src/pii_data/helper/peeker.py:30-39 | `__next__` raises StopIteration and changes nothing when the value fetched ahead is None. Otherwise it returns that value and fetches the next, so the values to come lose their first |
| Peeker.PeekAfter | src/pii_data/helper/peeker.py:14-46 | for a source without None, iteration gives the source in order, and after k values what is left is the rest of the source |
| PiiChunks.AtKey | src/pii_data/types/piicollection/chunk.py:67 | the elements with one key are a sub-list of the list |
| PiiChunks.AtKeyAppend | src/pii_data/types/piicollection/chunk.py:67 | the elements with one key in two joined lists are those of the first, then those of the second |
| PiiChunks.AtKeyBelow | src/pii_data/types/piicollection/chunk.py:67 | no element of a sorted list has a key below its first key |
| PiiChunks.Insert | src/pii_data/types/piicollection/chunk.py:67 | insertion adds exactly the one element |
| PiiChunks.InsertSorted | src/pii_data/types/piicollection/chunk.py:67 | insertion into a sorted list keeps it sorted |
| PiiChunks.InsertAtKey | src/pii_data/types/piicollection/chunk.py:67 | insertion puts the element after those with its own key |
| PiiChunks.SortBy | src/pii_data/types/piicollection/chunk.py:67 | sorting permutes the list |
| PiiChunks.SortByShort | src/pii_data/types/piicollection/chunk.py:67 | a list of at most one element is already sorted |
| PiiChunks.SortBySorted | src/pii_data/types/piicollection/chunk.py:67 | the sort orders by key |
| PiiChunks.SortByStable | src/pii_data/types/piicollection/chunk.py:67 | the sort is stable: the elements with any one key keep their order |
| PiiChunks.SortByPos | src/pii_data/types/piicollection/chunk.py:67 | sorting a group by position permutes it |
| PiiChunks.SortByPosStable | src/pii_data/types/piicollection/chunk.py:67 | the sorted group is in ascending position, and entities at one position keep their order |
| PiiChunks.SortGroup | src/pii_data/types/piicollection/chunk.py:67 | a group at integer positions is sorted by position and a group of at most one is left alone. Several entities whose positions do not compare are a TypeError |
| PiiChunks.ChunkKey | src/pii_data/types/piicollection/chunk.py:41 | entities are matched to a chunk by `str` of their `chunkid`; without one, KeyError |
| PiiChunks.IsEmpty | src/pii_data/types/piicollection/chunk.py:41 | an entity is false exactly when its value is empty, and a value without a length makes the test fail |
| PiiChunks.HeadOf | src/pii_data/types/piicollection/chunk.py:40-41 | peeking sees nothing at the end or at an empty entity, and otherwise the entity's chunk key |
| PiiChunks.Head | src/pii_data/types/piicollection/chunk.py:53-56 | an empty list shows nothing; a chunk key shown belongs to the first entity, which is live |
| PiiChunks.PrependAllTwice | src/pii_data/types/piicollection/chunk.py:52-57 | putting two lists of groups in front, one after the other, is putting their concatenation in front |
| PiiChunks.Run | src/pii_data/types/piicollection/chunk.py:33-43 | `_chunk_pii` takes a prefix of live entities of that chunk and stops where the next one is absent, empty or of another chunk. It takes at least one when the head is of that chunk, and never fails on live entities |
| PiiChunks.Runs | src/pii_data/types/piicollection/chunk.py:46-57 | the runs fail with the head's error, are empty when the head shows nothing, and are each non-empty |
| PiiChunks.Groups | src/pii_data/types/piicollection/chunk.py:46-67 | the groups fail with the head's error and are empty when the head shows nothing; when they build, so do the runs, one group per run |
| PiiChunks.RunCons | src/pii_data/types/piicollection/chunk.py:39-43 | when the head is of the chunk, the run takes it and goes on |
| PiiChunks.ShiftTwice | src/pii_data/types/piicollection/chunk.py:39-43 | counting on by a and then b is counting on by a + b |
| PiiChunks.OrderlySuffix | src/pii_data/types/piicollection/chunk.py:52-57 | what is left of orderly entities is orderly |
| PiiChunks.RunsStep | src/pii_data/types/piicollection/chunk.py:52-57 | on orderly entities each `chunks()` step yields the whole leading run of the first entity's chunk, sorted, and the next run is of another chunk |
| PiiChunks.MaximalCons | src/pii_data/types/piicollection/chunk.py:52-57 | a one-chunk run in front of maximal runs of another chunk is maximal |
| PiiChunks.RunsPartition | src/pii_data/types/piicollection/chunk.py:46-57 | on orderly entities the runs cover every entity once, in order; each is non-empty and of one chunk, and neighbouring runs are of different chunks |
| PiiChunks.GroupsAreSortedRuns | src/pii_data/types/piicollection/chunk.py:46-67 | on orderly entities each group is its run sorted by position |
| PiiChunks.PiiChunkIterator.constructor | src/pii_data/types/piicollection/chunk.py:21-23 | the iterator wraps the collection's entities in a peeker and records their number |
| PiiChunks.PiiChunkIterator.PeekHead | src/pii_data/types/piicollection/chunk.py:40-41 | what a peek shows is the head of the entities still to come |
| PiiChunks.PiiChunkIterator.ChunkPii | src/pii_data/types/piicollection/chunk.py:33-43 | `_chunk_pii` consumes and returns exactly the leading run of that chunk, or fails as the run does |
| PiiChunks.PiiChunkIterator.Call | src/pii_data/types/piicollection/chunk.py:60-67 | `__call__` consumes the leading run and returns it sorted by position |
| PiiChunks.PiiChunkIterator.Chunks | src/pii_data/types/piicollection/chunk.py:46-57 | `chunks()` returns the groups `Groups` defines |
| PiiEntities.OptionalKeys | src/pii_data/types/piientity.py:42 | the optional fields are exactly docid, detector, process and extra |
| PiiEntities.MainKeyPlace | src/pii_data/types/piientity.py:99 | a main key is neither an info field, an optional field, `start` nor `end` |
| PiiEntities.InfoKeyPlace | src/pii_data/types/piientity.py:30-31 | an info key is neither a main key, an optional field, `start` nor `end` |
| PiiEntities.OptionalKeyPlace | src/pii_data/types/piientity.py:42 | an optional key is neither a main key, an info key, `start`, `end` nor `type` |
| PiiEntities.FilterDict | src/pii_data/types/piientity.py:32 | `filter_dict` keeps exactly the entries that are not None, unchanged |
| PiiEntities.InfoAsDict | src/pii_data/types/piientity.py:26-32 | the info's dict holds the type name, and lang, country and subtype exactly when set, with their values |
| PiiEntities.InfoDictKey | src/pii_data/types/piientity.py:26-32 | every key of the info's dict is `type` or a field that is set |
| PiiEntities.StoredArgs | src/pii_data/types/piientity.py:102-105 | the loop stores exactly the listed keyword arguments that are given and not None |
| PiiEntities.StoredArgsSnoc | src/pii_data/types/piientity.py:102-105 | one more name in the loop stores that argument when given and not None |
| PiiEntities.InitFields | src/pii_data/types/piientity.py:95-105 | `fields` holds the type name, the value and the chunk id, plus exactly the optional arguments given and not None |
| PiiEntities.ResolveType | src/pii_data/types/piientity.py:74-79 | a member is used as is and a known name gives its member. An unknown name is InvArg and an unhashable one a TypeError |
| PiiEntities.Build | src/pii_data/types/piientity.py:58-82 | `build` succeeds exactly when the type resolves. The info holds the resolved type, lang, country and subtype; the fields are those `__init__` builds; the position is kept |
| PiiEntities.ValueLen | src/pii_data/types/piientity.py:112 | `len` is defined on strings, lists and dicts; anything else is a TypeError |
| PiiEntities.Len | src/pii_data/types/piientity.py:108-112 | an entity's length is its value's, and KeyError without a value |
| PiiEntities.AddNat | src/pii_data/types/piientity.py:152 | a position adds to a length when it is an int or a bool; anything else is a TypeError |
| PiiEntities.AsDict | src/pii_data/types/piientity.py:147-152 | `asdict` holds the set info fields, then `fields` (which win), then `start` (the position) and `end` (position plus length). It fails exactly when the length or the sum does |
| PiiEntities.TruthyOr | src/pii_data/types/piientity.py:171 | an entry is passed on exactly when present and truthy |
| PiiEntities.OptionalExtra | src/pii_data/types/piientity.py:170-172 | the optional entries passed on are exactly those present and truthy |
| PiiEntities.FromDict | src/pii_data/types/piientity.py:155-172 | `fromdict` needs type, start, value and chunkid (InvArg otherwise) and fails when the type is unknown. The entity has those four, the truthy info entries, and exactly the truthy optional entries |
| PiiEntities.BuildSame | src/pii_data/types/piientity.py:119-125 | two built entities are equal exactly when type, value, chunk id and position agree; the other fields do not matter |
| PiiEntities.PartsKeys | src/pii_data/types/piientity.py:147-172 | the dict form of an entity read from a dict in `asdict` form has the same keys |
| PiiEntities.AsDictOfParts | src/pii_data/types/piientity.py:147-152 | such an entity's dict form is the dict it was read from |
| PiiEntities.AsDictFromDict | src/pii_data/types/piientity.py:147-172 | a dict in the form `asdict` writes is read and written back unchanged |
| PiiEntities.BuildForm | src/pii_data/types/piientity.py:58-105 | `build` with optional arguments None or truthy gives an entity whose optional entries are all truthy |
| PiiEntities.DictMain | src/pii_data/types/piientity.py:151-152 | the dict form holds type, start, value and chunk id as the entity has them |
| PiiEntities.DictInfo | src/pii_data/types/piientity.py:151 | the dict form holds lang, country and subtype exactly when set |
| PiiEntities.DictOfBuilt | src/pii_data/types/piientity.py:147-152 | the dict form of such an entity is described entry by entry |
| PiiEntities.RoundFields | src/pii_data/types/piientity.py:155-172 | reading that dict gives back the entity's fields |
| PiiEntities.FromDictAsDict | src/pii_data/types/piientity.py:147-172 | an entity in `build` form survives writing and reading its dict form unchanged |
| PiiEntities.ProcessStage | src/pii_data/types/piientity.py:135-144 | a first stage is stored as is. A later one moves the current stage, without its own history, to the end of the history, leaving every other field unchanged. A non-dict `process` raises |
| PiiEntities.StageRecord | src/pii_data/types/piientity.py:140 | a stage entry holds `stage` and the data keys; a data key wins over the positional stage |
| PiiEntities.Stages | src/pii_data/types/piientity.py:135-144 | no stage changes nothing; stages that succeed add only `process` and keep every other field |
| PiiEntities.StageFailed | src/pii_data/types/piientity.py:142-143 | a failing stage leaves every field but `process` unchanged |
| PiiEntities.Records | src/pii_data/types/piientity.py:140-144 | one stage entry per stage |
| PiiEntities.PopHistory | src/pii_data/types/piientity.py:142 | popping the history of an entry that had none of its own gives the entry back |
| PiiEntities.StagesHistory | src/pii_data/types/piientity.py:135-144 | after stages s1..sn on an entity with no process, the current stage is sn and the history lists s1..s(n-1) in order; other fields are untouched |
| PiiEntities.PiiEntity.constructor | src/pii_data/types/piientity.py:85-105 | `__init__` stores the info, the position and the fields `InitFields` defines |
| PiiEntities.PiiEntity.AddField | src/pii_data/types/piientity.py:128-132 | `add_field` sets one entry and keeps the others |
| PiiEntities.PiiEntity.AddProcessStage | src/pii_data/types/piientity.py:135-144 | `add_process_stage` leaves the fields `ProcessStage` defines, or on failure the popped state |
| Collection.NewDetector | src/pii_data/types/piicollection/collection.py:24-40 | a detector's id is "source/name/version". Its fields are source, name and version, plus url and method exactly when truthy |
| Collection.DetectorFromKwargs | src/pii_data/types/piicollection/collection.py:24-40 | calling the constructor with a dict succeeds exactly when its keys are constructor arguments including the three compulsory ones, else TypeError. The detector keeps every field but a falsy url or method |
| Collection.NewDetectorWellFormed | src/pii_data/types/piicollection/collection.py:24-40 | every detector the constructor builds is well formed |
| Collection.DetectorKwargsRoundTrip | src/pii_data/types/piicollection/collection.py:24-49 | calling the constructor with the fields `asdict` returns gives the same detector |
| Collection.RegistryInverse | src/pii_data/types/piicollection/collection.py:132-137 | in a well-kept registry the id index is the exact inverse of the numbering |
| Collection.AddDetectorSpec | src/pii_data/types/piicollection/collection.py:132-137 | the id is indexed afterwards, under the number returned, and every known id keeps its number. A known id changes nothing; a new one is stored under size + 1 |
| Collection.AddAll | src/pii_data/types/piicollection/collection.py:132-137 | adding detectors one after another never renumbers an id already known |
| Collection.AddDetectorKeeps | src/pii_data/types/piicollection/collection.py:128-137 | `add_detector` keeps the numbering 1..n without repeats. A known id returns its number and changes nothing; a new one is stored under n+1, the only addition |
| Collection.AddDetectorIdempotent | src/pii_data/types/piicollection/collection.py:128-137 | adding the same detector twice changes nothing the second time and returns the same number |
| Collection.AddDetectorById | src/pii_data/types/piicollection/collection.py:132-137 | registration goes by id only: two detectors with one id share a number, and the first one's fields stay |
| Collection.AddAllKeeps | src/pii_data/types/piicollection/collection.py:128-137 | after any number of additions the registry is well kept and indexes exactly the old ids and the added ones |
| Collection.DefaultsAsWritten | src/pii_data/types/piicollection/collection.py:151-153 | as written, filling defaults keeps the info, the position and every field the entity had |
| Collection.DefaultLangOverrides | src/pii_data/types/piicollection/collection.py:151-153 | as written, an entity with language "es" added to a collection with default "pt" is written out with language "pt" |
| Collection.WithDefaults | src/pii_data/types/piicollection/collection.py:151-153 | corrected, filling defaults keeps the info and the position |
| Collection.FilledStep | src/pii_data/types/piicollection/collection.py:151-153 | each default is added only when neither the fields nor the info set its key |
| Collection.DefaultsFillOnlyMissing | src/pii_data/types/piicollection/collection.py:151-153 | corrected, every entry of the entity's dict form stays, and a default appears exactly where that form had no entry |
| Collection.FillDefaults | src/pii_data/types/piicollection/collection.py:151-153 | corrected: the loop over the defaults computes `WithDefaults` |
| Collection.ParseKey | src/pii_data/types/piicollection/loader.py:34 | a key read as an integer is that integer's decimal form; anything else is ValueError |
| Collection.ParseKeyOfString | src/pii_data/types/piicollection/loader.py:34 | every number's decimal form reads back as that number |
| Collection.DetectorsDict | src/pii_data/types/piicollection/collection.py:99-100 | the header lists each detector's fields under its number, and nothing else |
| Collection.EntityDicts | src/pii_data/types/piicollection/collection.py:181-186 | the entities' dict forms, in order; this fails exactly when some entity has no dict form |
| Collection.DumpSpec | src/pii_data/types/piicollection/collection.py:168-193 | `ndjson`/`jsonl` write the header, then one entity per line. `json` writes a document with `metadata` and `pii_list`. Any other format is InvArg |
| Collection.DumpFormsAgree | src/pii_data/types/piicollection/collection.py:178-190 | the NDJSON and JSON forms hold the same data: the first line is the metadata and the rest the entity list |
| Collection.DefaultsOf | src/pii_data/types/piicollection/collection.py:69-73 | the defaults hold lang and docid exactly when they are truthy |
| Collection.PiiCollection.constructor | src/pii_data/types/piicollection/collection.py:61-88 | a new collection is empty, with its defaults and a header of date, format tag and default language |
| Collection.PiiCollection.Header | src/pii_data/types/piicollection/collection.py:95-101 | `header()` refreshes the detector list from the registry and changes nothing else |
| Collection.PiiCollection.Stage | src/pii_data/types/piicollection/collection.py:104-111 | a truthy value becomes the stage, and the current stage (None when unset) is returned |
| Collection.PiiCollection.AddDetector | src/pii_data/types/piicollection/collection.py:128-137 | `add_detector` updates the registry as `AddDetectorSpec` says and sets the stage to "detection", keeping the registry well kept |
| Collection.PiiCollection.Add | src/pii_data/types/piicollection/collection.py:140-156 | corrected: `add` records the detector's number in the entity when one is given, fills the defaults as `WithDefaults` does, and appends the entity. Only the registry and the stage change besides |
| Collection.PiiCollection.SetDecision | src/pii_data/types/piicollection/collection.py:159-165 | `set_decision` stores the info and sets the stage to "decision" |
| Collection.PiiCollection.Dump | src/pii_data/types/piicollection/collection.py:168-193 | `dump` refreshes the header, even for a refused format, and writes what `DumpSpec` defines |
| CollectionLoader.CheckFormat | src/pii_data/types/piicollection/loader.py:17-24 | a header is accepted exactly when its `format` is the collection tag. Any other dict is InvArg, and a non-dict has no `get` |
| CollectionLoader.Item | src/pii_data/types/piicollection/loader.py:52-55 | indexing a dict by a missing key is KeyError; anything but a dict is TypeError |
| CollectionLoader.Numbers | src/pii_data/types/piicollection/loader.py:34 | the detector numbers are exactly the keys read as integers |
| CollectionLoader.LoadedDetectors | src/pii_data/types/piicollection/loader.py:33-37 | the detector list loads exactly when it is a dict of numeric keys and valid constructor arguments, each detector under its key's number; every failure becomes a ProcException |
| CollectionLoader.IndexDetermined | src/pii_data/types/piicollection/loader.py:38 | with no detector registered twice, the id index is determined by the registry |
| CollectionLoader.DetectorsDictLoads | src/pii_data/types/piicollection/loader.py:33-37 | a header's detector list of well-formed detectors always loads |
| CollectionLoader.DetectorsLoadBack | src/pii_data/types/piicollection/loader.py:33-37 | each registered detector is loaded back under its own number |
| CollectionLoader.LoadedNumbersRegistered | src/pii_data/types/piicollection/loader.py:33-37 | only registered numbers are loaded back |
| CollectionLoader.DetectorsRoundTrip | src/pii_data/types/piicollection/loader.py:32-38 | the detector list a dump writes loads back as the same registry |
| CollectionLoader.SameRegistry | src/pii_data/types/piicollection/loader.py:34 | two registries with the same numbers and detectors are equal |
| CollectionLoader.EntityOf | src/pii_data/types/piicollection/loader.py:56 | an entity is read from a dict with `fromdict`; anything else is TypeError |
| CollectionLoader.EntitiesOf | src/pii_data/types/piicollection/loader.py:56 | a list of entities loads exactly when each does, in order |
| CollectionLoader.JsonEntities | src/pii_data/types/piicollection/loader.py:56 | a `pii_list` list gives its entities; an empty dict or string gives none |
| CollectionLoader.LineEntity | src/pii_data/types/piicollection/loader.py:70 | a line that does not parse is a ValueError; otherwise it is read as an entity |
| CollectionLoader.LineEntities | src/pii_data/types/piicollection/loader.py:70 | the lines after the header load exactly when each does, one entity per line, in order |
| CollectionLoader.AfterHeader | src/pii_data/types/piicollection/loader.py:54-56 | once accepted, the header replaces the collection's header |
| CollectionLoader.JsonLoad | src/pii_data/types/piicollection/loader.py:41-56 | a text that does not parse is a FileException. A success replaces header, registry and entities, and the header is the document's accepted `metadata` |
| CollectionLoader.NdjsonLoad | src/pii_data/types/piicollection/loader.py:59-70 | no line at all is a StopIteration. A success replaces header, registry and entities, one entity per further line, and the header is the accepted first line |
| CollectionLoader.LayoutOf | src/pii_data/types/piicollection/loader.py:73-85 | base extension `.json` selects JSON, `.ndjson`/`.jsonl` NDJSON, and anything else is a FileException |
| CollectionLoader.FileLoad | src/pii_data/types/piicollection/loader.py:73-85 | `load` runs the loader its layout selects |
| CollectionLoader.AsLines | src/pii_data/types/piicollection/collection.py:178-182 | each written line parses back to its record |
| CollectionLoader.EntityDictsRebuild | src/pii_data/types/piicollection/loader.py:56 | each entity in built form is rebuilt from its dict |
| CollectionLoader.SameEntities | src/pii_data/types/piicollection/loader.py:56 | two entity lists that agree everywhere are equal |
| CollectionLoader.EntitiesRoundTrip | src/pii_data/types/piicollection/loader.py:56-70 | the entities' dicts, in a JSON list or on NDJSON lines, load back as the same entities |
| CollectionLoader.EntitiesRebuilt | src/pii_data/types/piicollection/loader.py:56-70 | dicts that each rebuild an entity rebuild the list, as a JSON list and as lines |
| CollectionLoader.LinesRebuilt | src/pii_data/types/piicollection/loader.py:70 | lines that each rebuild an entity rebuild the list |
| CollectionLoader.AfterDumpedHeader | src/pii_data/types/piicollection/loader.py:54-56 | a dumped header whose detector list is the registry's loads as that header, registry and entities |
| CollectionLoader.NdjsonDumpLines | src/pii_data/types/piicollection/collection.py:178-182 | the NDJSON dump parses back to the header line followed by the entity lines |
| CollectionLoader.NdjsonLoadAccepted | src/pii_data/types/piicollection/loader.py:63-70 | lines that start with an accepted header load through the common tail |
| CollectionLoader.NdjsonRoundTrip | src/pii_data/types/piicollection/loader.py:59-70 | an NDJSON dump loads back as the same collection: the header as written, the same registry, the same entities |
| CollectionLoader.JsonLoadAccepted | src/pii_data/types/piicollection/loader.py:52-56 | a document with an accepted `metadata` and a `pii_list` list loads through the common tail |
| CollectionLoader.JsonRoundTrip | src/pii_data/types/piicollection/loader.py:41-56 | a JSON dump loads back as the same collection |
| CollectionLoader.SomeNumber | src/pii_data/types/piicollection/loader.py:38 | a non-empty set of numbers has an element |
| CollectionLoader.InverseIndex | src/pii_data/types/piicollection/loader.py:38 | the id index built one detector at a time indexes the registry, and is its exact inverse when no detector is registered twice |
| CollectionLoader.LoadDetectors | src/pii_data/types/piicollection/loader.py:32-38 | `_load_detectors` replaces the registry and builds its index, or fails leaving both as they were |
| CollectionLoader.LoadJson | src/pii_data/types/piicollection/loader.py:41-56 | `load_json` leaves the collection `JsonLoad` describes |
| CollectionLoader.LoadNdjson | src/pii_data/types/piicollection/loader.py:59-70 | `load_ndjson` leaves the collection `NdjsonLoad` describes |
| CollectionLoader.LoadAfterHeader | src/pii_data/types/piicollection/loader.py:54-56 | the common tail sets the header, loads the detectors, then the entities |
| CollectionLoader.Load | src/pii_data/types/piicollection/loader.py:73-85 | `load` leaves the collection `FileLoad` describes |
| CollectionLoader.KnownDetectorAfterLoad | src/pii_data/types/piicollection/loader.py:38 | after a load, adding a detector already listed gives its stored number and changes nothing |
| LegacyCollection.NewLegacyDetector | src/pii_data/types/piicollection.py:25-41 | the id is "source/name/version"; name, version and source are always stored, url and method exactly when truthy |
| LegacyCollection.LegacyDetectorAgrees | src/pii_data/types/piicollection.py:25-41 | the older constructor builds the same detector as the newer one from the same arguments in another order |
| LegacyCollection.KeyValue | src/pii_data/types/piicollection.py:108 | an entity records a numbered key as that integer and a loaded key as that string |
| LegacyCollection.KeyName | src/pii_data/types/piicollection.py:131 | the JSON dump writes a numbered key as its decimal string and a loaded key as it is |
| LegacyCollection.LegacyAddSpec | src/pii_data/types/piicollection.py:89-97 | the id is indexed afterwards, under the key returned. A known id changes nothing; a new one is stored under the number size + 1 |
| LegacyCollection.LegacyAddKeeps | src/pii_data/types/piicollection.py:89-97 | `add_detector` keeps the id index and the numbering; a known id changes nothing, a new one is stored under the number size + 1 and adds exactly one entry |
| LegacyCollection.LegacyAddNew | src/pii_data/types/piicollection.py:93-96 | a new id stored under the next number keeps the index and the numbering and adds one entry |
| LegacyCollection.LegacyAddDistinct | src/pii_data/types/piicollection.py:89-97 | `add_detector` never registers an id twice |
| LegacyCollection.LegacyAddIdempotent | src/pii_data/types/piicollection.py:89-97 | adding the same detector again returns the same key and changes nothing |
| LegacyCollection.Encoded | src/pii_data/types/piicollection.py:138 | an added entity is encoded as its `asdict`, a loaded plain value as itself |
| LegacyCollection.EncodedItems | src/pii_data/types/piicollection.py:137-138 | every element is encoded in place and in order; any failure fails the whole list |
| LegacyCollection.NumberedPart | src/pii_data/types/piicollection.py:131 | the detectors under numeric keys, each under its number |
| LegacyCollection.NamedPart | src/pii_data/types/piicollection.py:131 | the detectors under string keys, each as its field dict |
| LegacyCollection.NumberedDetectorsDict | src/pii_data/types/piicollection.py:131 | a registry that was never loaded is dumped as the newer collection dumps its registry |
| LegacyCollection.SingleDetectorsDict | src/pii_data/types/piicollection.py:131 | one detector numbered n is dumped under the string of n |
| LegacyCollection.SingleLoaded | src/pii_data/types/piicollection.py:174 | one dumped detector is loaded back under its string key |
| LegacyCollection.LegacyDumpSpec | src/pii_data/types/piicollection.py:119-149 | `ndjson` writes the header line and then one line per element; `json` writes `metadata` and `pii_list`; any other format is an InvArgException |
| LegacyCollection.LegacyCheckFormat | src/pii_data/types/piicollection.py:154-165 | accepted exactly when both `format` and `format_version` hold the expected values; otherwise an InvArgException, or an AttributeError when the header is not a dict |
| LegacyCollection.DumpedHeaderChecks | src/pii_data/types/piicollection.py:127-132 | the header `dump` writes passes `check_format` |
| LegacyCollection.LegacyLoaded | src/pii_data/types/piicollection.py:173-174 | the loaded registry keeps every string key and builds each detector from its entry's keyword arguments; a non-dict is an AttributeError and a refused entry a TypeError |
| LegacyCollection.LegacyAfterHeader | src/pii_data/types/piicollection.py:186-187 | a successful load sets both the registry and the elements: the registry from the header's detector list, the elements as given |
| LegacyCollection.LegacyJsonLoad | src/pii_data/types/piicollection.py:178-187 | malformed JSON is a ValueError. A success needs a `metadata` that passes the check, and the elements stored are the values of a `pii_list` list |
| LegacyCollection.RawItems | src/pii_data/types/piicollection.py:187 | the parsed values become elements one for one |
| LegacyCollection.RawValues | src/pii_data/types/piicollection.py:187 | the values of plain elements, one for one |
| LegacyCollection.RawValuesOfItems | src/pii_data/types/piicollection.py:187 | plain elements give back the values they were made from |
| LegacyCollection.LegacyLines | src/pii_data/types/piicollection.py:197 | accepted exactly when every line parses; a line that does not parse is a ValueError |
| LegacyCollection.ParsedValues | src/pii_data/types/piicollection.py:197 | the values of the parsed lines, one for one |
| LegacyCollection.LegacyNdjsonLoad | src/pii_data/types/piicollection.py:190-197 | no lines is a StopIteration; success needs a header line that parses and passes the check, and gives one element per remaining line |
| LegacyCollection.LegacyDetectorsReload | src/pii_data/types/piicollection.py:131 | a dumped detector list loads back; a detector numbered n comes back under the string of n |
| LegacyCollection.LegacyHeaderLoads | src/pii_data/types/piicollection.py:186-187 | a checked header whose detector list loads is loaded without error |
| LegacyCollection.LegacyJsonRoundTrip | src/pii_data/types/piicollection.py:140-146 | a JSON dump loads back: each element as the value it was encoded to, and the detectors as the reload gives them |
| LegacyCollection.LegacyJsonAccepted | src/pii_data/types/piicollection.py:178-187 | a JSON document with a checked header goes on to load the detectors and the list |
| LegacyCollection.LegacyNdjsonRoundTrip | src/pii_data/types/piicollection.py:134-138 | an NDJSON dump loads back the same way, one element per line after the header |
| LegacyCollection.LegacyNdjsonAccepted | src/pii_data/types/piicollection.py:190-197 | NDJSON lines with a checked header go on to load the detectors and the remaining lines |
| LegacyCollection.KeyIndexOf | src/pii_data/types/piicollection.py:175 | `detector_map` indexes the registry by detector id |
| LegacyCollection.DumpWith | src/pii_data/types/piicollection.py:134-149 | the dump, written one element at a time, is `LegacyDumpSpec` |
| LegacyCollection.LegacyPiiCollection.constructor | src/pii_data/types/piicollection.py:60-80 | a new collection has the defaults the truthy arguments give and is otherwise empty |
| LegacyCollection.LegacyPiiCollection.Size | src/pii_data/types/piicollection.py:83-87 | `len` is the number of elements |
| LegacyCollection.LegacyPiiCollection.AddDetector | src/pii_data/types/piicollection.py:89-97 | registers the detector as `LegacyAddSpec` says and keeps the registry valid |
| LegacyCollection.LegacyPiiCollection.Add | src/pii_data/types/piicollection.py:100-116 | corrected: records the detector key in the entity when a detector is given, fills the defaults the entity does not set, and appends one element |
| LegacyCollection.LegacyDefaultLangOverrides | src/pii_data/types/piicollection.py:111-113 | as written, an entity with language "es" added to a collection with default "pt" is dumped with language "pt" |
| LegacyCollection.LegacyDefaultsFillOnlyMissing | src/pii_data/types/piicollection.py:111-113 | corrected, every entry of the entity's dict form stays, and a default appears exactly where that form had no entry |
| LegacyCollection.LegacyPiiCollection.Dump | src/pii_data/types/piicollection.py:119-149 | dumps the current registry and elements as `LegacyDumpSpec` says |
| LegacyCollection.LegacyPiiCollection.LoadDetectors | src/pii_data/types/piicollection.py:173-175 | on success, replaces the registry and indexes it; a failure changes nothing |
| LegacyCollection.LegacyPiiCollection.LoadAfterHeader | src/pii_data/types/piicollection.py:186-187 | applies the outcome `LegacyAfterHeader` describes |
| LegacyCollection.LegacyPiiCollection.LoadJson | src/pii_data/types/piicollection.py:178-187 | `load_json` leaves the collection `LegacyJsonLoad` describes |
| LegacyCollection.LegacyPiiCollection.LoadNdjson | src/pii_data/types/piicollection.py:190-197 | `load_ndjson` leaves the collection `LegacyNdjsonLoad` describes |
| LegacyCollection.LoadedValid | src/pii_data/types/piicollection.py:94-96 | after a load, the next number `add_detector` hands out is free |
| LegacyCollection.ExampleAdded | src/pii_data/types/piicollection.py:93-97 | a fresh collection gives its first detector the number 1 |
| LegacyCollection.ExampleDumped | src/pii_data/types/piicollection.py:131 | that detector is dumped under "1" |
| LegacyCollection.ExampleLoaded | src/pii_data/types/piicollection.py:174 | that list loads back with the detector keyed by the string "1" |
| LegacyCollection.ReloadTurnsNumberIntoText | src/pii_data/types/piicollection.py:93-97 | after a dump and a reload, the same detector gets the key "1" where it had 1 before |

## Left out

- Dict key order: Python dicts keep insertion order, Dafny maps do not. Where order shows in the output (the dumpers' mappings, the YAML element entries), the model uses an ordered sequence of entries instead.
- Aliasing: the source shares dicts and lists between callers and stored state. Examples are the default language written into the caller's element context (types/doc/chunker.py:74-75), `before`/`after` written into a chunk already returned, `dest[k].update(v)` in the config merge, and stack entries that point into the tree being built. The model uses value semantics, so a caller never sees these writes.
- File, network and console I/O are not modelled: opening, gzip/bz2/xz, `urlopen`, stdin/stdout. Loaders take the already-parsed value, or the parsed lines, with malformed text as a ValueError. Writers return the printed lines or the value handed to the JSON/YAML library, and output written before an error is not modelled.
- The JSON and YAML libraries are not modelled. Their rendering is replaced by `Emit.ToValue`, the value a dump parses back to. A `Wrapped` chunk list stays unexpanded until the representer is applied to it again. Registering representers on the global dumper is not modelled.
- `uuid.uuid4()` document ids and `datetime.utcnow()` headers are parameters.
- `helper/json_encoder.py` is not part of this model. Datetime, set and binary encoding are library behaviour; encoding an entity is its `asdict`.
- `types/localdoc.py` (I/O glue, and broken at its line 86), `app/rawdoc.py` (command line) and `helper/misc.py` (reflection) are not part of this model. `filter_dict` is taken as "drop the None-valued keys".
- `types/doc/document.py` is not part of this model. The newer local documents take its metadata handling to be the one of the older `SrcDocument` (a generated document id when none is given), and the chunk iteration it provides is a parameter of the dumpers.
- Exception messages: errors are `Values.Error` constructors without their text.
- Floats are not among the modelled values. `str.lower` lowers ASCII letters only. `str()` is modelled for None, bools, integers and strings.
- PiiChunks.SortGroup: a group of two or more entities whose positions are not all integers is a TypeError in the model. Python would order string positions (and other comparable values) by its own rules instead of failing.
- Collection.ParseKey: accepts only the canonical decimal form that `str(int)` writes. Python's `int()` also accepts a leading `+`, leading zeros and surrounding spaces. The detector lists the source writes hold only canonical keys.
- The `header` of a `Document` is a read-only view in the source; the model returns a copy, so it cannot be written through.
- LocalDoc.TreeDoc.AddChunk: this resets the tracked level when a level-0 chunk is added, so levels 0, 1, 0, 2 are refused with InvArgException. As written, the tracked level stays at 1 and the last chunk raises IndexError (types/doc/localdoc.py:127-133); `LocalDoc.TreeGapAsWritten` models that behaviour.
- LocalDoc.LoadSpec and LocalDoc.LoadFile: these follow the corrected type fallback, where a header without a type loads as a sequence. As written, such a header fails with InvalidDocument; `LocalDoc.HeaderWithoutType` models that behaviour.
- Collection.FillDefaults and Collection.PiiCollection.Add: these fill a default only where the entity's dict form has no value. As written, a collection default language replaces the entity's own; `Collection.DefaultLangOverrides` models that behaviour.
- LegacyCollection.LegacyPiiCollection.Add: this fills a default only where the entity's dict form has no value. As written, a collection default language replaces the entity's own; `LegacyCollection.LegacyDefaultLangOverrides` models that behaviour.
- DocChunker.ContextChunkGenerator.constructor: this takes absent metadata as empty. As written, the constructor fails with AttributeError; `DocChunker.InitAsWritten` models that behaviour.
- LegacyCollection.LegacyJsonLoad and LegacyCollection.LegacyPiiCollection.LoadJson: a `pii_list` that is not a list is a TypeError in the model. The source stores whatever value it finds (types/piicollection.py:187), and only a later iteration over it fails.
- doc/yaml/dump.py `chunk_representer` (lines 48-58): `DocumentChunk` objects placed inside a document's structure are not modelled; the dumpers take chunks as dicts.
- LocalDoc.LoadSpec and LocalDoc.LoadFile: a parsed file that is not a mapping (a list or a scalar) is outside the model, whose loader takes the parsed dict.
- Document.SrcDocument.IterChunks: the model returns all the chunks or one error. The source is a generator, which yields the chunks before the failing one and advances the chunk counter for them.
- PiiChunks.PiiChunkIterator.Chunks: the model returns all the groups or one error. The source is a generator, which yields the groups before the failing one.
- Window.ElemContext and Values.SetPair: a list element whose key is not a string is a TypeError in the model, where Python would set a non-string key. A two-key dict element is a TypeError, where Python would take its keys as the pair.
- Emit.ContextEntry, Emit.NonDictContext and Emit.DropFromList: in exclusion mode, an in-range int element of a list context is a TypeError. Python would index the list and build a dict with an int key.
- YamlDump.NonListElements: a non-empty string or dict fails as a whole. The model does not say which element fails first, or with which error.
- Collection.DetectorsDict: keys are the decimal strings that JSON writes. The in-memory `header()` holds int keys.
- LocalDoc.TableStep: `1` and `True` are different rows in the model, where Python compares them equal.
- PiiEntities.PiiEntity.constructor: the InvArgException for an info argument that is not a `PiiEntityInfo` (types/piientity.py:96-97) is not modelled, because the model types the argument.

## Findings

| source | as written | input that shows it | evidently intended | confidence | as-written member | corrected member |
|---|---|---|---|---|---|---|
| src/pii_data/types/doc/localdoc.py:255 | the fallback to a sequence tests the builtin `type` instead of `dtype`, so it never fires | a parsed document whose header has no `document.type` | a document without a type loads as a sequence | high; not executed | LocalDoc.HeaderWithoutType | LocalDoc.DocTypeOfHeader |
| src/pii_data/types/doc/localdoc.py:127-133 | a level-0 chunk returns before `_cur_lev` is updated, so the gap check keeps the last non-zero level | chunks at levels 0, 1, 0, 2: the last one passes the gap check and indexes past the one-entry stack (IndexError) | the level gap is reported (InvArgException) | high; not executed | LocalDoc.TreeGapAsWritten | LocalDoc.TreeGapCorrected |
| src/pii_data/types/doc/chunker.py:89-93 | `meta.items()` runs before the `meta is None` test | `ContextChunkGenerator()` with no metadata: AttributeError | absent metadata is treated as empty | high; not executed | DocChunker.InitAsWrittenRejectsNoMetadata | DocChunker.Init |
| src/pii_data/types/piicollection/collection.py:151-153 | a default is filled when the key is missing from `fields`, but `lang` lives in the entity's info, so a default language replaces the entity's own in `asdict` | an entity with language "es" added to a collection with default language "pt" is written out with "pt" | a default fills only what the entity does not set | medium; not executed | Collection.DefaultLangOverrides | Collection.DefaultsFillOnlyMissing |
| src/pii_data/types/piicollection.py:111-113 | a default is filled when the key is missing from `fields`, but `lang` lives in the entity's info, so a default language replaces the entity's own when it is dumped | an entity with language "es" added to a collection with default language "pt" is dumped with "pt" | a default fills only what the entity does not set | medium; not executed | LegacyCollection.LegacyDefaultLangOverrides | LegacyCollection.LegacyDefaultsFillOnlyMissing |
| src/pii_data/types/doc/localdoc.py:175-176 | the InvArgException for an unknown type is built but not raised | `LocalSrcDocument("other")` returns None | an unknown document type raises InvArgException | high; not executed | LocalDoc.NewDocUnknown | LocalDoc.NewDoc |
