// The older source document (types/document.py): document metadata kept per
// section, the chunk iterator with optional neighbour context, and the
// depth-first flattening of tree documents.

module Document {
  import opened Values
  import opened Window
  import Defs

  type Meta = map<string, map<string, Value>>

  /** `_meta[k].update(v)` for every passed section `k`, on a dict whose
      missing sections start empty: new sections are created, existing ones
      are shallow-updated (incoming keys replace, other keys stay). */
  function MergeSections(meta: Meta, sections: Meta): (r: Meta)
    ensures r.Keys == meta.Keys + sections.Keys
    ensures forall k :: k in meta && k !in sections ==> r[k] == meta[k]
    ensures forall k :: k in sections && k !in meta ==> r[k] == sections[k]
    ensures forall k :: k in sections && k in meta ==> r[k] == Update(meta[k], sections[k])
  {
    SectionsUpTo(meta, sections, sections.Keys)
  }

  /** The metadata once the sections in `done` are merged. */
  function SectionsUpTo(meta: Meta, sections: Meta, done: set<string>): Meta
    requires done <= sections.Keys
  {
    map k | k in meta.Keys + done ::
      if k in done then Update(if k in meta then meta[k] else map[], sections[k]) else meta[k]
  }

  /** Merging one more section updates only that section. */
  lemma SectionsStep(meta: Meta, sections: Meta, done: set<string>, k: string)
    requires done <= sections.Keys && k in sections && k !in done
    ensures var m := SectionsUpTo(meta, sections, done);
      SectionsUpTo(meta, sections, done + {k}) == m[k := Update(if k in m then m[k] else map[], sections[k])]
  {
    var m := SectionsUpTo(meta, sections, done);
    if k in m {
      assert m[k] == meta[k];
    }
  }

  /** `set_header_document(info)`: the document section is the given info
      (none or empty: an empty dict) with a generated id added when it has
      none. */
  function HeaderDocument(info: Option<map<string, Value>>, freshId: string): (d: map<string, Value>)
    ensures "id" in d
    ensures info.Some? && "id" in info.value ==> d == info.value
    ensures (info.None? || "id" !in info.value) ==> d["id"] == Str(freshId)
    ensures info.Some? ==> d.Keys == info.value.Keys + {"id"}
    ensures info.Some? ==> forall k :: k in info.value ==> d[k] == info.value[k]
  {
    var glb := if info.Some? then info.value else map[];
    if "id" in glb then glb else glb["id" := Str(freshId)]
  }

  // -------------------------------------------------------------------
  // What a document iterates over

  /** The iteration source a document subclass provides. */
  datatype DocSource =
    | Abstract                  // SrcDocument itself: `get_chunks` is not implemented
    | Elements(elems: seq<Value>) // a subclass's `get_chunks`
    | AbstractTree              // TreeSrcDocument itself: `top_chunks` is not implemented
    | TreeTop(top: seq<Value>)  // a tree subclass's `top_chunks`

  /** `_yield_chunks(chunk)`: the chunk's payload if non-empty, then the
      payloads of its subchunks, depth first. */
  function YieldChunks(chunk: Value): (r: Result<seq<Value>>)
    ensures r.Ok? ==> chunk.Dict?
    ensures r.Ok? ==> forall k :: 0 <= k < |r.value| ==> Truthy(r.value[k])
    ensures !chunk.Dict? ==> r == Err(PyError(AttributeError))
    decreases chunk, 1
  {
    match chunk
    case Dict(m) =>
      var text := Get(m, "data", Null);
      var head := if Truthy(text) then [text] else [];
      if "chunks" !in m then Ok(head)
      else
        (match m["chunks"]
         case List(xs) =>
           (match FlattenAll(xs)
            case Ok(rest) => Ok(head + rest)
            case Err(e) => Err(e))
         case other => if Children(other).Ok? then Ok(head) else Err(Children(other).error))
    case _ => Err(PyError(AttributeError))
  }

  /** `get_chunks` of a tree document: every top-level chunk, flattened. */
  function FlattenAll(xs: seq<Value>): (r: Result<seq<Value>>)
    ensures r.Ok? ==> forall k :: 0 <= k < |r.value| ==> Truthy(r.value[k])
    decreases xs, 0
  {
    if |xs| == 0 then Ok([])
    else
      match YieldChunks(xs[0])
      case Err(e) => Err(e)
      case Ok(head) =>
        match FlattenAll(xs[1..])
        case Err(e) => Err(e)
        case Ok(rest) => Ok(head + rest)
  }

  /** A tree whose every node is a dict and whose `chunks`, when present,
      is a list. */
  predicate TreeShaped(v: Value)
    decreases v, 1
  {
    v.Dict? && ("chunks" in v.fields ==> v.fields["chunks"].List? && AllTreeShaped(v.fields["chunks"].items))
  }

  predicate AllTreeShaped(xs: seq<Value>)
    decreases xs, 0
  {
    forall k :: 0 <= k < |xs| ==> TreeShaped(xs[k])
  }

  /** The number of nodes with a non-empty payload. */
  function DataNodes(v: Value): nat
    decreases v, 1
  {
    match v
    case Dict(m) =>
      (if Truthy(Get(m, "data", Null)) then 1 else 0)
      + (if "chunks" in m && m["chunks"].List? then AllDataNodes(m["chunks"].items) else 0)
    case _ => 0
  }

  function AllDataNodes(xs: seq<Value>): nat
    decreases xs, 0
  {
    if |xs| == 0 then 0 else DataNodes(xs[0]) + AllDataNodes(xs[1..])
  }

  /** Flattening a well-shaped tree never fails and yields exactly one
      payload per node with data. */
  lemma {:induction false} FlattenShaped(v: Value)
    requires TreeShaped(v)
    ensures YieldChunks(v).Ok? && |YieldChunks(v).value| == DataNodes(v)
    decreases v, 1
  {
    var m := v.fields;
    if "chunks" in m {
      FlattenAllShaped(m["chunks"].items);
    }
  }

  lemma {:induction false} FlattenAllShaped(xs: seq<Value>)
    requires AllTreeShaped(xs)
    ensures FlattenAll(xs).Ok? && |FlattenAll(xs).value| == AllDataNodes(xs)
    decreases xs, 0
  {
    if |xs| > 0 {
      FlattenShaped(xs[0]);
      assert AllTreeShaped(xs[1..]) by {
        forall k | 0 <= k < |xs| - 1 ensures TreeShaped(xs[1..][k]) {
          assert xs[1..][k] == xs[k + 1];
        }
      }
      FlattenAllShaped(xs[1..]);
    }
  }

  /** Flattening a forest is flattening its parts one after the other (so
      the concatenation order is the document order). */
  lemma {:induction false} FlattenAllAppend(xs: seq<Value>, ys: seq<Value>)
    ensures FlattenAll(xs + ys) ==
      match FlattenAll(xs)
      case Err(e) => Err(e)
      case Ok(a) => match FlattenAll(ys) case Err(e) => Err(e) case Ok(b) => Ok(a + b)
  {
    if |xs| == 0 {
      assert xs + ys == ys;
      match FlattenAll(ys) {
        case Err(e) =>
        case Ok(b) => assert [] + b == b;
      }
    } else {
      assert (xs + ys)[0] == xs[0];
      assert (xs + ys)[1..] == xs[1..] + ys;
      FlattenAllAppend(xs[1..], ys);
      match FlattenAll(xs[1..]) {
        case Err(e) =>
        case Ok(a) =>
          match FlattenAll(ys) {
            case Err(e) =>
            case Ok(b) =>
              match YieldChunks(xs[0]) {
                case Err(e) =>
                case Ok(h) => assert h + (a + b) == (h + a) + b;
              }
          }
      }
    }
  }

  /** A node with no payload contributes nothing itself, but its subchunks
      are still visited. */
  lemma SkipsEmptyData(m: map<string, Value>, xs: seq<Value>)
    requires !Truthy(Get(m, "data", Null))
    ensures YieldChunks(Dict(m["chunks" := List(xs)])) == FlattenAll(xs)
  {
    var m2 := m["chunks" := List(xs)];
    assert Get(m2, "data", Null) == Get(m, "data", Null);
    match FlattenAll(xs) {
      case Err(e) =>
      case Ok(rest) => assert [] + rest == rest;
    }
  }

  /** `get_chunks()` for each kind of document. */
  function GetChunks(src: DocSource): (r: Result<seq<Value>>)
    ensures src.Abstract? || src.AbstractTree? ==> r == Err(Unimplemented)
    ensures src.Elements? ==> r == Ok(src.elems)
    ensures src.TreeTop? ==> r == FlattenAll(src.top)
  {
    match src
    case Abstract => Err(Unimplemented)
    case Elements(es) => Ok(es)
    case AbstractTree => Err(Unimplemented)
    case TreeTop(top) => FlattenAll(top)
  }

  // -------------------------------------------------------------------
  // Chunk iteration

  /** The id an element supplies: only a dict with "data" supplies one. */
  function ElemId(e: Value): (r: Value)
    ensures !(e.Dict? && "data" in e.fields) ==> r == Null
    ensures e.Dict? && "data" in e.fields && "id" in e.fields ==> r == e.fields["id"]
    ensures e.Dict? && "id" !in e.fields ==> r == Null
  {
    if e.Dict? && "data" in e.fields then Get(e.fields, "id", Null) else Null
  }

  /** The payload of an element: the "data" of a dict that has one, else
      the element itself. */
  function Payload(e: Value): (r: Value)
    ensures !e.Dict? ==> r == e
    ensures e.Dict? && "data" in e.fields ==> r == e.fields["data"]
    ensures e.Dict? && "data" !in e.fields ==> r == e
  {
    if e.Dict? && "data" in e.fields then e.fields["data"] else e
  }

  function ElemIds(elems: seq<Value>): (r: seq<Value>)
    ensures |r| == |elems| && forall k :: 0 <= k < |elems| ==> r[k] == ElemId(elems[k])
  {
    seq(|elems|, k requires 0 <= k < |elems| => ElemId(elems[k]))
  }

  /** The chunks of an iteration without neighbours: ids (as strings) from
      the elements or the counter, payloads, and the given context. */
  function Chunks(counter: int, elems: seq<Value>, context: Value): (r: seq<Chunk>)
    ensures |r| == |elems|
    ensures forall k :: 0 <= k < |elems| ==> r[k].data == Payload(elems[k]) && r[k].context == context
  {
    seq(|elems|, k requires 0 <= k < |elems| =>
      Chunk(Str(PyStr(AssignIds(counter, ElemIds(elems))[k])), Payload(elems[k]), context))
  }

  /** Chunk ids: an element's own id, as a string, or else the next
      counter value, so id-less elements are numbered consecutively. */
  lemma ChunkIds(counter: int, elems: seq<Value>, context: Value)
    ensures forall k :: 0 <= k < |elems| ==> (Chunks(counter, elems, context)[k].id ==
      Str(PyStr(if ElemId(elems[k]) != Null then ElemId(elems[k]) else Int(counter + 1 + Missing(ElemIds(elems)[..k])))))
  {
    forall k | 0 <= k < |elems|
      ensures Chunks(counter, elems, context)[k].id ==
        Str(PyStr(if ElemId(elems[k]) != Null then ElemId(elems[k]) else Int(counter + 1 + Missing(ElemIds(elems)[..k]))))
    {
      ChunkIdAt(counter, elems, context, k);
    }
  }

  lemma ChunkIdAt(counter: int, elems: seq<Value>, context: Value, k: nat)
    requires k < |elems|
    ensures Chunks(counter, elems, context)[k].id ==
      Str(PyStr(if ElemId(elems[k]) != Null then ElemId(elems[k]) else Int(counter + 1 + Missing(ElemIds(elems)[..k]))))
  {
    var ids := ElemIds(elems);
    AssignIdsAt(counter, ids, k);
    assert Chunks(counter, elems, context)[k].id == Str(PyStr(AssignIds(counter, ids)[k]));
  }

  /** The i-th chunk, and how the count of missing ids grows with it. */
  lemma ChunksAt(counter: int, elems: seq<Value>, context: Value, i: nat)
    requires i < |elems|
    ensures var ids := ElemIds(elems);
      Missing(ids[..i + 1]) == Missing(ids[..i]) + (if ids[i] == Null then 1 else 0)
      && Chunks(counter, elems, context)[i] ==
         Chunk(Str(PyStr(if ElemId(elems[i]) != Null then ElemId(elems[i]) else Int(counter + Missing(ids[..i]) + 1))),
               Payload(elems[i]), context)
  {
    var ids := ElemIds(elems);
    assert ids[..i + 1][..i] == ids[..i];
    AssignIdsSpec(counter, ids);
  }

  lemma AssignIdsPrefix(counter: int, ids: seq<Value>, i: nat)
    requires i <= |ids|
    ensures AssignIds(counter, ids[..i]) == AssignIds(counter, ids)[..i]
  {
    var a := AssignIds(counter, ids[..i]);
    var b := AssignIds(counter, ids);
    forall k | 0 <= k < i ensures a[k] == b[k] {
      AssignIdsAt(counter, ids, k);
      AssignIdsAt(counter, ids[..i], k);
      assert ids[..i][..k] == ids[..k];
    }
  }

  lemma ChunksPrefix(counter: int, elems: seq<Value>, context: Value, i: nat)
    requires i <= |elems|
    ensures Chunks(counter, elems[..i], context) == Chunks(counter, elems, context)[..i]
  {
    assert ElemIds(elems[..i]) == ElemIds(elems)[..i];
    AssignIdsPrefix(counter, ElemIds(elems), i);
  }

  /** `_chunk(before, current, after)`: the current (id, payload) pair with a
      copy of the metadata views plus the neighbouring payloads. */
  function ContextChunk(views: map<string, Value>, before: Option<(Value, Value)>, current: (Value, Value),
                        after: Option<(Value, Value)>): (r: Chunk)
    ensures r.id == current.0 && r.data == current.1 && r.context.Dict?
    ensures r.context.fields.Keys == views.Keys + (if before.Some? then {"before"} else {}) + (if after.Some? then {"after"} else {})
    ensures before.Some? ==> r.context.fields["before"] == before.value.1
    ensures after.Some? ==> r.context.fields["after"] == after.value.1
    ensures forall k :: k in views && k != "before" && k != "after" ==> r.context.fields[k] == views[k]
  {
    var c1 := if before.Some? then views["before" := before.value.1] else views;
    var c2 := if after.Some? then c1["after" := after.value.1] else c1;
    Chunk(current.0, current.1, Dict(c2))
  }

  function Pair(c: Chunk): (Value, Value) { (c.id, c.data) }

  lemma ContextChunkIsNeighboured(views: map<string, Value>, s: seq<Chunk>, j: nat)
    requires j < |s| && s[j].context == Dict(views)
    ensures ContextChunk(views, if j > 0 then Some(Pair(s[j - 1])) else None, Pair(s[j]),
                         if j + 1 < |s| then Some(Pair(s[j + 1])) else None) == Neighboured(s, j)
  {
  }

  class SrcDocument {
    const doCtx: bool
    const source: DocSource
    var chunkId: int
    var meta: Meta
    var ctx: map<string, Value>

    constructor (documentInfo: Option<map<string, Value>>, addChunkContext: bool, freshId: string, src: DocSource)
      ensures doCtx == addChunkContext && source == src && chunkId == 0
      ensures meta == map[Defs.META_DOC := HeaderDocument(documentInfo, freshId)]
    {
      doCtx := addChunkContext;
      source := src;
      chunkId := 0;
      meta := map[Defs.META_DOC := HeaderDocument(documentInfo, freshId)];
      ctx := map[];
    }

    /** The full header: the metadata sections (a read-only view). */
    function Header(): Meta
      reads this
    {
      meta
    }

    method SetId(id: Value)
      modifies this
      ensures meta == old(meta)[Defs.META_DOC := (if Defs.META_DOC in old(meta) then old(meta)[Defs.META_DOC] else map[])["id" := id]]
      ensures chunkId == old(chunkId) && ctx == old(ctx)
    {
      var d := if Defs.META_DOC in meta then meta[Defs.META_DOC] else map[];
      meta := meta[Defs.META_DOC := d["id" := id]];
    }

    method SetHeaderDocument(documentInfo: Option<map<string, Value>>, freshId: string)
      modifies this
      ensures meta == old(meta)[Defs.META_DOC := HeaderDocument(documentInfo, freshId)]
      ensures chunkId == old(chunkId) && ctx == old(ctx)
    {
      var glb := if documentInfo.Some? then documentInfo.value else map[];
      if "id" !in glb {
        glb := glb["id" := Str(freshId)];
      }
      meta := meta[Defs.META_DOC := glb];
    }

    /** `add_metadata(**sections)`, one section at a time. */
    method AddMetadata(sections: Meta)
      modifies this
      ensures meta == MergeSections(old(meta), sections)
      ensures chunkId == old(chunkId) && ctx == old(ctx)
    {
      var todo := sections.Keys;
      ghost var m0 := meta;
      ghost var done: set<string> := {};
      assert meta == SectionsUpTo(m0, sections, done);
      while todo != {}
        invariant todo == sections.Keys - done && done <= sections.Keys
        invariant meta == SectionsUpTo(m0, sections, done)
        invariant chunkId == old(chunkId) && ctx == old(ctx)
        decreases todo
      {
        var k :| k in todo;
        SectionsStep(m0, sections, done, k);
        var section := if k in meta then meta[k] else map[];
        meta := meta[k := Update(section, sections[k])];
        todo := todo - {k};
        done := done + {k};
      }
      assert done == sections.Keys;
    }

    /** `iter_chunks(add_context)`: the chunks a full iteration yields. With
        context, each carries a copy of the metadata views and its
        neighbours' payloads; without, the context is None. The counter is a
        field, so a second iteration continues the numbering. */
    method IterChunks(addContext: Option<bool>) returns (r: Result<seq<Chunk>>)
      modifies this
      ensures meta == old(meta)
      ensures var on := if addContext.Some? then addContext.value else doCtx;
        ctx == (if on then Views(meta) else old(ctx))
        && match GetChunks(source)
           case Err(e) => r == Err(e) && chunkId == old(chunkId)
           case Ok(elems) =>
             chunkId == old(chunkId) + Missing(ElemIds(elems))
             && r == Ok(if on then WithNeighbours(Chunks(old(chunkId), elems, Dict(Views(meta))))
                        else Chunks(old(chunkId), elems, Null))
    {
      var on := if addContext.Some? then addContext.value else doCtx;
      if on {
        ctx := Views(meta);
      }
      var got := GetChunks(source);
      if got.Err? {
        return Err(got.error);
      }
      var outs := Emit(got.value, on, ctx);
      r := Ok(outs);
    }

    /** The loop of `iter_chunks` over the elements: ids from the counter,
        and the before/current window when context is on. */
    method Emit(elems: seq<Value>, on: bool, views: map<string, Value>) returns (outs: seq<Chunk>)
      modifies this
      ensures meta == old(meta) && ctx == old(ctx)
      ensures chunkId == old(chunkId) + Missing(ElemIds(elems))
      ensures outs == if on then WithNeighbours(Chunks(old(chunkId), elems, Dict(views)))
                      else Chunks(old(chunkId), elems, Null)
    {
      ghost var c0 := chunkId;
      var before: Option<(Value, Value)> := None;
      var current: Option<(Value, Value)> := None;
      outs := [];
      var i := 0;
      while i < |elems|
        invariant i <= |elems|
        invariant meta == old(meta) && ctx == old(ctx)
        invariant Emitted(c0, elems, on, views, i, chunkId, before, current, outs)
      {
        chunkId, before, current, outs := EmitOne(c0, elems, on, views, i, chunkId, before, current, outs);
        i := i + 1;
      }
      ghost var spec := EmittedAll(c0, elems, on, views, chunkId, before, current, outs);
      if on {
        WindowDone(views, spec, before, current, outs);
        if current.Some? {
          outs := outs + [ContextChunk(views, before, current.value, None)];
        } else if before.Some? {
          outs := outs + [ContextChunk(views, None, before.value, None)];
        }
      }
    }
  }

  /** The state of the `iter_chunks` loop after the first i elements: the
      counter has advanced past the id-less ones, and the chunks released
      are the first i (without context), or those whose window has closed. */
  ghost predicate Emitted(c0: int, elems: seq<Value>, on: bool, views: map<string, Value>, i: nat, counter: int,
                          before: Option<(Value, Value)>, current: Option<(Value, Value)>, outs: seq<Chunk>)
  {
    && i <= |elems|
    && counter == c0 + Missing(ElemIds(elems)[..i])
    && var spec := Chunks(c0, elems, if on then Dict(views) else Null);
       if on then WindowAt(spec, i, before, current, outs) else outs == spec[..i]
  }

  /** One pass of the `iter_chunks` loop body. */
  method EmitOne(ghost c0: int, elems: seq<Value>, on: bool, views: map<string, Value>, i: nat, counter: int,
                 before: Option<(Value, Value)>, current: Option<(Value, Value)>, outs: seq<Chunk>)
    returns (counter': int, before': Option<(Value, Value)>, current': Option<(Value, Value)>, outs': seq<Chunk>)
    requires i < |elems| && Emitted(c0, elems, on, views, i, counter, before, current, outs)
    ensures Emitted(c0, elems, on, views, i + 1, counter', before', current', outs')
  {
    ghost var context := if on then Dict(views) else Null;
    ghost var spec := Chunks(c0, elems, context);
    var id := ElemId(elems[i]);
    var data := Payload(elems[i]);
    counter' := counter;
    if id == Null {
      counter' := counter + 1;
      id := Int(counter');
    }
    EmitItem(c0, elems, context, i, id);
    var item := (Str(PyStr(id)), data);
    if !on {
      PrefixSnoc(spec, i);
      before', current', outs' := before, current, outs + [Chunk(item.0, item.1, Null)];
    } else {
      before', current', outs' := Slide(views, spec, i, before, current, outs, item);
    }
  }

  /** After the last element. */
  lemma EmittedAll(c0: int, elems: seq<Value>, on: bool, views: map<string, Value>, counter: int,
                   before: Option<(Value, Value)>, current: Option<(Value, Value)>, outs: seq<Chunk>)
    returns (spec: seq<Chunk>)
    requires Emitted(c0, elems, on, views, |elems|, counter, before, current, outs)
    ensures spec == Chunks(c0, elems, if on then Dict(views) else Null)
    ensures counter == c0 + Missing(ElemIds(elems))
    ensures on ==> SameContext(spec, views) && WindowAt(spec, |spec|, before, current, outs)
    ensures !on ==> outs == spec
  {
    spec := Chunks(c0, elems, if on then Dict(views) else Null);
    assert ElemIds(elems)[..|elems|] == ElemIds(elems);
    assert spec[..|elems|] == spec;
  }

  /** The chunk the i-th element gives, and the counter after it. */
  lemma EmitItem(c0: int, elems: seq<Value>, context: Value, i: nat, id: Value)
    requires i < |elems|
    requires id == if ElemId(elems[i]) != Null then ElemId(elems[i]) else Int(c0 + Missing(ElemIds(elems)[..i]) + 1)
    ensures Chunks(c0, elems, context)[i] == Chunk(Str(PyStr(id)), Payload(elems[i]), context)
    ensures Missing(ElemIds(elems)[..i + 1]) == Missing(ElemIds(elems)[..i]) + (if ElemId(elems[i]) == Null then 1 else 0)
  {
    ChunksAt(c0, elems, context, i);
  }

  /** One step of the context window: `item`, the pair of the i-th chunk,
      enters it, and the chunk whose neighbours are now both known is
      emitted. */
  method Slide(views: map<string, Value>, ghost s: seq<Chunk>, ghost i: nat, before: Option<(Value, Value)>,
               current: Option<(Value, Value)>, outs: seq<Chunk>, item: (Value, Value))
    returns (before': Option<(Value, Value)>, current': Option<(Value, Value)>, outs': seq<Chunk>)
    requires i < |s| && SameContext(s, views) && WindowAt(s, i, before, current, outs) && item == Pair(s[i])
    ensures WindowAt(s, i + 1, before', current', outs')
  {
    if before.None? {
      WindowFirstStep(s, i, outs);
      before', current', outs' := Some(item), current, outs;
    } else if current.None? {
      WindowSecondStep(views, s, i, before, outs);
      before', current', outs' := before, Some(item), outs + [ContextChunk(views, None, before.value, Some(item))];
    } else {
      WindowLaterStep(views, s, i, before, current, outs);
      before', current', outs' := current, Some(item), outs + [ContextChunk(views, before, current.value, Some(item))];
    }
  }

  lemma WindowFirstStep(s: seq<Chunk>, i: nat, outs: seq<Chunk>)
    requires i < |s| && WindowAt(s, i, None, None, outs)
    ensures WindowAt(s, i + 1, Some(Pair(s[i])), None, outs)
  {
  }

  lemma WindowSecondStep(views: map<string, Value>, s: seq<Chunk>, i: nat, before: Option<(Value, Value)>,
                          outs: seq<Chunk>)
    requires i < |s| && SameContext(s, views) && WindowAt(s, i, before, None, outs) && before.Some?
    ensures WindowAt(s, i + 1, before, Some(Pair(s[i])),
                     outs + [ContextChunk(views, None, before.value, Some(Pair(s[i])))])
  {
    WindowSecond(views, s);
  }

  lemma WindowLaterStep(views: map<string, Value>, s: seq<Chunk>, i: nat, before: Option<(Value, Value)>,
                         current: Option<(Value, Value)>, outs: seq<Chunk>)
    requires i < |s| && SameContext(s, views) && WindowAt(s, i, before, current, outs)
    requires before.Some? && current.Some?
    ensures WindowAt(s, i + 1, current, Some(Pair(s[i])),
                     outs + [ContextChunk(views, before, current.value, Some(Pair(s[i])))])
  {
    WindowLater(views, s, i);
  }

  /** Flushing the window after the last element completes the stream. */
  lemma WindowDone(views: map<string, Value>, s: seq<Chunk>, before: Option<(Value, Value)>,
                   current: Option<(Value, Value)>, outs: seq<Chunk>)
    requires SameContext(s, views) && WindowAt(s, |s|, before, current, outs)
    ensures current.Some? ==> outs + [ContextChunk(views, before, current.value, None)] == WithNeighbours(s)
    ensures current.None? && before.Some? ==> outs + [ContextChunk(views, None, before.value, None)] == WithNeighbours(s)
    ensures current.None? && before.None? ==> outs == WithNeighbours(s)
  {
    WindowFinal(views, s);
    assert s[..|s|] == s;
  }

  /** The pair window of the iterator after `i` elements of `s`: nothing;
      the first pair held back; or the last two pairs held back and every
      earlier chunk released with its neighbours. */
  ghost predicate WindowAt(s: seq<Chunk>, i: nat, before: Option<(Value, Value)>, current: Option<(Value, Value)>,
                           outs: seq<Chunk>)
    requires i <= |s|
  {
    if i == 0 then before.None? && current.None? && outs == []
    else if i == 1 then before == Some(Pair(s[0])) && current.None? && outs == []
    else before == Some(Pair(s[i - 2])) && current == Some(Pair(s[i - 1])) && outs == WithNeighbours(s[..i])[..i - 1]
  }

  predicate SameContext(s: seq<Chunk>, views: map<string, Value>)
  {
    forall k :: 0 <= k < |s| ==> s[k].context == Dict(views)
  }

  lemma WindowSecond(views: map<string, Value>, s: seq<Chunk>)
    requires |s| >= 2 && SameContext(s, views)
    ensures WithNeighbours(s[..2])[..1] == [ContextChunk(views, None, Pair(s[0]), Some(Pair(s[1])))]
  {
    ContextChunkIsNeighboured(views, s[..2], 0);
  }

  lemma WindowLater(views: map<string, Value>, s: seq<Chunk>, i: nat)
    requires 2 <= i < |s| && SameContext(s, views)
    ensures WithNeighbours(s[..i + 1])[..i] ==
      WithNeighbours(s[..i])[..i - 1] + [ContextChunk(views, Some(Pair(s[i - 2])), Pair(s[i - 1]), Some(Pair(s[i])))]
  {
    var t := s[..i + 1];
    assert t[..|t| - 1] == s[..i];
    WithNeighboursSnoc(t);
    ContextChunkIsNeighboured(views, t, i - 1);
  }

  lemma WindowFinal(views: map<string, Value>, s: seq<Chunk>)
    requires SameContext(s, views)
    ensures |s| == 0 ==> WithNeighbours(s) == []
    ensures |s| == 1 ==> WithNeighbours(s) == [ContextChunk(views, None, Pair(s[0]), None)]
    ensures |s| >= 2 ==> (WithNeighbours(s) ==
      WithNeighbours(s)[..|s| - 1] + [ContextChunk(views, Some(Pair(s[|s| - 2])), Pair(s[|s| - 1]), None)])
  {
    if |s| == 1 {
      ContextChunkIsNeighboured(views, s, 0);
    } else if |s| >= 2 {
      ContextChunkIsNeighboured(views, s, |s| - 1);
      assert WithNeighbours(s) == WithNeighbours(s)[..|s| - 1] + [WithNeighbours(s)[|s| - 1]];
    }
  }
}
