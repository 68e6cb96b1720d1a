// The older chunk generators (types/chunker.py): `DocumentChunk` is a plain
// (id, data, context) tuple, ids are not converted to strings, the plain
// generator returns the context it is given, and there is no default
// language. The context generator wraps the same neighbour window.

module LegacyChunker {
  import opened Values
  import opened Window

  /** `ChunkGenerator.__call__(elem, ctx)`: the counter moves for an id-less
      element before the payload is read; a missing payload is a KeyError. */
  function Build(counter: int, elem: Elem, ctx: Value): (r: (int, Result<Chunk>))
    ensures r.0 == if Get(elem, "id", Null) == Null then counter + 1 else counter
    ensures r.1.Ok? <==> "data" in elem
    ensures r.1.Err? ==> r.1.error == PyError(KeyError)
    ensures r.1.Ok? ==> r.1.value == Chunk(if Get(elem, "id", Null) == Null then Int(counter + 1) else elem["id"], elem["data"], ctx)
  {
    var (n, id) := NextId(counter, Get(elem, "id", Null));
    if "data" !in elem then (n, Err(PyError(KeyError)))
    else (n, Ok(Chunk(id, elem["data"], ctx)))
  }

  class ChunkGenerator {
    var chunkId: int

    constructor ()
      ensures chunkId == 0
    {
      chunkId := 0;
    }

    method Call(elem: Elem, ctx: Value) returns (r: Result<Chunk>)
      modifies this
      ensures (chunkId, r) == Build(old(chunkId), elem, ctx)
    {
      var id := Get(elem, "id", Null);
      if id == Null {
        chunkId := chunkId + 1;
        id := Int(chunkId);
      }
      if "data" !in elem {
        return Err(PyError(KeyError));
      }
      r := Ok(Chunk(id, elem["data"], ctx));
    }
  }

  /** The chunk builder of the context generator. */
  function ContextBuild(views: map<string, Value>, counter: int, elem: Elem): (r: (int, Result<Chunk>))
    ensures ElemContext(views, elem).Err? ==> r == (counter, Err(ElemContext(views, elem).error))
    ensures ElemContext(views, elem).Ok? ==> r == Build(counter, elem, ElemContext(views, elem).value)
  {
    match ElemContext(views, elem)
    case Err(e) => (counter, Err(e))
    case Ok(context) => Build(counter, elem, context)
  }

  function ContextBuilder(views: map<string, Value>): Builder
  {
    (n: int, e: Elem) => ContextBuild(views, n, e)
  }

  class ContextChunkGenerator {
    const views: map<string, Value>
    var chunkId: int
    var before: Option<Chunk>
    var current: Option<Chunk>

    /** Absent metadata is treated as empty metadata. */
    constructor (meta: Option<map<string, map<string, Value>>>)
      ensures views == Views(if meta.Some? then meta.value else map[])
      ensures chunkId == 0 && before == None && current == None
    {
      views := Views(if meta.Some? then meta.value else map[]);
      chunkId := 0;
      before := None;
      current := None;
    }

    /** `__call__(elem)`; `elem == None` is the final flush. */
    method Call(elem: Option<Elem>) returns (r: Result<Option<Chunk>>)
      modifies this
      ensures elem.None? ==>
        chunkId == old(chunkId) && (Window(before, current), r) == Final(Window(old(before), old(current)))
      ensures elem.Some? ==>
        var (n, b) := ContextBuild(views, old(chunkId), elem.value);
        chunkId == n
        && (b.Err? ==> r == Err(b.error) && before == old(before) && current == old(current))
        && (b.Ok? ==> (Window(before, current), r) == Shift(Window(old(before), old(current)), b.value))
    {
      if elem.None? {
        var (w, o) := Final(Window(before, current));
        before, current := w.before, w.current;
        return o;
      }
      var context := ElemContext(views, elem.value);
      if context.Err? {
        return Err(context.error);
      }
      var (n, b) := Build(chunkId, elem.value, context.value);
      chunkId := n;
      if b.Err? {
        return Err(b.error);
      }
      var (w, o) := Shift(Window(before, current), b.value);
      before, current := w.before, w.current;
      r := o;
    }
  }

  /** The tuple an element becomes, given its id: the raw id, the payload,
      and the metadata views overlaid with the element context. */
  function ElemChunk(views: map<string, Value>, elem: Elem, id: Value): (c: Chunk)
    ensures c.id == id && c.data == Get(elem, "data", Null)
    ensures ElemContext(views, elem).Ok? ==> c.context == ElemContext(views, elem).value
  {
    var base := ElemContext(views, elem);
    Chunk(id, Get(elem, "data", Null), if base.Ok? then base.value else Dict(views))
  }

  function ElemChunker(views: map<string, Value>): (Elem, Value) -> Chunk
  {
    (e: Elem, id: Value) => ElemChunk(views, e, id)
  }

  lemma ContextBuilderRegular(views: map<string, Value>, elems: seq<Elem>)
    requires WellFormed(elems)
    ensures Regular(ContextBuilder(views), ElemChunker(views), elems)
  {
  }

  /** Whatever the metadata (also none), a session of well-formed elements
      releases every element's tuple, in order, with its neighbours'
      payloads; auto-assigned ids are the raw counter values 1, 2, 3, … */
  lemma ContextSession(views: map<string, Value>, elems: seq<Elem>)
    requires WellFormed(elems)
    ensures Session(ContextBuilder(views), elems) == Ok(WithNeighbours(Made(ElemChunker(views), elems)))
  {
    ContextBuilderRegular(views, elems);
    SessionIsWithNeighbours(ContextBuilder(views), ElemChunker(views), elems);
  }
}
