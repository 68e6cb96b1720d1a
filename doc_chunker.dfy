// The newer chunk generators (types/doc/chunker.py): `DocumentChunk`, the
// plain `ChunkGenerator` (ids, context choice, default language) and the
// `ContextChunkGenerator`, which adds the metadata views and the
// before/after neighbour window.

module DocChunker {
  import opened Values
  import opened Window
  import Defs

  /** `DocumentChunk(id, data, context)`: the id is always stored as `str(id)`;
      equality of chunks compares exactly (id, data, context). */
  function NewChunk(id: Value, data: Value, context: Value): (c: Chunk)
    ensures c.id.Str? && c.data == data && c.context == context
    ensures id.Str? ==> c.id == id
    ensures id.Int? ==> c.id == Str(IntToString(id.i))
  {
    Chunk(Str(PyStr(id)), data, context)
  }

  /** `asdict(context)`: id and data always; the context only when it is
      requested and non-empty. */
  function AsDict(c: Chunk, withContext: bool): (d: map<string, Value>)
    ensures d.Keys == {"id", "data"} + (if withContext && Truthy(c.context) then {"context"} else {})
    ensures d["id"] == c.id && d["data"] == c.data
    ensures "context" in d ==> d["context"] == c.context
  {
    var base := map["id" := c.id, "data" := c.data];
    if withContext && Truthy(c.context) then base["context" := c.context] else base
  }

  /** The context a chunk starts from: the passed `ctx` when non-empty,
      otherwise the element's own `context` (None when it has none). */
  function ChooseContext(ctx: Value, elem: map<string, Value>): (r: Value)
    ensures Truthy(ctx) ==> r == ctx
    ensures !Truthy(ctx) ==> r == Get(elem, "context", Null)
  {
    if Truthy(ctx) then ctx else Get(elem, "context", Null)
  }

  /** Default-language injection. With no default language the context is
      untouched; otherwise an empty context becomes {lang}, a dict without
      "lang" gains it and one with "lang" keeps its own. A non-dict value that
      does not already contain "lang" cannot take the assignment. */
  function WithLang(context: Value, lang: Value): (r: Result<Value>)
    ensures !Truthy(lang) ==> r == Ok(context)
    ensures Truthy(lang) && !Truthy(context) ==> r == Ok(Dict(map["lang" := lang]))
    ensures Truthy(lang) && context.Dict? && Truthy(context) ==>
      r.Ok? && r.value.Dict? && "lang" in r.value.fields
      && r.value.fields["lang"] == (if "lang" in context.fields then context.fields["lang"] else lang)
      && r.value.fields.Keys == context.fields.Keys + {"lang"}
      && (forall k :: k in context.fields && k != "lang" ==> r.value.fields[k] == context.fields[k])
    ensures r.Err? ==> r == Err(PyError(TypeError)) && Truthy(lang) && Truthy(context) && !context.Dict?
  {
    if !Truthy(lang) then Ok(context)
    else if !Truthy(context) then Ok(Dict(map["lang" := lang]))
    else
      match context
      case Dict(m) => if "lang" in m then Ok(context) else Ok(Dict(m["lang" := lang]))
      case Str(s) => if Contains(s, "lang") then Ok(context) else Err(PyError(TypeError))
      case List(xs) => if Str("lang") in xs then Ok(context) else Err(PyError(TypeError))
      case _ => Err(PyError(TypeError))
  }

  /** `ChunkGenerator.__call__(elem, ctx)`: returns the new counter and the
      chunk. The counter moves before the context and the payload are looked
      at, so it also moves when those fail. */
  function Build(counter: int, lang: Value, elem: map<string, Value>, ctx: Value): (r: (int, Result<Chunk>))
    ensures r.0 == if Get(elem, "id", Null) == Null then counter + 1 else counter
    ensures r.1.Ok? <==> "data" in elem && WithLang(ChooseContext(ctx, elem), lang).Ok?
    ensures r.1.Ok? ==> r.1.value.data == elem["data"]
    ensures r.1.Ok? && Get(elem, "id", Null) != Null ==> r.1.value.id == Str(PyStr(elem["id"]))
    ensures r.1.Ok? && Get(elem, "id", Null) == Null ==> r.1.value.id == Str(IntToString(counter + 1))
    ensures r.1.Ok? ==> r.1.value.context == WithLang(ChooseContext(ctx, elem), lang).value
    ensures "data" !in elem && WithLang(ChooseContext(ctx, elem), lang).Ok? ==> r.1 == Err(PyError(KeyError))
  {
    var (n, id) := NextId(counter, Get(elem, "id", Null));
    match WithLang(ChooseContext(ctx, elem), lang)
    case Err(e) => (n, Err(e))
    case Ok(context) =>
      if "data" !in elem then (n, Err(PyError(KeyError)))
      else (n, Ok(NewChunk(id, elem["data"], context)))
  }

  /** The dict form of a chunk with a string id and a non-empty (or no)
      context regenerates that chunk, without moving the counter. */
  lemma RegenerateFromDict(c: Chunk, counter: int)
    requires c.id.Str? && (Truthy(c.context) || c.context == Null)
    ensures Build(counter, Null, AsDict(c, true), Null) == (counter, Ok(c))
  {
  }

  class ChunkGenerator {
    const lang: Value
    var chunkId: int

    constructor (defaultLang: Value)
      ensures lang == defaultLang && chunkId == 0
    {
      lang := defaultLang;
      chunkId := 0;
    }

    method Call(elem: map<string, Value>, ctx: Value) returns (r: Result<Chunk>)
      modifies this
      ensures (chunkId, r) == Build(old(chunkId), lang, elem, ctx)
    {
      var id := Get(elem, "id", Null);
      if id == Null {
        chunkId := chunkId + 1;
        id := Int(chunkId);
      }
      var context := ChooseContext(ctx, elem);
      var withLang := WithLang(context, lang);
      if withLang.Err? {
        return Err(withLang.error);
      }
      if "data" !in elem {
        return Err(PyError(KeyError));
      }
      r := Ok(NewChunk(id, elem["data"], withLang.value));
    }
  }

  // -------------------------------------------------------------------
  // ContextChunkGenerator

  type Meta = map<string, map<string, Value>>

  /** The default language: `main_lang` of the "document" section, if any. */
  function DefaultLang(views: map<string, Value>): (lang: Value)
    ensures Defs.META_DOC in views && views[Defs.META_DOC].Dict? && "main_lang" in views[Defs.META_DOC].fields
      ==> lang == views[Defs.META_DOC].fields["main_lang"]
    ensures Defs.META_DOC !in views ==> lang == Null
  {
    if Defs.META_DOC in views && views[Defs.META_DOC].Dict?
    then Get(views[Defs.META_DOC].fields, "main_lang", Null) else Null
  }

  /** Constructor as written: the views are built from `meta` before the
      `meta is None` test, so a generator without metadata cannot be made. */
  function InitAsWritten(meta: Option<Meta>): (r: Result<(map<string, Value>, Value)>)
    ensures r.Err? <==> meta.None?
    ensures r.Err? ==> r.error == PyError(AttributeError)
    ensures r.Ok? ==> r.value.0.Keys == meta.value.Keys && r.value.1 == DefaultLang(r.value.0)
    ensures r.Ok? ==> forall k :: k in meta.value ==> r.value.0[k] == Dict(meta.value[k])
  {
    if meta.None? then Err(PyError(AttributeError))
    else var views := Views(meta.value); Ok((views, DefaultLang(views)))
  }

  lemma InitAsWrittenRejectsNoMetadata()
    ensures InitAsWritten(None) == Err(PyError(AttributeError))
  {
  }

  /** Constructor as intended: absent metadata is empty metadata (as in the
      older generator). Returns the metadata views and the default language. */
  function Init(meta: Option<Meta>): (r: (map<string, Value>, Value))
    ensures meta.Some? ==> InitAsWritten(meta) == Ok(r)
    ensures meta.None? ==> r == (map[], Null)
  {
    var views := Views(if meta.Some? then meta.value else map[]);
    (views, DefaultLang(views))
  }

  /** The chunk builder of a context generator: the element context (a
      fresh copy of the metadata views overlaid with the element's own
      context), then the plain generator's rules. The counter does not move
      when `update` refuses the element context. */
  function ContextBuild(views: map<string, Value>, lang: Value, counter: int, elem: Elem): (r: (int, Result<Chunk>))
    ensures ElemContext(views, elem).Err? ==> r == (counter, Err(ElemContext(views, elem).error))
    ensures ElemContext(views, elem).Ok? ==> r == Build(counter, lang, elem, ElemContext(views, elem).value)
  {
    match ElemContext(views, elem)
    case Err(e) => (counter, Err(e))
    case Ok(context) => Build(counter, lang, elem, context)
  }

  function ContextBuilder(views: map<string, Value>, lang: Value): Builder
  {
    (n: int, e: Elem) => ContextBuild(views, lang, n, e)
  }

  class ContextChunkGenerator {
    const views: map<string, Value>
    const lang: Value
    var chunkId: int
    var before: Option<Chunk>
    var current: Option<Chunk>

    constructor (meta: Option<Meta>)
      ensures (views, lang) == Init(meta)
      ensures chunkId == 0 && before == None && current == None
    {
      var m := if meta.Some? then meta.value else map[];
      views := Views(m);
      lang := DefaultLang(Views(m));
      chunkId := 0;
      before := None;
      current := None;
    }

    /** `__call__(elem)`; `elem == None` is the final flush. */
    method Call(elem: Option<map<string, Value>>) returns (r: Result<Option<Chunk>>)
      modifies this
      ensures elem.None? ==>
        chunkId == old(chunkId) && (Window(before, current), r) == Final(Window(old(before), old(current)))
      ensures elem.Some? ==>
        var (n, b) := ContextBuild(views, lang, old(chunkId), elem.value);
        chunkId == n
        && (b.Err? ==> r == Err(b.error) && before == old(before) && current == old(current))
        && (b.Ok? ==> (Window(before, current), r) == Shift(Window(old(before), old(current)), b.value))
    {
      if elem.None? {
        var (w, o) := Final(Window(before, current));
        before, current := w.before, w.current;
        return o;
      }
      var context := ElemContext(views, elem.value);
      if context.Err? {
        return Err(context.error);
      }
      var (n, b) := Build(chunkId, lang, elem.value, context.value);
      chunkId := n;
      if b.Err? {
        return Err(b.error);
      }
      var (w, o) := Shift(Window(before, current), b.value);
      before, current := w.before, w.current;
      r := o;
    }
  }

  // -------------------------------------------------------------------
  // A whole session: every element pushed, then the flush

  /** The chunk a well-formed element becomes, given its id, before the
      neighbours are added: id as a string, the element's payload, and the
      metadata views overlaid with the element context, with the default
      language added when the context has none. */
  function ElemChunk(views: map<string, Value>, lang: Value, elem: Elem, id: Value): (c: Chunk)
    ensures "data" in elem ==> c == NewChunk(id, elem["data"], c.context)
    ensures "data" in elem && ElemContext(views, elem).Ok? && |views| > 0 ==>
      var base := ElemContext(views, elem).value;
      c.context.Dict?
      && c.context.fields.Keys == base.fields.Keys + (if Truthy(lang) then {"lang"} else {})
      && (forall k :: k in base.fields && k != "lang" ==> c.context.fields[k] == base.fields[k])
      && ("lang" in base.fields ==> c.context.fields["lang"] == base.fields["lang"])
      && ("lang" !in base.fields && Truthy(lang) ==> c.context.fields["lang"] == lang)
  {
    var base := ElemContext(views, elem);
    ContextTruthy(views, elem);
    var withLang := WithLang(if base.Ok? then base.value else Null, lang);
    NewChunk(id, Get(elem, "data", Null), if withLang.Ok? then withLang.value else Null)
  }

  /** Over non-empty metadata, an element's context is a non-empty dict. */
  lemma ContextTruthy(views: map<string, Value>, elem: Elem)
    ensures |views| > 0 && ElemContext(views, elem).Ok? ==>
      ElemContext(views, elem).value.Dict? && Truthy(ElemContext(views, elem).value)
  {
    if |views| > 0 && ElemContext(views, elem).Ok? {
      var m := ElemContext(views, elem).value.fields;
      var k :| k in views;
      assert k in m;
    }
  }

  function ElemChunker(views: map<string, Value>, lang: Value): (Elem, Value) -> Chunk
  {
    (e: Elem, id: Value) => ElemChunk(views, lang, e, id)
  }

  lemma ContextBuilderRegular(views: map<string, Value>, lang: Value, elems: seq<Elem>)
    requires WellFormed(elems) && |views| > 0
    ensures Regular(ContextBuilder(views, lang), ElemChunker(views, lang), elems)
  {
    forall n: int, k | 0 <= k < |elems|
      ensures ContextBuilder(views, lang)(n, elems[k])
        == (NextId(n, Get(elems[k], "id", Null)).0, Ok(ElemChunker(views, lang)(elems[k], NextId(n, Get(elems[k], "id", Null)).1)))
      ensures ElemChunker(views, lang)(elems[k], NextId(n, Get(elems[k], "id", Null)).1).context.Dict?
    {
      var ctx := ElemContext(views, elems[k]).value;
      assert Truthy(ctx);
    }
  }

  /** With non-empty metadata, a session releases every pushed element's
      chunk, in order, each with its neighbours' payloads; the chunk ids are
      the element ids as strings, or 1, 2, 3, … for the id-less ones. */
  lemma ContextSession(views: map<string, Value>, lang: Value, elems: seq<Elem>)
    requires WellFormed(elems) && |views| > 0
    ensures Session(ContextBuilder(views, lang), elems) == Ok(WithNeighbours(Made(ElemChunker(views, lang), elems)))
  {
    ContextBuilderRegular(views, lang, elems);
    SessionIsWithNeighbours(ContextBuilder(views, lang), ElemChunker(views, lang), elems);
  }

  /** With empty metadata, two elements without context cannot be streamed:
      the first chunk has no context dict to take "after". */
  lemma EmptyMetadataTwoElements()
    ensures Session(ContextBuilder(map[], Null), [map["data" := Str("a")], map["data" := Str("b")]]) == Err(PyError(TypeError))
  {
    var e1: map<string, Value> := map["data" := Str("a")];
    var e2: map<string, Value> := map["data" := Str("b")];
    assert [e1, e2][..1] == [e1];
    assert [e1][..0] == [];
    var c1 := Chunk(Str(PyStr(Int(1))), Str("a"), Null);
    var b := ContextBuilder(map[], Null);
    assert Run(b, [e1]) == (1, Window(Some(c1), None), Ok([]));
    assert b(1, e2) == (2, Ok(Chunk(Str(PyStr(Int(2))), Str("b"), Null)));
  }
}
