// Serialising a document to JSON (dump/json.py): every chunk becomes a
// mapping with its id, its payload, its filtered context and its
// serialised subchunks, in that order.

module JsonDump {
  import opened Values
  import opened Defs
  import opened Emit

  /** Iterating a `chunks` value that is not a list: an empty string or
      dict gives nothing; the elements of a non-empty one are strings, which
      cannot be indexed by "id"; anything else is not iterable. */
  function NonListChunks(v: Value): (r: Result<seq<Node>>)
    requires !v.List?
    ensures r.Ok? <==> (v.Str? || v.Dict?) && !Truthy(v)
    ensures r.Ok? ==> r.value == []
    ensures r.Err? ==> r.error == PyError(TypeError)
  {
    if (v.Str? || v.Dict?) && !Truthy(v) then Ok([]) else Err(PyError(TypeError))
  }

  /** `serialize_chunk(chunk, ctx_fields, ctx_pos)`. */
  function SerializeChunk(c: Value, f: ContextFilter): (r: Result<Node>)
    ensures !c.Dict? ==> r == Err(PyError(TypeError))
    ensures c.Dict? && ("id" !in c.fields || "data" !in c.fields) ==> r == Err(PyError(KeyError))
    ensures c.Dict? && "id" in c.fields && "data" in c.fields && ContextEntry(f, c.fields).Err? ==>
      r == Err(ContextEntry(f, c.fields).error)
    ensures r.Ok? ==> c.Dict? && r.value.Mapping? && |r.value.entries| >= 2
    ensures r.Ok? ==> r.value.entries[0] == ("id", Plain(c.fields["id"])) && r.value.entries[1] == ("data", Plain(c.fields["data"]))
    decreases c, 1
  {
    if !c.Dict? then Err(PyError(TypeError))
    else if "id" !in c.fields || "data" !in c.fields then Err(PyError(KeyError))
    else
      var ctx :- ContextEntry(f, c.fields);
      var head := [("id", Plain(c.fields["id"])), ("data", Plain(c.fields["data"]))] + ctx;
      if "chunks" !in c.fields then Ok(Mapping(head))
      else if c.fields["chunks"].List? then
        var kids :- SerializeList(c.fields["chunks"].items, f);
        Ok(Mapping(head + [("chunks", Items(kids))]))
      else
        var kids :- NonListChunks(c.fields["chunks"]);
        Ok(Mapping(head + [("chunks", Items(kids))]))
  }

  /** The entries every serialised chunk starts with: its id and its
      payload, unchanged, then its context if the filter leaves any. */
  function Head(c: Value, f: ContextFilter): seq<(string, Node)>
    requires c.Dict? && "id" in c.fields && "data" in c.fields && ContextEntry(f, c.fields).Ok?
  {
    [("id", Plain(c.fields["id"])), ("data", Plain(c.fields["data"]))] + ContextEntry(f, c.fields).value
  }

  /** A serialised chunk is its head, then its subchunks exactly when it has
      a `chunks` field. */
  lemma ChunkShape(c: Value, f: ContextFilter)
    requires SerializeChunk(c, f).Ok?
    ensures "id" in c.fields && "data" in c.fields && ContextEntry(f, c.fields).Ok?
    ensures var es := SerializeChunk(c, f).value.entries; var h := Head(c, f);
      if "chunks" in c.fields then |es| == |h| + 1 && es[..|h|] == h && es[|h|].0 == "chunks" && es[|h|].1.Items?
      else es == h
  {
  }

  /** `[serialize_chunk(c, ...) for c in chunks]`: the first failure stops
      the list. */
  function SerializeList(cs: seq<Value>, f: ContextFilter): (r: Result<seq<Node>>)
    ensures r.Ok? ==> |r.value| == |cs|
    decreases cs, 0
  {
    if |cs| == 0 then Ok([])
    else
      var before :- SerializeList(cs[..|cs| - 1], f);
      var last :- SerializeChunk(cs[|cs| - 1], f);
      Ok(before + [last])
  }

  /** The list serialises each chunk in place, in order, with the same
      filter. */
  lemma SerializeListAt(cs: seq<Value>, f: ContextFilter)
    ensures SerializeList(cs, f).Ok? <==> forall k :: 0 <= k < |cs| ==> SerializeChunk(cs[k], f).Ok?
    ensures SerializeList(cs, f).Ok? ==>
      forall k :: 0 <= k < |cs| ==> SerializeList(cs, f).value[k] == SerializeChunk(cs[k], f).value
  {
    if forall k :: 0 <= k < |cs| ==> SerializeChunk(cs[k], f).Ok? {
      SerializeListOk(cs, f);
    }
    if SerializeList(cs, f).Ok? {
      forall k | 0 <= k < |cs|
        ensures SerializeChunk(cs[k], f) == Ok(SerializeList(cs, f).value[k])
      {
        SerializeListOne(cs, f, k);
      }
    }
  }

  /** A list of chunks that each serialise serialises. */
  lemma {:induction false} SerializeListOk(cs: seq<Value>, f: ContextFilter)
    requires forall k :: 0 <= k < |cs| ==> SerializeChunk(cs[k], f).Ok?
    ensures SerializeList(cs, f).Ok?
    decreases |cs|
  {
    if |cs| > 0 {
      var init := cs[..|cs| - 1];
      assert forall k :: 0 <= k < |init| ==> init[k] == cs[k];
      SerializeListOk(init, f);
    }
  }

  /** The k-th element of a serialised list is the k-th chunk serialised. */
  lemma {:induction false} SerializeListOne(cs: seq<Value>, f: ContextFilter, k: int)
    requires SerializeList(cs, f).Ok? && 0 <= k < |cs|
    ensures SerializeChunk(cs[k], f) == Ok(SerializeList(cs, f).value[k])
    decreases |cs|
  {
    var init := cs[..|cs| - 1];
    if k < |init| {
      assert init[k] == cs[k];
      SerializeListOne(init, f, k);
    }
  }

  /** A failing list fails with the error of one of its chunks. */
  lemma {:induction false} SerializeListError(cs: seq<Value>, f: ContextFilter)
    requires SerializeList(cs, f).Err?
    ensures exists k :: 0 <= k < |cs| && SerializeChunk(cs[k], f).Err? && SerializeChunk(cs[k], f).error == SerializeList(cs, f).error
    decreases |cs|
  {
    var init := cs[..|cs| - 1];
    if SerializeList(init, f).Err? {
      SerializeListError(init, f);
      var k :| 0 <= k < |init| && SerializeChunk(init[k], f).Err? && SerializeChunk(init[k], f).error == SerializeList(init, f).error;
      assert init[k] == cs[k];
    } else {
      assert SerializeChunk(cs[|cs| - 1], f).Err?;
    }
  }

  /** `dump_json`'s data: the format tag, the document's metadata and its
      chunks, in that order. */
  function DumpJson(header: Value, structure: seq<Value>, contextFields: Option<seq<string>>): (r: Result<Node>)
    ensures r.Ok? <==> SerializeList(structure, MakeFilter(contextFields)).Ok?
    ensures r.Ok? ==>
      r.value.Mapping? && KeysOf(r.value.entries) == ["format", "header", "chunks"]
      && r.value.entries[0].1 == Plain(Str(FMT_SRCDOCUMENT)) && r.value.entries[1].1 == Plain(header)
      && r.value.entries[2].1.Items? && |r.value.entries[2].1.elems| == |structure|
    ensures r.Ok? ==> forall k :: 0 <= k < |structure| ==>
      SerializeChunk(structure[k], MakeFilter(contextFields)) == Ok(r.value.entries[2].1.elems[k])
    ensures r.Err? ==>
      exists k :: 0 <= k < |structure| && SerializeChunk(structure[k], MakeFilter(contextFields)).Err?
                  && SerializeChunk(structure[k], MakeFilter(contextFields)).error == r.error
  {
    SerializeListAt(structure, MakeFilter(contextFields));
    var listed := SerializeList(structure, MakeFilter(contextFields));
    if listed.Err? then
      SerializeListError(structure, MakeFilter(contextFields));
      Err(listed.error)
    else
      var cs := listed.value;
      Ok(Mapping([("format", Plain(Str(FMT_SRCDOCUMENT))), ("header", Plain(header)), ("chunks", Items(cs))]))
  }

  // -------------------------------------------------------------------
  // Reading a dump back

  /** A chunk the default filter reproduces: an id and a payload, perhaps a
      non-empty context without structure fields, perhaps a list of such
      chunks, and nothing else. */
  predicate Canonical(c: Value)
    decreases c, 1
  {
    c.Dict? && "id" in c.fields && "data" in c.fields
    && (forall k :: k in c.fields ==> k == "id" || k == "data" || k == "context" || k == "chunks")
    && ("context" in c.fields ==>
          c.fields["context"].Dict? && |c.fields["context"].fields| > 0
          && forall k :: k in c.fields["context"].fields ==> k !in CTX_FIELDS)
    && ("chunks" in c.fields ==> c.fields["chunks"].List? && AllCanonical(c.fields["chunks"].items))
  }

  predicate AllCanonical(cs: seq<Value>)
    decreases cs, 0
  {
    forall k :: 0 <= k < |cs| ==> Canonical(cs[k])
  }

  /** Parsed back, the head of a canonical chunk gives all its fields but
      the subchunks. */
  lemma HeadRoundTrip(c: Value)
    requires Canonical(c)
    ensures ContextEntry(MakeFilter(None), c.fields).Ok?
    ensures FieldsOf(Head(c, MakeFilter(None))) == c.fields - {"chunks"}
  {
    var f := MakeFilter(None);
    var fs := c.fields;
    if "context" in fs {
      assert Filtered(f, fs["context"].fields) == fs["context"].fields;
    }
    var ctx := ContextEntry(f, fs).value;
    var two := [("id", Plain(fs["id"])), ("data", Plain(fs["data"]))];
    assert [("id", Plain(fs["id"]))] == [] + [("id", Plain(fs["id"]))];
    FieldsOfSnoc([], "id", Plain(fs["id"]));
    FieldsOfSnoc([("id", Plain(fs["id"]))], "data", Plain(fs["data"]));
    var m := map["id" := fs["id"], "data" := fs["data"]];
    if ctx != [] {
      FieldsOfSnoc(two, "context", Plain(fs["context"]));
      m := m["context" := fs["context"]];
    } else {
      assert two + ctx == two;
    }
    assert FieldsOf(Head(c, f)) == m;
    HeadKeys(fs);
  }

  /** A chunk's fields but the subchunks, entry by entry. */
  lemma HeadKeys(fs: map<string, Value>)
    requires "id" in fs && "data" in fs
    requires forall k :: k in fs ==> k == "id" || k == "data" || k == "context" || k == "chunks"
    ensures "context" in fs ==> map["id" := fs["id"], "data" := fs["data"]]["context" := fs["context"]] == fs - {"chunks"}
    ensures "context" !in fs ==> map["id" := fs["id"], "data" := fs["data"]] == fs - {"chunks"}
  {
  }

  /** Parsed back, the JSON written for a canonical chunk is the chunk. */
  lemma {:induction false} ChunkRoundTrip(c: Value)
    requires Canonical(c)
    ensures SerializeChunk(c, MakeFilter(None)).Ok? && ToValue(SerializeChunk(c, MakeFilter(None)).value) == c
    decreases c, 1
  {
    if "chunks" in c.fields {
      ListRoundTrip(c.fields["chunks"].items);
      RoundTripWithChunks(c);
    } else {
      RoundTripLeaf(c);
    }
  }

  /** The subchunks round-trip: so does the chunk. */
  lemma RoundTripWithChunks(c: Value)
    requires Canonical(c) && "chunks" in c.fields
    requires SerializeList(c.fields["chunks"].items, MakeFilter(None)).Ok?
    requires ListRoundTrips(c.fields["chunks"].items, SerializeList(c.fields["chunks"].items, MakeFilter(None)).value)
    ensures SerializeChunk(c, MakeFilter(None)).Ok? && ToValue(SerializeChunk(c, MakeFilter(None)).value) == c
  {
    var f := MakeFilter(None);
    var fs := c.fields;
    HeadRoundTrip(c);
    var h := Head(c, f);
    var items := fs["chunks"].items;
    var ns := SerializeList(items, f).value;
    assert ToValue(Items(ns)) == fs["chunks"] by {
      assert forall k :: 0 <= k < |ns| ==> ToValue(ns[k]) == items[k];
    }
    assert SerializeChunk(c, f) == Ok(Mapping(h + [("chunks", Items(ns))]));
    FieldsOfSnoc(h, "chunks", Items(ns));
    RestoreKey(fs, "chunks");
  }

  /** A chunk without subchunks is its head. */
  lemma RoundTripLeaf(c: Value)
    requires Canonical(c) && "chunks" !in c.fields
    ensures SerializeChunk(c, MakeFilter(None)).Ok? && ToValue(SerializeChunk(c, MakeFilter(None)).value) == c
  {
    var f := MakeFilter(None);
    HeadRoundTrip(c);
    assert SerializeChunk(c, f) == Ok(Mapping(Head(c, f)));
    assert c.fields - {"chunks"} == c.fields;
  }

  /** Each serialised chunk parses back to its source. */
  predicate ListRoundTrips(cs: seq<Value>, ns: seq<Node>)
  {
    |ns| == |cs| && forall k :: 0 <= k < |cs| ==> ToValue(ns[k]) == cs[k]
  }

  lemma RestoreKey(m: map<string, Value>, k: string)
    requires k in m
    ensures (m - {k})[k := m[k]] == m
  {
  }

  lemma {:induction false} ListRoundTrip(cs: seq<Value>)
    requires AllCanonical(cs)
    ensures SerializeList(cs, MakeFilter(None)).Ok?
    ensures ListRoundTrips(cs, SerializeList(cs, MakeFilter(None)).value)
    decreases cs, 0
  {
    forall k | 0 <= k < |cs|
      ensures SerializeChunk(cs[k], MakeFilter(None)).Ok? && ToValue(SerializeChunk(cs[k], MakeFilter(None)).value) == cs[k]
    {
      ChunkRoundTrip(cs[k]);
    }
    SerializeListAt(cs, MakeFilter(None));
  }
}
