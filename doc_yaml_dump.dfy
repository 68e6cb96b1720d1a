// The older YAML dumper (doc/yaml/dump.py): the same element building as
// dump/yaml.py, without any context.

module DocYamlDump {
  import opened Values
  import opened Emit
  import YamlDump

  /** `chunkiter_representer`'s loop body: id if present, payload if
      truthy, subchunks wrapped in a `ChunkIter`. */
  function Element(c: Value): (r: Result<Node>)
    ensures r.Ok? <==> c.Dict?
    ensures r.Ok? ==> r.value == Mapping(YamlDump.IdEntry(c.fields) + YamlDump.DataEntry(c.fields) + YamlDump.ChunksEntry(c.fields))
    ensures !c.Dict? ==> r == Err(YamlDump.NotAChunk(c))
  {
    if !c.Dict? then Err(YamlDump.NotAChunk(c))
    else Ok(Mapping(YamlDump.IdEntry(c.fields) + YamlDump.DataEntry(c.fields) + YamlDump.ChunksEntry(c.fields)))
  }

  /** No element carries a context. */
  lemma NoContext(c: Value)
    requires c.Dict?
    ensures forall k :: 0 <= k < |Element(c).value.entries| ==> Element(c).value.entries[k].0 != "context"
  {
    var fs := c.fields;
    var es := Element(c).value.entries;
    assert forall k :: 0 <= k < |es| ==> es[k].0 in {"id", "data", "chunks"};
  }

  function Elements(cs: seq<Value>): (r: Result<seq<Node>>)
    ensures r.Ok? ==> |r.value| == |cs|
  {
    if |cs| == 0 then Ok([])
    else
      var before :- Elements(cs[..|cs| - 1]);
      var last :- Element(cs[|cs| - 1]);
      Ok(before + [last])
  }

  /** What `chunkiter_representer` gives for the chunks a `ChunkIter`
      wraps. */
  function Represent(data: Value): (r: Result<Node>)
    ensures r.Ok? ==> r.value.Items?
  {
    if data.List? then
      var es :- Elements(data.items);
      Ok(Items(es))
    else YamlDump.NonListElements(data)
  }

  lemma {:induction false} ElementsStop(cs: seq<Value>, i: nat)
    requires i <= |cs| && Elements(cs[..i]).Err?
    ensures Elements(cs) == Elements(cs[..i])
    decreases |cs| - i
  {
    if i < |cs| {
      assert cs[..i + 1][..i] == cs[..i];
      ElementsStop(cs, i + 1);
    } else {
      assert cs[..i] == cs;
    }
  }

  /** `chunkiter_representer`: the element list, built one chunk at a
      time. */
  method ChunkIterRepresenter(data: Value) returns (r: Result<Node>)
    ensures r == Represent(data)
  {
    if !data.List? {
      return YamlDump.NonListElements(data);
    }
    var cs := data.items;
    var chunklist: seq<Node> := [];
    for i := 0 to |cs|
      invariant Elements(cs[..i]) == Ok(chunklist)
    {
      var elem := Element(cs[i]);
      assert cs[..i + 1][..i] == cs[..i];
      if elem.Err? {
        ElementsStop(cs, i + 1);
        return Err(elem.error);
      }
      chunklist := chunklist + [elem.value];
    }
    assert cs[..|cs|] == cs;
    r := Ok(Items(chunklist));
  }

  /** Each element is the one the newer dumper writes with an empty list of
      context fields. */
  lemma ElementAsNewer(c: Value)
    ensures Element(c) == YamlDump.Element(MakeFilter(Some([])), c)
  {
    if c.Dict? {
      var head := YamlDump.IdEntry(c.fields) + YamlDump.DataEntry(c.fields) + YamlDump.ChunksEntry(c.fields);
      if "context" in c.fields && c.fields["context"].Dict? {
        FilterModes(c.fields["context"].fields);
      }
      assert head + [] == head;
    }
  }

  /** The older dumper writes what the newer one writes with an empty list
      of context fields. */
  lemma {:induction false} RepresentAsNewer(data: Value)
    ensures Represent(data) == YamlDump.Represent(MakeFilter(Some([])), data)
  {
    if data.List? {
      ElementsAsNewer(data.items);
    }
  }

  lemma {:induction false} ElementsAsNewer(cs: seq<Value>)
    ensures Elements(cs) == YamlDump.Elements(MakeFilter(Some([])), cs)
    decreases |cs|
  {
    if |cs| > 0 {
      ElementsAsNewer(cs[..|cs| - 1]);
      ElementAsNewer(cs[|cs| - 1]);
    }
  }
}
